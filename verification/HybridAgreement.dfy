/** Hybrid mappings, whose two filter values are printed raw: exactly when a new household is listed. */
module HybridAgreement {
  import opened Text
  import opened SoqlLiteral
  import opened SoqlQuery
  import opened OrgMapping
  import opened OrgQuery
  import opened OrgQueryMeaning
  import opened SchemaDiscovery
  import opened ReadWriteAgreement
  import opened QuoteBalance

  // ---- how a pair of raw values is read ----

  /** What a well-escaped value is read as. */
  function Unescaped(v: string): string
    requires WellEscaped(v)
  {
    ValueOf(RawChars(v))
  }

  function NameAtom(v: string): Atom {
    Atom(DEV_NAME, v)
  }

  function TypeAtom(v: string): Atom {
    Atom("Type", v)
  }

  /** The filter printed from a record type name and a Type value. */
  function PairFilter(v1: string, v2: string): string {
    "(" + Join(RawTexts([NameAtom(v1), TypeAtom(v2)]), " OR ") + ")"
  }

  function PairCond(w1: string, w2: string): Cond {
    AnyOf([Equals(DEV_NAME, w1), Equals("Type", w2)])
  }

  lemma RawTermReads(a: Atom, rest: string)
    requires Word(a.field) && WellEscaped(a.value)
    ensures ParseTerm(RawText(a) + rest) == Parsed(Equals(a.field, Unescaped(a.value)), rest)
  {
    ParseEquals(a.field, a.value, rest);
    WellEscapedCloses(a.value, rest);
  }

  lemma TwoTermsParse(a: Atom, c: Atom, rest: string)
    requires Word(a.field) && Word(c.field) && WellEscaped(a.value) && WellEscaped(c.value)
    ensures ParseCond(OrText([a, c], rest))
         == Parsed(AnyOf([Equals(a.field, Unescaped(a.value)), Equals(c.field, Unescaped(c.value))]), ")" + rest)
  {
    var first, second := Equals(a.field, Unescaped(a.value)), Equals(c.field, Unescaped(c.value));
    var more := " OR " + OrText([c], rest);
    assert [a, c][1..] == [c];
    OrTextHead([a, c], rest);
    RawTermReads(a, more);
    OrAhead(OrText([c], rest));
    ChainFromTerm(OrText([a, c], rest), first, more);
    ChainStep([first], [c], rest);
    RawTermReads(c, ")" + rest);
    ClosedChainParses([first, second], rest);
    assert [first] + [second] == [first, second];
  }

  lemma ListTerm(list: string, rest: string)
    ensures var p := ParseCond(list + (")" + rest));
            ParseTerm("(" + list + ")" + rest) ==
            if p.Parsed? && ")" <= SkipSpaces(p.rest) then Parsed(p.cond, SkipSpaces(p.rest)[1..]) else Failed
  {
    var s := "(" + list + ")" + rest;
    assert s[1..] == list + (")" + rest) && SkipSpaces(s) == s;
  }

  lemma PairParses(v1: string, v2: string, rest: string)
    requires WellEscaped(v1) && WellEscaped(v2)
    ensures ParseTerm(PairFilter(v1, v2) + rest) == Parsed(PairCond(Unescaped(v1), Unescaped(v2)), rest)
  {
    DevNameIsWord();
    TwoTermsParse(NameAtom(v1), TypeAtom(v2), rest);
    ListTerm(Join(RawTexts([NameAtom(v1), TypeAtom(v2)]), " OR "), rest);
    ClosedChain(rest);
    assert (")" + rest)[1..] == rest;
  }

  // ---- listings of a hybrid mapping ----

  /** The mapping's account patterns are these two. */
  predicate PrintsPair(m: Option<Mapping>, v1: string, v2: string) {
    Hybrid(m) && Filters(AccountPatterns(m.value.patterns)) == RawTexts([NameAtom(v1), TypeAtom(v2)])
  }

  lemma PairListParses(m: Option<Mapping>, v1: string, v2: string, fields: string, limit: nat, offset: nat)
    requires PrintsPair(m, v1, v2) && WellEscaped(v1) && WellEscaped(v2)
    requires SelectList(fields) && Word(HouseholdObject(m))
    ensures ParseQuery(ListHouseholds(m, fields, limit, offset))
         == Some(Query(fields, HouseholdObject(m), Some(PairCond(Unescaped(v1), Unescaped(v2))), limit, offset))
  {
    ListText(m, fields, limit, offset);
    PairParses(v1, v2, PageText(limit, offset));
    FilteredListParses(fields, HouseholdObject(m), PairFilter(v1, v2), PairCond(Unescaped(v1), Unescaped(v2)), limit, offset);
  }

  /** With no bare quote in either value, the listing is a query if and only if both values are well escaped. */
  lemma PairReadableIff(m: Option<Mapping>, v1: string, v2: string, fields: string, limit: nat, offset: nat)
    requires PrintsPair(m, v1, v2) && NoBareQuote(v1) && NoBareQuote(v2)
    requires SelectList(fields) && Word(HouseholdObject(m))
    ensures ParseQuery(ListHouseholds(m, fields, limit, offset)).Some? <==> WellEscaped(v1) && WellEscaped(v2)
  {
    DevNameIsWord();
    if WellEscaped(v1) && WellEscaped(v2) {
      PairListParses(m, v1, v2, fields, limit, offset);
    } else if ParseQuery(ListHouseholds(m, fields, limit, offset)).Some? {
      ReadableListIsBalanced(m, fields, limit, offset);
      PairBalancedIff(NameAtom(v1), TypeAtom(v2));
    }
  }

  lemma PairMeaning(w1: string, w2: string, r: Record)
    ensures Eval(PairCond(w1, w2), r) <==> Carries(r, DEV_NAME, w1) || Carries(r, "Type", w2)
  {
    var cs := [Equals(DEV_NAME, w1), Equals("Type", w2)];
    assert Eval(cs[0], r) <==> Carries(r, DEV_NAME, w1);
    assert Eval(cs[1], r) <==> Carries(r, "Type", w2);
  }

  /**
   * The records a hybrid mapping lists, when no quote in its two values is bare: none, unless both are well escaped,
   * and then those that carry the first as their record type or the second as their Type, as the escapes read.
   */
  lemma PairSelectsIff(m: Option<Mapping>, v1: string, v2: string, fields: string, limit: nat, offset: nat, r: Record)
    requires PrintsPair(m, v1, v2) && NoBareQuote(v1) && NoBareQuote(v2)
    requires SelectList(fields) && Word(HouseholdObject(m))
    ensures Selected(m, fields, limit, offset, r)
       <==> WellEscaped(v1) && WellEscaped(v2) && (Carries(r, DEV_NAME, Unescaped(v1)) || Carries(r, "Type", Unescaped(v2)))
  {
    PairReadableIff(m, v1, v2, fields, limit, offset);
    if WellEscaped(v1) && WellEscaped(v2) {
      PairListParses(m, v1, v2, fields, limit, offset);
      PairMeaning(Unescaped(v1), Unescaped(v2), r);
    }
  }

  // ---- classified bundles ----

  /** The record type name and the Type value of a hybrid bundle. */
  function NameValue(b: Bundle): string
    requires |AtomsOf(b)| == 2
  {
    HouseholdRecordType(b).value.developerName
  }

  function TypeText(b: Bundle): string
    requires |AtomsOf(b)| == 2
  {
    if HouseholdPicklistValue(b).Some? then HouseholdPicklistValue(b).value.value else HouseholdDataValue(b).value.value
  }

  lemma ClassifiedPrintsPair(b: Bundle, m: Option<Mapping>)
    requires m.Some? && m.value.patterns == PatternsOf(b) && |AtomsOf(b)| == 2
    ensures PrintsPair(m, NameValue(b), TypeText(b))
  {
    ClassifiedIsHybridIff(b, m);
    assert AtomsOf(b) == [NameAtom(NameValue(b)), TypeAtom(TypeText(b))];
  }

  /**
   * For every hybrid bundle whose two values have no bare quote: a new household is listed by its own mapping if and
   * only if no managed package supplies the household, the record type has an id and a name that needs no escaping, and
   * the Type value is well escaped.
   */
  lemma HybridAgreesIff(b: Bundle, m: Option<Mapping>, name: string, description: string, fields: string, limit: nat,
                        offset: nat)
    requires Describes(m, b) && |AtomsOf(b)| == 2 && DistinctRecordTypes(b)
    requires NoBareQuote(NameValue(b)) && NoBareQuote(TypeText(b))
    requires SelectList(fields) && Word(HouseholdObject(m))
    ensures Selected(m, fields, limit, offset, Created(b, m, name, description))
       <==> ManagedHousehold(b).None? && HouseholdRecordType(b).value.recordTypeId != ""
            && Clean(NameValue(b)) && WellEscaped(TypeText(b))
  {
    ClassifiedPrintsPair(b, m);
    ClassifiedFields(b, m, name, description);
    NamedOnlyIff(m, NameValue(b), TypeText(b), fields, limit, offset, Created(b, m, name, description));
  }

  lemma ClassifiedFields(b: Bundle, m: Option<Mapping>, name: string, description: string)
    requires Describes(m, b) && |AtomsOf(b)| == 2 && DistinctRecordTypes(b)
    ensures var r := Created(b, m, name, description);
            && "Type" !in r
            && (DEV_NAME in r <==> ManagedHousehold(b).None? && HouseholdRecordType(b).value.recordTypeId != "")
            && (DEV_NAME in r ==> r[DEV_NAME] == NameValue(b))
  {
    CreatedFields(b, m, name, description);
    ClassifiedRecordType(b, m);
  }

  /** A record without a Type is listed when it has the record type of the first value, and that value needs no escaping. */
  lemma NamedOnlyIff(m: Option<Mapping>, v1: string, v2: string, fields: string, limit: nat, offset: nat, r: Record)
    requires PrintsPair(m, v1, v2) && NoBareQuote(v1) && NoBareQuote(v2)
    requires "Type" !in r && (DEV_NAME in r ==> r[DEV_NAME] == v1)
    requires SelectList(fields) && Word(HouseholdObject(m))
    ensures Selected(m, fields, limit, offset, r) <==> DEV_NAME in r && Clean(v1) && WellEscaped(v2)
  {
    PairSelectsIff(m, v1, v2, fields, limit, offset, r);
    UnescapedIsItself(v1);
  }

  lemma UnescapedIsItself(v: string)
    ensures Clean(v) <==> WellEscaped(v) && Unescaped(v) == v
  {
    if WellEscaped(v) {
      WellEscapedValueIff(v);
    }
    if Clean(v) {
      CleanIsWellEscaped(v);
    }
  }

  // ---- any Type value at all ----

  /** When the record type name is clean, a listing is a query only if the Type value, read inside its literal, ends inside it. */
  lemma CleanNameReadable(m: Option<Mapping>, v1: string, v2: string, fields: string, limit: nat, offset: nat)
    requires PrintsPair(m, v1, v2) && Clean(v1)
    requires SelectList(fields) && Word(HouseholdObject(m))
    ensures ParseQuery(ListHouseholds(m, fields, limit, offset)).Some? ==> After(Inside, v2) == Inside
  {
    if ParseQuery(ListHouseholds(m, fields, limit, offset)).Some? {
      DevNameIsWord();
      ReadableListIsBalanced(m, fields, limit, offset);
      PairBalance(NameAtom(v1), TypeAtom(v2));
      CleanStays(Inside, v1);
      AcrossBetween("Type", Inside);
    }
  }

  /** A condition whose first part, in a disjunction or as a list inside one, is the record type test. */
  predicate BeginsWithName(c: Cond, v1: string) {
    c.AnyOf? && c.conds != [] && (c.conds[0] == Equals(DEV_NAME, v1) || BeginsWithList(c.conds[0], v1))
  }

  predicate BeginsWithList(c: Cond, v1: string) {
    c.AnyOf? && c.conds != [] && c.conds[0] == Equals(DEV_NAME, v1)
  }

  lemma ChainConnective(op: Connective, acc: seq<Cond>, s: string)
    requires op != Neither && ParseChain(op, acc, s).Parsed?
    ensures if op == And then ParseChain(op, acc, s).cond.AllOf? else ParseChain(op, acc, s).cond.AnyOf?
    decreases |s|
  {
    if NextConnective(s) == op {
      var p := ParseTerm(AfterConnective(s));
      ChainConnective(op, acc + [p.cond], p.rest);
    }
  }

  /** The text of the list after a clean record type name. */
  function ListTail(v2: string, rest: string): string {
    " OR " + OrText([TypeAtom(v2)], rest)
  }

  lemma ListChain(v1: string, v2: string, rest: string)
    requires Clean(v1)
    ensures ParseCond(Join(RawTexts([NameAtom(v1), TypeAtom(v2)]), " OR ") + (")" + rest))
         == ParseChain(Or, [Equals(DEV_NAME, v1)], ListTail(v2, rest))
  {
    DevNameIsWord();
    assert [NameAtom(v1), TypeAtom(v2)][1..] == [TypeAtom(v2)];
    CleanHeadChain([NameAtom(v1), TypeAtom(v2)], rest);
  }

  /** The parenthesised list, whenever it can be read, is a disjunction that begins with the record type test. */
  lemma ListBegins(v1: string, v2: string, rest: string)
    requires Clean(v1) && ParseTerm(PairFilter(v1, v2) + rest).Parsed?
    ensures BeginsWithList(ParseTerm(PairFilter(v1, v2) + rest).cond, v1)
  {
    ListTerm(Join(RawTexts([NameAtom(v1), TypeAtom(v2)]), " OR "), rest);
    ListChain(v1, v2, rest);
    ChainKeepsPrefix(Or, [Equals(DEV_NAME, v1)], ListTail(v2, rest));
    ChainConnective(Or, [Equals(DEV_NAME, v1)], ListTail(v2, rest));
  }

  /** What stands in a readable WHERE after such a list: nothing, alternatives, or further conditions. */
  lemma WhereBegins(s: string, v1: string)
    requires ParseTerm(s).Parsed? && BeginsWithList(ParseTerm(s).cond, v1) && ParseCond(s).Parsed?
    ensures var c := ParseCond(s).cond;
            BeginsWithName(c, v1) || (c.AllOf? && c.conds != [] && BeginsWithList(c.conds[0], v1))
  {
    var p := ParseTerm(s);
    var op := NextConnective(p.rest);
    if op != Neither {
      ChainKeepsPrefix(op, [p.cond], p.rest);
      ChainConnective(op, [p.cond], p.rest);
    }
  }

  lemma CarriesBegins(c: Cond, v1: string, r: Record)
    requires Carries(r, DEV_NAME, v1)
    ensures BeginsWithList(c, v1) ==> Eval(c, r)
    ensures BeginsWithName(c, v1) ==> Eval(c, r)
  {
    assert Eval(Equals(DEV_NAME, v1), r);
    if BeginsWithList(c, v1) {
      assert Eval(c.conds[0], r);
    }
    if BeginsWithName(c, v1) && BeginsWithList(c.conds[0], v1) {
      assert Eval(c.conds[0].conds[0], r);
      assert Eval(c.conds[0], r);
    }
  }

  lemma ReadableBegins(m: Option<Mapping>, v1: string, v2: string, fields: string, limit: nat,
                       offset: nat) returns (c: Cond)
    requires PrintsPair(m, v1, v2) && Clean(v1)
    requires SelectList(fields) && Word(HouseholdObject(m))
    requires ParseQuery(ListHouseholds(m, fields, limit, offset)).Some?
    ensures ParseQuery(ListHouseholds(m, fields, limit, offset)).value.where == Some(c)
    ensures BeginsWithName(c, v1) || (c.AllOf? && c.conds != [] && BeginsWithList(c.conds[0], v1))
    ensures ParseCond(PairFilter(v1, v2) + PageText(limit, offset)).Parsed?
    ensures ParseCond(PairFilter(v1, v2) + PageText(limit, offset)).cond == c
  {
    var filter, page := PairFilter(v1, v2), PageText(limit, offset);
    ListText(m, fields, limit, offset);
    RegroupTail(" WHERE ", filter, page);
    HeadParses(fields, HouseholdObject(m), " WHERE " + (filter + page));
    WhereStep(fields, HouseholdObject(m), filter + page);
    c := ParseCond(filter + page).cond;
    ListBegins(v1, v2, page);
    WhereBegins(filter + page, v1);
  }

  /** The conditions a listing adds after the household list. */
  predicate Added(c: Cond, r: Record) {
    c.AllOf? ==> forall i :: 1 <= i < |c.conds| ==> Eval(c.conds[i], r)
  }

  lemma AddedDecides(c: Cond, v1: string, r: Record)
    requires BeginsWithName(c, v1) || (c.AllOf? && c.conds != [] && BeginsWithList(c.conds[0], v1))
    requires Carries(r, DEV_NAME, v1)
    ensures Eval(c, r) <==> Added(c, r)
  {
    CarriesBegins(c, v1, r);
    if c.AllOf? {
      CarriesBegins(c.conds[0], v1, r);
    }
  }

  /**
   * Whatever the Type value: a record with a clean record type name is listed if and only if the listing is a query and the
   * record meets the conditions, if any, that the Type value added after the list.
   */
  lemma CleanNameListedIff(m: Option<Mapping>, v1: string, v2: string, fields: string, limit: nat, offset: nat, r: Record)
    requires PrintsPair(m, v1, v2) && Clean(v1) && Carries(r, DEV_NAME, v1)
    requires SelectList(fields) && Word(HouseholdObject(m))
    ensures var q := ParseQuery(ListHouseholds(m, fields, limit, offset));
            Selected(m, fields, limit, offset, r) <==> q.Some? && q.value.where.Some? && Added(q.value.where.value, r)
  {
    var q := ParseQuery(ListHouseholds(m, fields, limit, offset));
    if q.Some? {
      var c := ReadableBegins(m, v1, v2, fields, limit, offset);
      AddedDecides(c, v1, r);
    }
  }

  // ---- Type values without a closing parenthesis ----

  /** The list ends at a closing parenthesis after the record type test. */
  lemma ListEnds(v1: string, v2: string, rest: string)
    requires Clean(v1) && ParseTerm(PairFilter(v1, v2) + rest).Parsed?
    ensures Suffix(")" + ParseTerm(PairFilter(v1, v2) + rest).rest, ListTail(v2, rest))
  {
    ListTerm(Join(RawTexts([NameAtom(v1), TypeAtom(v2)]), " OR "), rest);
    ListChain(v1, v2, rest);
    ChainEnds(ListTail(v2, rest), [Equals(DEV_NAME, v1)]);
  }

  lemma ChainEnds(s: string, acc: seq<Cond>)
    requires ParseChain(Or, acc, s).Parsed? && ")" <= SkipSpaces(ParseChain(Or, acc, s).rest)
    ensures Suffix(")" + SkipSpaces(ParseChain(Or, acc, s).rest)[1..], s)
  {
    var inner := ParseChain(Or, acc, s).rest;
    ChainConsumed(Or, acc, s);
    ConsumesSpaces(inner);
    ConsumesTrans(s, inner, SkipSpaces(inner));
    assert SkipSpaces(inner) == ")" + SkipSpaces(inner)[1..];
  }

  lemma OnlyParenthesis(before: string, rest: string, t: string)
    requires ')' !in before && ')' !in rest
    requires Suffix(")" + t, before + (")" + rest))
    ensures t == rest
  {
    var s := before + (")" + rest);
    var k := |s| - |t| - 1;
    assert forall i :: 0 <= i < |before| ==> s[i] in before;
    assert forall i :: |before| < i < |s| ==> s[i] in rest;
    assert s[k..] == ")" + t && s[k] == (")" + t)[0];
    assert s[|before|..] == ")" + rest;
    assert (")" + t)[1..] == t && (")" + rest)[1..] == rest;
  }

  lemma PageHasNoParenthesis(limit: nat, offset: nat)
    ensures ')' !in PageText(limit, offset)
  {
    assert forall c :: c in Decimal(limit) || c in Decimal(offset) ==> IsDigit(c);
    OrderTextPlain();
  }

  lemma OrderTextPlain()
    ensures ')' !in ORDER_TEXT
  {
    forall i | 0 <= i < |ORDER_TEXT|
      ensures ORDER_TEXT[i] != ')'
    {
    }
  }

  lemma TypeTail(v2: string, rest: string)
    ensures ListTail(v2, rest) == " OR " + RawText(TypeAtom(v2)) + (")" + rest)
  {
    assert OrText([TypeAtom(v2)], rest) == RawText(TypeAtom(v2)) + (")" + rest);
  }

  /**
   * A Type value without a closing parenthesis adds nothing after the list: a record with a clean record type name is
   * listed if and only if the listing is a query.
   */
  lemma CleanNameReadableIff(m: Option<Mapping>, v1: string, v2: string, fields: string, limit: nat, offset: nat, r: Record)
    requires PrintsPair(m, v1, v2) && Clean(v1) && Carries(r, DEV_NAME, v1) && ')' !in v2
    requires SelectList(fields) && Word(HouseholdObject(m))
    ensures Selected(m, fields, limit, offset, r) <==> ParseQuery(ListHouseholds(m, fields, limit, offset)).Some?
  {
    CleanNameListedIff(m, v1, v2, fields, limit, offset, r);
    if ParseQuery(ListHouseholds(m, fields, limit, offset)).Some? {
      var c := ReadableBegins(m, v1, v2, fields, limit, offset);
      NothingAdded(v1, v2, limit, offset);
    }
  }

  lemma NothingAdded(v1: string, v2: string, limit: nat, offset: nat)
    requires Clean(v1) && ')' !in v2 && ParseCond(PairFilter(v1, v2) + PageText(limit, offset)).Parsed?
    ensures ParseCond(PairFilter(v1, v2) + PageText(limit, offset)).cond.AnyOf?
  {
    var s, page := PairFilter(v1, v2) + PageText(limit, offset), PageText(limit, offset);
    ListBegins(v1, v2, page);
    ListEnds(v1, v2, page);
    TypeTail(v2, page);
    PageHasNoParenthesis(limit, offset);
    OnlyParenthesis(" OR " + RawText(TypeAtom(v2)), page, ParseTerm(s).rest);
    PageStart(limit, offset);
  }

  /** Listed exactly when the listing is a query and what the Type value added holds; with no parenthesis in it, nothing is added. */
  predicate ListedAsFarAsAdded(m: Option<Mapping>, v2: string, fields: string, limit: nat, offset: nat, r: Record) {
    var q := ParseQuery(ListHouseholds(m, fields, limit, offset));
    && (Selected(m, fields, limit, offset, r) <==> q.Some? && q.value.where.Some? && Added(q.value.where.value, r))
    && (')' !in v2 ==> (Selected(m, fields, limit, offset, r) <==> q.Some?))
    && (q.Some? ==> After(Inside, v2) == Inside)
  }

  lemma CleanNameDecides(m: Option<Mapping>, v1: string, v2: string, fields: string, limit: nat, offset: nat, r: Record)
    requires PrintsPair(m, v1, v2) && Clean(v1) && Carries(r, DEV_NAME, v1)
    requires SelectList(fields) && Word(HouseholdObject(m))
    ensures ListedAsFarAsAdded(m, v2, fields, limit, offset, r)
  {
    CleanNameListedIff(m, v1, v2, fields, limit, offset, r);
    CleanNameReadable(m, v1, v2, fields, limit, offset);
    if ')' !in v2 {
      CleanNameReadableIff(m, v1, v2, fields, limit, offset, r);
    }
  }

  /**
   * For every hybrid bundle with a clean record type name, and any Type value: a new household is listed only if the Type
   * value ends inside its literal, as one with a single bare quote does not. When the record type has an id and no managed
   * package supplies the household, it is listed if and only if the listing is a query and the household meets what the Type
   * value added after the list, which is nothing when it has no closing parenthesis.
   */
  lemma HybridCleanNameIff(b: Bundle, m: Option<Mapping>, name: string, description: string,
                           fields: string, limit: nat, offset: nat)
    requires Describes(m, b) && |AtomsOf(b)| == 2 && DistinctRecordTypes(b) && Clean(NameValue(b))
    requires SelectList(fields) && Word(HouseholdObject(m))
    ensures Selected(m, fields, limit, offset, Created(b, m, name, description)) ==> After(Inside, TypeText(b)) == Inside
    ensures ManagedHousehold(b).None? && HouseholdRecordType(b).value.recordTypeId != "" ==>
            ListedAsFarAsAdded(m, TypeText(b), fields, limit, offset, Created(b, m, name, description))
  {
    ClassifiedPrintsPair(b, m);
    CleanNameReadable(m, NameValue(b), TypeText(b), fields, limit, offset);
    if ManagedHousehold(b).None? && HouseholdRecordType(b).value.recordTypeId != "" {
      ClassifiedFields(b, m, name, description);
      CleanNameDecides(m, NameValue(b), TypeText(b), fields, limit, offset, Created(b, m, name, description));
    }
  }

  // ---- a readable listing that misses its own household ----

  lemma ClosedTypeTerm(y: string, rest: string)
    requires Clean(y)
    ensures ParseTerm("(" + RawText(TypeAtom(y)) + ")" + rest) == Parsed(Equals("Type", y), rest)
  {
    DevNameIsWord();
    UnescapedIsItself(y);
    RawTermReads(TypeAtom(y), ")" + rest);
    ClosedChain(rest);
    ListTerm(RawText(TypeAtom(y)), rest);
    assert (")" + rest)[1..] == rest;
  }

  lemma SplitPairText(f1: string, v1: string, x: string, y: string)
    ensures "(" + (f1 + " = '" + v1 + "'" + " OR " + ("Type" + " = '" + (x + "') AND (Type = '" + y) + "'")) + ")"
         == "(" + (f1 + " = '" + v1 + "'" + " OR " + ("Type" + " = '" + x + "'")) + ")"
            + (" AND " + ("(" + ("Type" + " = '" + y + "'") + ")"))
  {
    Middle();
  }

  lemma Middle()
    ensures "') AND (Type = '" == "'" + ")" + " AND " + "(" + "Type" + " = '"
  {
    var s, t := "') AND (Type = '", "'" + ")" + " AND " + "(" + "Type" + " = '";
    assert |s| == |t|;
    forall i | 0 <= i < |s|
      ensures s[i] == t[i]
    {
    }
  }

  lemma ConjunctionParses(v1: string, x: string, y: string, rest: string)
    requires Clean(v1) && Clean(x) && Clean(y) && NextConnective(rest) == Neither
    ensures ParseCond(PairFilter(v1, x + "') AND (Type = '" + y) + rest) == Parsed(AllOf([PairCond(v1, x), Equals("Type", y)]), rest)
  {
    var second := "(" + RawText(TypeAtom(y)) + ")";
    JoinPair(NameAtom(v1), TypeAtom(x));
    JoinPair(NameAtom(v1), TypeAtom(x + "') AND (Type = '" + y));
    SplitPairText(DEV_NAME, v1, x, y);
    UnescapedIsItself(v1);
    UnescapedIsItself(x);
    PairParses(v1, x, " AND " + (second + rest));
    ClosedTypeTerm(y, rest);
    TermAndTerm(PairFilter(v1, x), PairCond(v1, x), second, Equals("Type", y), rest);
  }

  /**
   * Being a query is not enough: a Type value with bare quotes and parentheses can be read as one more condition, which a
   * record without a Type does not meet.
   */
  lemma ReadableIsNotEnough(m: Option<Mapping>, v1: string, x: string, y: string, fields: string, limit: nat,
                            offset: nat, r: Record)
    requires Clean(v1) && Clean(x) && Clean(y) && PrintsPair(m, v1, x + "') AND (Type = '" + y)
    requires "Type" !in r && SelectList(fields) && Word(HouseholdObject(m))
    ensures ParseQuery(ListHouseholds(m, fields, limit, offset)).Some? && !Selected(m, fields, limit, offset, r)
  {
    PageStart(limit, offset);
    ConjunctionParses(v1, x, y, PageText(limit, offset));
    FilterParses(m, PairFilter(v1, x + "') AND (Type = '" + y), AllOf([PairCond(v1, x), Equals("Type", y)]), fields, limit, offset);
    NotBoth(PairCond(v1, x), y, r);
  }

  lemma NotBoth(c: Cond, y: string, r: Record)
    requires "Type" !in r
    ensures !Eval(AllOf([c, Equals("Type", y)]), r)
  {
    var cs := [c, Equals("Type", y)];
    assert !Eval(cs[1], r);
  }

  lemma FilterParses(m: Option<Mapping>, filter: string, c: Cond, fields: string, limit: nat, offset: nat)
    requires HouseholdFilter(m) == filter != ""
    requires ParseCond(filter + PageText(limit, offset)) == Parsed(c, PageText(limit, offset))
    requires SelectList(fields) && Word(HouseholdObject(m))
    ensures ParseQuery(ListHouseholds(m, fields, limit, offset)) == Some(Query(fields, HouseholdObject(m), Some(c), limit, offset))
  {
    ListText(m, fields, limit, offset);
    ConditionParses(fields, HouseholdObject(m), filter, c, limit, offset);
  }

  // ---- a listing that lists more than the two values ----

  lemma WiderText(f1: string, v1: string, x: string, y: string)
    ensures f1 + " = '" + v1 + "'" + " OR " + ("Type" + " = '" + (x + "' OR Type = '" + y) + "'")
         == f1 + " = '" + v1 + "'" + " OR " + ("Type" + " = '" + x + "'" + " OR " + ("Type" + " = '" + y + "'"))
  {
    WiderMiddle();
  }

  lemma WiderMiddle()
    ensures "' OR Type = '" == "'" + " OR " + "Type" + " = '"
  {
    var s, t := "' OR Type = '", "'" + " OR " + "Type" + " = '";
    assert |s| == |t|;
    forall i | 0 <= i < |s|
      ensures s[i] == t[i]
    {
    }
  }

  lemma JoinThree(x: string, y: string, z: string)
    ensures Join([x, y, z], " OR ") == x + " OR " + (y + " OR " + z)
  {
    assert [x, y, z][1..] == [y, z] && [y, z][1..] == [z];
    assert Join([z], " OR ") == z && Join([y, z], " OR ") == y + " OR " + z;
  }

  lemma WiderParses(v1: string, x: string, y: string, rest: string)
    requires Clean(v1) && Clean(x) && Clean(y)
    ensures ParseTerm(PairFilter(v1, x + "' OR Type = '" + y) + rest)
         == Parsed(AnyOf([Equals(DEV_NAME, v1), Equals("Type", x), Equals("Type", y)]), rest)
  {
    var atoms := [NameAtom(v1), TypeAtom(x), TypeAtom(y)];
    DevNameIsWord();
    JoinPair(NameAtom(v1), TypeAtom(x + "' OR Type = '" + y));
    JoinThree(RawText(NameAtom(v1)), RawText(TypeAtom(x)), RawText(TypeAtom(y)));
    assert RawTexts(atoms) == [RawText(NameAtom(v1)), RawText(TypeAtom(x)), RawText(TypeAtom(y))];
    WiderText(DEV_NAME, v1, x, y);
    HybridParsesIffClean(atoms, rest);
    assert AtomConds(atoms) == [Equals(DEV_NAME, v1), Equals("Type", x), Equals("Type", y)];
  }

  /** A Type value with bare quotes can be read as two alternatives: the listing then also lists the second. */
  lemma BareQuotesListMore(m: Option<Mapping>, v1: string, x: string, y: string, fields: string, limit: nat, offset: nat, r: Record)
    requires Clean(v1) && Clean(x) && Clean(y) && PrintsPair(m, v1, x + "' OR Type = '" + y)
    requires Carries(r, "Type", y) && SelectList(fields) && Word(HouseholdObject(m))
    ensures Selected(m, fields, limit, offset, r)
  {
    var conds := [Equals(DEV_NAME, v1), Equals("Type", x), Equals("Type", y)];
    WiderParses(v1, x, y, PageText(limit, offset));
    TermThenPage(PairFilter(v1, x + "' OR Type = '" + y), AnyOf(conds), limit, offset);
    FilterParses(m, PairFilter(v1, x + "' OR Type = '" + y), AnyOf(conds), fields, limit, offset);
    LastHolds(conds, r);
  }

  lemma LastHolds(conds: seq<Cond>, r: Record)
    requires |conds| > 0 && Eval(conds[|conds| - 1], r)
    ensures Eval(AnyOf(conds), r)
  {
  }
}
