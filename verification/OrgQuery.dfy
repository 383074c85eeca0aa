/** The schema-aware query builder: household filters, whole queries and new records printed from the cached mapping. */
module OrgQuery {
  import opened Text
  import opened SoqlLiteral
  import opened SoqlQuery
  import opened OrgMapping

  // ---- the builders ----

  predicate IsAccountPattern(p: HouseholdPattern) {
    p.filter != "" && p.kind != CustomObject && p.kind != ManagedPackage
  }

  function AccountPatterns(ps: seq<HouseholdPattern>): (r: seq<HouseholdPattern>)
    ensures |r| <= |ps|
    ensures forall i :: 0 <= i < |r| ==> r[i] in ps && IsAccountPattern(r[i])
  {
    if ps == [] then []
    else if IsAccountPattern(ps[0]) then [ps[0]] + AccountPatterns(ps[1..])
    else AccountPatterns(ps[1..])
  }

  function Filters(ps: seq<HouseholdPattern>): (fs: seq<string>)
    ensures |fs| == |ps| && forall i :: 0 <= i < |fs| ==> fs[i] == ps[i].filter
  {
    seq(|ps|, i requires 0 <= i < |ps| => ps[i].filter)
  }

  /** `/^[a-zA-Z_][a-zA-Z0-9_.]*$/` */
  predicate SafeField(f: string) {
    f != "" && (forall i :: 0 <= i < |f| ==> IsWordChar(f[i])) && f[0] != '.' && !IsDigit(f[0])
  }

  const DEV_NAME := "RecordType.DeveloperName"

  function HouseholdObject(m: Option<Mapping>): string {
    if m.Some? && m.value.household.objectName != "" then m.value.household.objectName else "Account"
  }

  function HouseholdFilter(m: Option<Mapping>): string {
    if m.None? then "Type = 'Household'" else
    var ps := AccountPatterns(m.value.patterns);
    if |ps| > 1 then "(" + Join(Filters(ps), " OR ") + ")" else
    var hh := m.value.household;
    if Truthy(hh.recordTypeDeveloperName) then
      EqualsText(DEV_NAME, Sanitize(hh.recordTypeDeveloperName.value))
    else if Truthy(hh.filterField) && Truthy(hh.filterValue) then
      EqualsText(if SafeField(hh.filterField.value) then hh.filterField.value else "Type", Sanitize(hh.filterValue.value))
    else ""
  }

  const ORDER_TEXT := " ORDER BY CreatedDate DESC LIMIT "

  function PageText(limit: nat, offset: nat): string {
    ORDER_TEXT + Decimal(limit) + (if offset != 0 then " OFFSET " + Decimal(offset) else "")
  }

  function ListHouseholds(m: Option<Mapping>, fields: string, limit: nat, offset: nat): string {
    var filter := HouseholdFilter(m);
    "SELECT " + fields + " FROM " + HouseholdObject(m)
    + (if filter != "" then " WHERE " + filter else "") + PageText(limit, offset)
  }

  function NameClause(nameQuery: string): string {
    LikeText("Name", "%" + Sanitize(nameQuery) + "%")
  }

  function SearchHouseholds(m: Option<Mapping>, fields: string, nameQuery: string, limit: nat, offset: nat): string {
    var filter := HouseholdFilter(m);
    "SELECT " + fields + " FROM " + HouseholdObject(m) + " "
    + (if filter != "" then "WHERE " + filter + " AND " + NameClause(nameQuery) else "WHERE " + NameClause(nameQuery))
    + PageText(limit, offset)
  }

  function HouseholdTypeValue(m: Option<Mapping>): Option<string> {
    if m.None? then Some("Household")
    else if m.value.household.filterField == Some("Type") && Truthy(m.value.household.filterValue) then
      m.value.household.filterValue
    else None
  }

  function HouseholdRecordTypeId(m: Option<Mapping>): Option<string> {
    if m.Some? && Truthy(m.value.household.recordTypeId) then m.value.household.recordTypeId else None
  }

  /** The fields written for a new household. */
  function NewHouseholdFields(m: Option<Mapping>, name: string, description: string): Record {
    var fields := map["Name" := name, "Description" := description];
    var t := HouseholdTypeValue(m);
    var withType := if t.Some? then fields["Type" := t.value] else fields;
    var rt := HouseholdRecordTypeId(m);
    if rt.Some? then withType["RecordTypeId" := rt.value] else withType
  }

  /** Listing and search both end with the newest first, the limit, and the offset unless it is zero. */
  lemma NewestFirst(m: Option<Mapping>, fields: string, nameQuery: string, limit: nat, offset: nat)
    returns (listed: string, searched: string)
    ensures var page := " ORDER BY CreatedDate DESC LIMIT " + Decimal(limit) + (if offset != 0 then " OFFSET " + Decimal(offset) else "");
            ListHouseholds(m, fields, limit, offset) == listed + page &&
            SearchHouseholds(m, fields, nameQuery, limit, offset) == searched + page
  {
    var filter := HouseholdFilter(m);
    listed := "SELECT " + fields + " FROM " + HouseholdObject(m) + (if filter != "" then " WHERE " + filter else "");
    searched := "SELECT " + fields + " FROM " + HouseholdObject(m) + " "
      + (if filter != "" then "WHERE " + filter + " AND " + NameClause(nameQuery) else "WHERE " + NameClause(nameQuery));
  }

  // ---- parsing whole queries ----

  datatype Query = Query(fields: string, objectName: string, where: Option<Cond>, limit: nat, offset: nat)

  datatype Page = NoPage | Page(limit: nat, offset: nat)

  predicate IsNumeral(s: string) {
    s != "" && forall c :: c in s ==> IsDigit(c)
  }

  function ParsePage(s: string): Page {
    if !(ORDER_TEXT <= s) then NoPage else
    var t := s[|ORDER_TEXT|..];
    var d := ReadWord(t);
    var r := t[|d|..];
    if !IsNumeral(d) then NoPage
    else if r == "" then Page(ParseNat(d), 0)
    else if " OFFSET " <= r && IsNumeral(r[8..]) then Page(ParseNat(d), ParseNat(r[8..]))
    else NoPage
  }

  function WithPage(fields: string, obj: string, c: Option<Cond>, p: Page): Option<Query> {
    match p
    case NoPage => None
    case Page(limit, offset) => Some(Query(fields, obj, c, limit, offset))
  }

  /** The part of a query after the object name. */
  function ParseConditions(fields: string, obj: string, s: string): Option<Query> {
    if " WHERE " <= s then
      match ParseCond(s[7..])
      case Failed => None
      case Parsed(c, rest) => WithPage(fields, obj, Some(c), ParsePage(rest))
    else WithPage(fields, obj, None, ParsePage(s))
  }

  function ParseQuery(s: string): Option<Query> {
    if !("SELECT " <= s) then None else
    var from := IndexOf(s[7..], " FROM ");
    if from.None? then None else
    var t := s[7..][from.value + 6..];
    var obj := ReadWord(t);
    if obj == "" then None else ParseConditions(s[7..][..from.value], obj, t[|obj|..])
  }

  /** A select list whose end is where the printed FROM says it is. */
  predicate SelectList(fields: string) {
    !Includes(fields + " FROM", " FROM ")
  }

  lemma DecimalIsWord(n: nat)
    ensures Word(Decimal(n)) && IsNumeral(Decimal(n))
  {
    var d := Decimal(n);
    forall i | 0 <= i < |d|
      ensures IsWordChar(d[i])
    {
      assert d[i] in d;
    }
  }

  /** A page text whose limit is a numeral followed by nothing or by an OFFSET. */
  lemma PageReads(d: string, r: string)
    requires Word(d) && IsNumeral(d) && StartsNoWord(r)
    ensures ParsePage(ORDER_TEXT + (d + r)) ==
            if r == "" then Page(ParseNat(d), 0)
            else if " OFFSET " <= r && IsNumeral(r[8..]) then Page(ParseNat(d), ParseNat(r[8..]))
            else NoPage
  {
    assert (ORDER_TEXT + (d + r))[|ORDER_TEXT|..] == d + r;
    ReadWordIs(d, r);
    assert (d + r)[|d|..] == r;
  }

  lemma PageParses(limit: nat, offset: nat)
    ensures ParsePage(PageText(limit, offset)) == Page(limit, offset)
  {
    var d := Decimal(limit);
    var r := if offset != 0 then " OFFSET " + Decimal(offset) else "";
    assert PageText(limit, offset) == ORDER_TEXT + (d + r);
    DecimalIsWord(limit);
    PageReads(d, r);
    ParseDecimal(limit);
    if offset != 0 {
      assert r[8..] == Decimal(offset);
      DecimalIsWord(offset);
      ParseDecimal(offset);
    }
  }

  lemma FromAt(fields: string, t: string)
    requires SelectList(fields)
    ensures IndexOf(fields + " FROM " + t, " FROM ") == Some(|fields|)
  {
    var s := fields + " FROM " + t;
    forall j | 0 <= j < |fields|
      ensures !(" FROM " <= s[j..])
    {
      if " FROM " <= s[j..] {
        var u := fields + " FROM";
        assert u[j..][..6] == s[j..][..6];
        IncludesAt(u, " FROM ", j);
      }
    }
    assert s[|fields|..] == " FROM " + t;
    IndexOfIs(s, " FROM ", |fields|);
  }

  lemma OrderWords()
    ensures ORDER_TEXT == " ORDER" + (" " + "BY CreatedDate DESC LIMIT ")
  {
    var t := " ORDER" + (" " + "BY CreatedDate DESC LIMIT ");
    assert |t| == |ORDER_TEXT|;
    forall i | 0 <= i < |t|
      ensures t[i] == ORDER_TEXT[i]
    {
    }
  }

  lemma Regroup(s: string, a: string, b: string, c: string, d: string, e: string)
    requires s == a + (b + c)
    ensures s + d + e == a + (b + (c + d + e))
  {
  }

  lemma PageWords(limit: nat, offset: nat) returns (u: string)
    ensures PageText(limit, offset) == " ORDER" + (" " + u)
  {
    var words, d, o := "BY CreatedDate DESC LIMIT ", Decimal(limit), if offset != 0 then " OFFSET " + Decimal(offset) else "";
    OrderWords();
    Regroup(ORDER_TEXT, " ORDER", " ", words, d, o);
    u := words + d + o;
  }

  /** The page text begins with ORDER: it continues no chain of connectives and is no WHERE. */
  lemma PageStart(limit: nat, offset: nat)
    ensures var s := PageText(limit, offset);
            StartsNoWord(s) && !(" WHERE " <= s) && NextConnective(s) == Neither
  {
    var u := PageWords(limit, offset);
    OrderStart(u);
    OrderAhead(u);
  }

  lemma OrderStart(u: string)
    ensures var s := " ORDER" + (" " + u); StartsNoWord(s) && !(" WHERE " <= s)
  {
    assert (" ORDER" + (" " + u))[1] == 'O';
  }

  lemma HeadParses(fields: string, obj: string, t: string)
    requires SelectList(fields) && Word(obj) && StartsNoWord(t)
    ensures ParseQuery("SELECT " + fields + " FROM " + (obj + t)) == ParseConditions(fields, obj, t)
  {
    var s := "SELECT " + fields + " FROM " + (obj + t);
    var u := fields + " FROM " + (obj + t);
    assert s == "SELECT " + u && s[7..] == u;
    FromAt(fields, obj + t);
    assert u[|fields| + 6..] == obj + t && u[..|fields|] == fields;
    ReadWordIs(obj, t);
    assert (obj + t)[|obj|..] == t;
  }

  lemma WhereStep(fields: string, obj: string, u: string)
    ensures ParseConditions(fields, obj, " WHERE " + u) ==
            match ParseCond(u)
            case Failed => None
            case Parsed(c, rest) => WithPage(fields, obj, Some(c), ParsePage(rest))
  {
    assert (" WHERE " + u)[7..] == u;
  }

  /** A WHERE text followed by the page is read as the condition it parses to. */
  lemma WhereParses(fields: string, obj: string, t: string, c: Cond, limit: nat, offset: nat)
    requires ParseCond(t + PageText(limit, offset)) == Parsed(c, PageText(limit, offset))
    ensures ParseConditions(fields, obj, " WHERE " + t + PageText(limit, offset)) == Some(Query(fields, obj, Some(c), limit, offset))
  {
    var page := PageText(limit, offset);
    assert " WHERE " + t + page == " WHERE " + (t + page);
    WhereStep(fields, obj, t + page);
    PageParses(limit, offset);
  }

  lemma WhereReads(fields: string, obj: string, u: string, c: Cond, limit: nat, offset: nat)
    requires ParseConditions(fields, obj, " WHERE " + u) == Some(Query(fields, obj, Some(c), limit, offset))
    ensures ParsesAs(ParseCond(u), c)
  {
    WhereStep(fields, obj, u);
  }

  lemma TermThenPage(f: string, c: Cond, limit: nat, offset: nat)
    requires ParseTerm(f + PageText(limit, offset)) == Parsed(c, PageText(limit, offset))
    ensures ParseCond(f + PageText(limit, offset)) == Parsed(c, PageText(limit, offset))
  {
    PageStart(limit, offset);
  }

  lemma AndText(f: string, g: string, rest: string)
    ensures f + (" AND " + g) + rest == f + (" AND " + (g + rest))
  {
  }

  lemma ChainFromTerm(s: string, c: Cond, more: string)
    requires ParseTerm(s) == Parsed(c, more) && NextConnective(more) != Neither
    ensures ParseCond(s) == ParseChain(NextConnective(more), [c], more)
  {
  }

  /** A term, AND, and a last term: the conjunction of the two, whatever the first is made of. */
  lemma TermAndTerm(f: string, c: Cond, g: string, d: Cond, rest: string)
    requires NextConnective(rest) == Neither
    requires ParseTerm(f + (" AND " + (g + rest))) == Parsed(c, " AND " + (g + rest))
    requires ParseTerm(g + rest) == Parsed(d, rest)
    ensures ParseCond(f + (" AND " + g) + rest) == Parsed(AllOf([c, d]), rest)
  {
    var more := " AND " + (g + rest);
    AndText(f, g, rest);
    AndAhead(g + rest);
    ChainFromTerm(f + more, c, more);
    LastOfChain([c], g + rest, d, rest);
    assert [c] + [d] == [c, d];
  }

  lemma LastOfChain(acc: seq<Cond>, g: string, d: Cond, rest: string)
    requires NextConnective(rest) == Neither
    requires NextConnective(" AND " + g) == And
    requires ParseTerm(AfterConnective(" AND " + g)) == Parsed(d, rest)
    ensures ParseChain(And, acc, " AND " + g) == Parsed(AllOf(acc + [d]), rest)
  {
  }

  /** A chain is read as `target` only if its first term is read as the first member of `target`. */
  lemma TermNotHead(s: string, target: Cond)
    requires (target.AnyOf? || target.AllOf?) && target.conds != []
    requires var p := ParseTerm(s); p.Parsed? ==> p.cond != target.conds[0] && p.cond != target
    ensures !ParsesAs(ParseCond(s), target)
  {
    var p := ParseTerm(s);
    if p.Parsed? && NextConnective(p.rest) != Neither {
      ChainKeepsPrefix(NextConnective(p.rest), [p.cond], p.rest);
    }
  }

  lemma NoWhereParses(fields: string, obj: string, limit: nat, offset: nat)
    ensures ParseConditions(fields, obj, PageText(limit, offset)) == Some(Query(fields, obj, None, limit, offset))
  {
    PageParses(limit, offset);
    PageStart(limit, offset);
  }

  // ---- the filter is one term of the grammar ----

  datatype Atom = Atom(field: string, value: string)

  function RawText(a: Atom): string {
    EqualsText(a.field, a.value)
  }

  function RawTexts(atoms: seq<Atom>): (ts: seq<string>)
    ensures |ts| == |atoms| && forall i :: 0 <= i < |ts| ==> ts[i] == RawText(atoms[i])
  {
    seq(|atoms|, i requires 0 <= i < |atoms| => RawText(atoms[i]))
  }

  function AtomConds(atoms: seq<Atom>): (cs: seq<Cond>)
    ensures |cs| == |atoms| && forall i :: 0 <= i < |cs| ==> cs[i] == Equals(atoms[i].field, atoms[i].value)
  {
    seq(|atoms|, i requires 0 <= i < |atoms| => Equals(atoms[i].field, atoms[i].value))
  }

  predicate WordFields(atoms: seq<Atom>) {
    forall i :: 0 <= i < |atoms| ==> Word(atoms[i].field)
  }

  predicate AllClean(atoms: seq<Atom>) {
    forall i :: 0 <= i < |atoms| ==> Clean(atoms[i].value)
  }

  /** Parses as the condition `c`, leaving `rest`. */
  predicate ParsesAs(p: Parse, c: Cond) {
    p.Parsed? && p.cond == c
  }

  /** An equality, or a chain whose first member is one. */
  predicate BeginsWithEquals(c: Cond) {
    match c
    case Equals(_, _) => true
    case Like(_, _) => false
    case AnyOf(cs) => cs != [] && cs[0].Equals?
    case AllOf(cs) => cs != [] && cs[0].Equals?
  }

  lemma RawTermIffClean(a: Atom, rest: string)
    requires Word(a.field)
    ensures Clean(a.value) ==> ParseTerm(RawText(a) + rest) == Parsed(Equals(a.field, a.value), rest)
    ensures ParsesAs(ParseTerm(RawText(a) + rest), Equals(a.field, a.value)) <==> Clean(a.value)
    ensures ParseTerm(RawText(a) + rest).Parsed? ==> ParseTerm(RawText(a) + rest).cond.Equals?
  {
    ParseEquals(a.field, a.value, rest);
    RawReadsBackIffClean(a.value, rest);
  }

  lemma ChainKeepsPrefix(op: Connective, acc: seq<Cond>, s: string)
    requires op != Neither
    ensures var p := ParseChain(op, acc, s);
            p.Parsed? ==> (p.cond.AnyOf? || p.cond.AllOf?) && acc <= p.cond.conds
    decreases |s|
  {
    if NextConnective(s) == op {
      var q := ParseTerm(AfterConnective(s));
      if q.Parsed? {
        ChainKeepsPrefix(op, acc + [q.cond], q.rest);
      }
    }
  }

  function OrText(atoms: seq<Atom>, rest: string): string {
    Join(RawTexts(atoms), " OR ") + (")" + rest)
  }

  lemma OrTextHead(atoms: seq<Atom>, rest: string)
    requires |atoms| >= 1
    ensures OrText(atoms, rest)
         == RawText(atoms[0]) + MoreText(atoms, rest)
  {
    assert RawTexts(atoms)[1..] == RawTexts(atoms[1..]);
  }

  lemma ClosedChain(rest: string)
    ensures NextConnective(")" + rest) == Neither && SkipSpaces(")" + rest) == ")" + rest
  {
  }

  lemma AllCleanTail(atoms: seq<Atom>)
    requires |atoms| >= 1
    ensures AllClean(atoms) <==> Clean(atoms[0].value) && AllClean(atoms[1..])
  {
    assert forall i :: 0 < i < |atoms| ==> atoms[i] == atoms[1..][i - 1];
  }

  /** What follows the first atom of a list inside the parentheses. */
  function MoreText(atoms: seq<Atom>, rest: string): string
    requires |atoms| >= 1
  {
    if |atoms| == 1 then ")" + rest else " OR " + OrText(atoms[1..], rest)
  }

  lemma ChainStep(acc: seq<Cond>, atoms: seq<Atom>, rest: string)
    requires |atoms| >= 1 && WordFields(atoms)
    ensures var p := ParseTerm(RawText(atoms[0]) + MoreText(atoms, rest));
            ParseChain(Or, acc, " OR " + OrText(atoms, rest))
            == if p.Failed? then Failed else ParseChain(Or, acc + [p.cond], p.rest)
  {
    OrTextHead(atoms, rest);
    OrAhead(OrText(atoms, rest));
  }

  /** A clean value is taken off the front of the list. */
  lemma CleanStep(acc: seq<Cond>, atoms: seq<Atom>, rest: string)
    requires |atoms| >= 1 && WordFields(atoms) && Clean(atoms[0].value)
    ensures ParseChain(Or, acc, " OR " + OrText(atoms, rest)) ==
            ParseChain(Or, acc + [Equals(atoms[0].field, atoms[0].value)], MoreText(atoms, rest))
  {
    ChainStep(acc, atoms, rest);
    RawTermIffClean(atoms[0], MoreText(atoms, rest));
  }

  lemma ClosedChainParses(acc: seq<Cond>, rest: string)
    ensures ParseChain(Or, acc, ")" + rest) == Parsed(AnyOf(acc), ")" + rest)
  {
    ClosedChain(rest);
  }

  lemma CondsShift(acc: seq<Cond>, atoms: seq<Atom>)
    requires |atoms| >= 1
    ensures acc + [Equals(atoms[0].field, atoms[0].value)] + AtomConds(atoms[1..]) == acc + AtomConds(atoms)
  {
  }

  lemma HeadCond(atoms: seq<Atom>)
    requires |atoms| >= 1
    ensures [Equals(atoms[0].field, atoms[0].value)] + AtomConds(atoms[1..]) == AtomConds(atoms)
  {
  }

  lemma WordFieldsTail(atoms: seq<Atom>)
    requires |atoms| >= 1 && WordFields(atoms)
    ensures WordFields(atoms[1..])
  {
  }

  lemma {:induction false} CleanChainParses(acc: seq<Cond>, atoms: seq<Atom>, rest: string)
    requires |atoms| >= 1 && WordFields(atoms) && AllClean(atoms)
    ensures ParseChain(Or, acc, " OR " + OrText(atoms, rest)) == Parsed(AnyOf(acc + AtomConds(atoms)), ")" + rest)
    decreases |atoms|
  {
    var next := acc + [Equals(atoms[0].field, atoms[0].value)];
    CleanStep(acc, atoms, rest);
    CondsShift(acc, atoms);
    AllCleanTail(atoms);
    WordFieldsTail(atoms);
    if |atoms| > 1 {
      CleanChainParses(next, atoms[1..], rest);
    } else {
      ClosedChainParses(next, rest);
      assert next == acc + AtomConds(atoms);
    }
  }

  /** An unclean value at the front is not read as its condition, so the list is not either. */
  lemma UncleanStep(acc: seq<Cond>, atoms: seq<Atom>, rest: string)
    requires |atoms| >= 1 && WordFields(atoms) && !Clean(atoms[0].value)
    ensures !ParsesAs(ParseChain(Or, acc, " OR " + OrText(atoms, rest)), AnyOf(acc + AtomConds(atoms)))
  {
    ChainStep(acc, atoms, rest);
    RawTermIffClean(atoms[0], MoreText(atoms, rest));
    var p := ParseTerm(RawText(atoms[0]) + MoreText(atoms, rest));
    if p.Parsed? {
      ChainKeepsPrefix(Or, acc + [p.cond], p.rest);
      assert (acc + [p.cond])[|acc|] != (acc + AtomConds(atoms))[|acc|];
    }
  }

  lemma {:induction false} UncleanChainFails(acc: seq<Cond>, atoms: seq<Atom>, rest: string)
    requires |atoms| >= 1 && WordFields(atoms) && !AllClean(atoms)
    ensures !ParsesAs(ParseChain(Or, acc, " OR " + OrText(atoms, rest)), AnyOf(acc + AtomConds(atoms)))
    decreases |atoms|
  {
    AllCleanTail(atoms);
    WordFieldsTail(atoms);
    if Clean(atoms[0].value) {
      CleanStep(acc, atoms, rest);
      CondsShift(acc, atoms);
      UncleanChainFails(acc + [Equals(atoms[0].field, atoms[0].value)], atoms[1..], rest);
    } else {
      UncleanStep(acc, atoms, rest);
    }
  }

  /**
   * Two or more patterns interpolated raw, joined by OR and parenthesised, parse back to their disjunction
   * if and only if no value has a quote or a backslash; and then whatever follows is left untouched.
   */
  lemma HybridParsesIffClean(atoms: seq<Atom>, rest: string)
    requires |atoms| >= 2 && WordFields(atoms)
    ensures var p := ParseTerm("(" + Join(RawTexts(atoms), " OR ") + ")" + rest);
            (AllClean(atoms) ==> p == Parsed(AnyOf(AtomConds(atoms)), rest)) &&
            (ParsesAs(p, AnyOf(AtomConds(atoms))) <==> AllClean(atoms)) &&
            (p.Parsed? ==> BeginsWithEquals(p.cond) && p.cond != AtomConds(atoms)[0])
  {
    var s := "(" + Join(RawTexts(atoms), " OR ") + ")" + rest;
    var body := OrText(atoms, rest);
    assert s == "(" + body && s[1..] == body && SkipSpaces(s) == s;
    HybridBodyIffClean(atoms, rest);
    ClosedChain(rest);
    assert (")" + rest)[1..] == rest;
  }

  /** What the text of a list of conditions is read as, up to the text `rest`. */
  predicate ListOutcome(p: Parse, conds: seq<Cond>, clean: bool, rest: string)
    requires conds != []
  {
    && (clean ==> p == Parsed(AnyOf(conds), rest))
    && (ParsesAs(p, AnyOf(conds)) ==> clean)
    && (p.Parsed? ==> BeginsWithEquals(p.cond) && p.cond != conds[0])
  }

  lemma HybridBodyIffClean(atoms: seq<Atom>, rest: string)
    requires |atoms| >= 2 && WordFields(atoms)
    ensures ListOutcome(ParseCond(OrText(atoms, rest)), AtomConds(atoms), AllClean(atoms), ")" + rest)
  {
    AllCleanTail(atoms);
    if Clean(atoms[0].value) {
      CleanHeadOutcome(atoms, rest);
    } else {
      OrTextHead(atoms, rest);
      RawTermIffClean(atoms[0], MoreText(atoms, rest));
      if ParseTerm(OrText(atoms, rest)).Parsed? {
        UncleanHead(OrText(atoms, rest), AtomConds(atoms));
      }
    }
  }

  /** After a clean first value the list is a chain that starts with its condition. */
  lemma CleanHeadChain(atoms: seq<Atom>, rest: string)
    requires |atoms| >= 2 && WordFields(atoms) && Clean(atoms[0].value)
    ensures ParseCond(OrText(atoms, rest)) ==
            ParseChain(Or, [Equals(atoms[0].field, atoms[0].value)], " OR " + OrText(atoms[1..], rest))
  {
    OrTextHead(atoms, rest);
    RawTermIffClean(atoms[0], MoreText(atoms, rest));
    OrAhead(OrText(atoms[1..], rest));
    ChainFromTerm(OrText(atoms, rest), Equals(atoms[0].field, atoms[0].value), MoreText(atoms, rest));
  }

  lemma CleanHeadOutcome(atoms: seq<Atom>, rest: string)
    requires |atoms| >= 2 && WordFields(atoms) && Clean(atoms[0].value)
    ensures ListOutcome(ParseCond(OrText(atoms, rest)), AtomConds(atoms), AllClean(atoms[1..]), ")" + rest)
  {
    var c, tail := Equals(atoms[0].field, atoms[0].value), " OR " + OrText(atoms[1..], rest);
    CleanHeadChain(atoms, rest);
    ChainKeepsPrefix(Or, [c], tail);
    HeadCond(atoms);
    WordFieldsTail(atoms);
    if AllClean(atoms[1..]) {
      CleanChainParses([c], atoms[1..], rest);
    } else {
      UncleanChainFails([c], atoms[1..], rest);
    }
  }

  lemma UncleanHead(body: string, conds: seq<Cond>)
    requires conds != [] && ParseTerm(body).Parsed? && ParseTerm(body).cond != conds[0]
    requires ParseTerm(body).cond.Equals?
    ensures !ParsesAs(ParseCond(body), AnyOf(conds))
    ensures var q := ParseCond(body); q.Parsed? ==> BeginsWithEquals(q.cond) && (conds[0].Equals? ==> q.cond != conds[0])
  {
    var p := ParseTerm(body);
    var op := NextConnective(p.rest);
    if op != Neither {
      ChainKeepsPrefix(op, [p.cond], p.rest);
    }
  }
}
