/** What the printed household queries mean, for every mapping and every search text. */
module OrgQueryMeaning {
  import opened Text
  import opened SoqlLiteral
  import opened SoqlQuery
  import opened OrgMapping
  import opened OrgQuery

  // ---- the intended condition of a mapping ----

  predicate Hybrid(m: Option<Mapping>) {
    m.Some? && |AccountPatterns(m.value.patterns)| > 1
  }

  /** The account patterns are equalities printed raw from these fields and values. */
  predicate PatternsArePrinted(m: Option<Mapping>, atoms: seq<Atom>) {
    Hybrid(m) ==> WordFields(atoms) && Filters(AccountPatterns(m.value.patterns)) == RawTexts(atoms)
  }

  /** The field and value of the equality printed when there is no hybrid filter, or None. */
  function SingleAtom(m: Option<Mapping>): Option<Atom> {
    if m.None? then Some(Atom("Type", "Household")) else
    var hh := m.value.household;
    if Truthy(hh.recordTypeDeveloperName) then Some(Atom(DEV_NAME, hh.recordTypeDeveloperName.value))
    else if Truthy(hh.filterField) && Truthy(hh.filterValue) then
      Some(Atom(if SafeField(hh.filterField.value) then hh.filterField.value else "Type", hh.filterValue.value))
    else None
  }

  /** What survives of a value in a sanitized literal. */
  function Denoted(v: string): string {
    StripControl(Kept(v, MAX_LITERAL))
  }

  /** Computable from the mapping: no raw value needs escaping, no sanitized value is cut inside an escape. */
  predicate Printable(m: Option<Mapping>, atoms: seq<Atom>) {
    if Hybrid(m) then AllClean(atoms)
    else SingleAtom(m).Some? ==> !Dangles(SingleAtom(m).value.value, MAX_LITERAL)
  }

  function FilterCond(m: Option<Mapping>, atoms: seq<Atom>): Option<Cond> {
    if Hybrid(m) then Some(AnyOf(AtomConds(atoms)))
    else match SingleAtom(m)
      case None => None
      case Some(a) => Some(Equals(a.field, Denoted(a.value)))
  }

  lemma HouseholdLiteral()
    ensures Sanitize("Household") == "Household" && Denoted("Household") == "Household"
    ensures !Dangles("Household", MAX_LITERAL)
  {
    PlainEscape("Household", "");
    assert "Household" + "" == "Household";
    SanitizeShape("Household");
    StripPlain("Household");
  }

  lemma {:induction false} StripPlain(s: string)
    requires forall i :: 0 <= i < |s| ==> !IsControl(s[i])
    ensures StripControl(s) == s
  {
    if s != "" {
      StripPlain(s[1..]);
      assert s == [s[0]] + s[1..];
    }
  }

  lemma DevNameIsWord()
    ensures Word(DEV_NAME) && Word("Type")
  {
    assert Word("RecordType");
    assert Word(".DeveloperName");
    assert DEV_NAME == "RecordType" + ".DeveloperName";
  }

  lemma SingleFilterText(m: Option<Mapping>)
    requires !Hybrid(m)
    ensures match SingleAtom(m)
            case None => HouseholdFilter(m) == ""
            case Some(a) => Word(a.field) && HouseholdFilter(m) == EqualsText(a.field, Sanitize(a.value))
  {
    DevNameIsWord();
    if m.None? {
      DefaultFilterText();
    }
  }

  lemma DefaultFilterText()
    ensures EqualsText("Type", Sanitize("Household")) == "Type = 'Household'"
  {
    HouseholdLiteral();
    DemoFilterText();
  }

  lemma DemoFilterText()
    ensures "Type" + " = '" + "Household" + "'" == "Type = 'Household'"
  {
    var s, t := "Type" + " = '" + "Household" + "'", "Type = 'Household'";
    assert |s| == |t|;
    forall i | 0 <= i < |t|
      ensures s[i] == t[i]
    {
    }
  }

  /** A sanitized equality is read as the surviving value whenever its literal closes. */
  lemma SanitizedTerm(a: Atom, rest: string)
    requires Word(a.field) && !Dangles(a.value, MAX_LITERAL)
    ensures ParseTerm(EqualsText(a.field, Sanitize(a.value)) + rest) == Parsed(Equals(a.field, Denoted(a.value)), rest)
  {
    ParseEquals(a.field, Sanitize(a.value), rest);
    SanitizedReads(a.value, rest);
  }

  lemma SanitizedTermIff(a: Atom, rest: string)
    requires Word(a.field)
    ensures var p := ParseTerm(EqualsText(a.field, Sanitize(a.value)) + rest);
            && (ParsesAs(p, Equals(a.field, Denoted(a.value))) <==> !Dangles(a.value, MAX_LITERAL))
            && (p.Parsed? ==> p.cond.Equals?)
  {
    ParseEquals(a.field, Sanitize(a.value), rest);
    ClosesIffNotDangling(a.value, rest);
  }

  /**
   * The filter is a single term of the grammar: nothing printed after it can change how it is read. It is read as the
   * intended condition if and only if the mapping is printable, whatever follows.
   */
  lemma FilterIsTerm(m: Option<Mapping>, atoms: seq<Atom>, rest: string)
    requires PatternsArePrinted(m, atoms) && FilterCond(m, atoms).Some?
    ensures HouseholdFilter(m) != ""
    ensures var p, c := ParseTerm(HouseholdFilter(m) + rest), FilterCond(m, atoms).value;
            && (Printable(m, atoms) ==> p == Parsed(c, rest))
            && (ParsesAs(p, c) <==> Printable(m, atoms))
            && (p.Parsed? ==> if Hybrid(m) then BeginsWithEquals(p.cond) else p.cond.Equals?)
  {
    if Hybrid(m) {
      HybridParsesIffClean(atoms, rest);
    } else {
      SingleFilterText(m);
      SanitizedTermIff(SingleAtom(m).value, rest);
      if Printable(m, atoms) {
        SanitizedTerm(SingleAtom(m).value, rest);
      }
    }
  }

  lemma NotAlone(s: string, target: Cond)
    requires target.Equals? && !ParsesAs(ParseTerm(s), target)
    ensures !ParsesAs(ParseCond(s), target)
  {
    var p := ParseTerm(s);
    if p.Parsed? && NextConnective(p.rest) != Neither {
      ChainKeepsPrefix(NextConnective(p.rest), [p.cond], p.rest);
    }
  }

  /** An unprintable filter spoils the condition it starts, alone or with a name clause after it. */
  lemma UnprintableWhere(m: Option<Mapping>, atoms: seq<Atom>, more: string, d: Cond)
    requires PatternsArePrinted(m, atoms) && !Printable(m, atoms)
    ensures FilterCond(m, atoms).Some?
    ensures !ParsesAs(ParseCond(HouseholdFilter(m) + more), FilterCond(m, atoms).value)
    ensures !ParsesAs(ParseCond(HouseholdFilter(m) + more), AllOf([FilterCond(m, atoms).value, d]))
  {
    var s, c := HouseholdFilter(m) + more, FilterCond(m, atoms).value;
    FilterIsTerm(m, atoms, more);
    BadTermSpoils(s, c, d);
    if Hybrid(m) {
      HybridParsesIffClean(atoms, more);
      TermNotHead(s, c);
    } else {
      NotAlone(s, c);
    }
  }

  /** A first term that is not read as the first condition of a conjunction spoils the conjunction. */
  lemma BadTermSpoils(s: string, c: Cond, d: Cond)
    requires !ParsesAs(ParseTerm(s), c)
    requires var p := ParseTerm(s); p.Parsed? ==> p.cond.Equals? || (c.AnyOf? && BeginsWithEquals(p.cond))
    ensures !ParsesAs(ParseCond(s), AllOf([c, d]))
  {
    assert c.AnyOf? ==> !BeginsWithEquals(AllOf([c, d]));
    TermNotHead(s, AllOf([c, d]));
  }

  // ---- listing ----

  lemma ListText(m: Option<Mapping>, fields: string, limit: nat, offset: nat)
    ensures ListHouseholds(m, fields, limit, offset)
         == "SELECT " + fields + " FROM "
          + (HouseholdObject(m)
             + (if HouseholdFilter(m) != "" then " WHERE " + HouseholdFilter(m) + PageText(limit, offset) else PageText(limit, offset)))
  {
    ListTextOf("SELECT " + fields + " FROM ", HouseholdObject(m), HouseholdFilter(m), PageText(limit, offset));
  }

  lemma ListTextOf(head: string, obj: string, filter: string, page: string)
    ensures head + obj + (if filter != "" then " WHERE " + filter else "") + page
         == head + (obj + (if filter != "" then " WHERE " + filter + page else page))
  {
  }

  /** A text that parses to a condition before the page, printed into a query, is the query's condition. */
  lemma ConditionParses(fields: string, obj: string, t: string, c: Cond, limit: nat, offset: nat)
    requires SelectList(fields) && Word(obj)
    requires ParseCond(t + PageText(limit, offset)) == Parsed(c, PageText(limit, offset))
    ensures ParseQuery("SELECT " + fields + " FROM " + (obj + (" WHERE " + t + PageText(limit, offset))))
         == Some(Query(fields, obj, Some(c), limit, offset))
  {
    WhereParses(fields, obj, t, c, limit, offset);
    HeadParses(fields, obj, " WHERE " + t + PageText(limit, offset));
  }

  /** A filter that is one term, printed into a list query, is the query's condition. */
  lemma FilteredListParses(fields: string, obj: string, filter: string, c: Cond, limit: nat, offset: nat)
    requires SelectList(fields) && Word(obj)
    requires ParseTerm(filter + PageText(limit, offset)) == Parsed(c, PageText(limit, offset))
    ensures ParseQuery("SELECT " + fields + " FROM " + (obj + (" WHERE " + filter + PageText(limit, offset))))
         == Some(Query(fields, obj, Some(c), limit, offset))
  {
    TermThenPage(filter, c, limit, offset);
    ConditionParses(fields, obj, filter, c, limit, offset);
  }

  lemma UnfilteredListParses(fields: string, obj: string, limit: nat, offset: nat)
    requires SelectList(fields) && Word(obj)
    ensures ParseQuery("SELECT " + fields + " FROM " + (obj + PageText(limit, offset)))
         == Some(Query(fields, obj, None, limit, offset))
  {
    PageStart(limit, offset);
    HeadParses(fields, obj, PageText(limit, offset));
    NoWhereParses(fields, obj, limit, offset);
  }

  lemma PrintableListParses(m: Option<Mapping>, atoms: seq<Atom>, fields: string, limit: nat, offset: nat)
    requires PatternsArePrinted(m, atoms) && Printable(m, atoms)
    requires SelectList(fields) && Word(HouseholdObject(m))
    ensures ParseQuery(ListHouseholds(m, fields, limit, offset))
         == Some(Query(fields, HouseholdObject(m), FilterCond(m, atoms), limit, offset))
  {
    ListText(m, fields, limit, offset);
    if FilterCond(m, atoms).Some? {
      FilterIsTerm(m, atoms, PageText(limit, offset));
      FilteredListParses(fields, HouseholdObject(m), HouseholdFilter(m), FilterCond(m, atoms).value, limit, offset);
    } else {
      SingleFilterText(m);
      UnfilteredListParses(fields, HouseholdObject(m), limit, offset);
    }
  }

  /** A listing is read as its intended condition, object, limit and offset if and only if the mapping is printable. */
  lemma ListParses(m: Option<Mapping>, atoms: seq<Atom>, fields: string, limit: nat, offset: nat)
    requires PatternsArePrinted(m, atoms)
    requires SelectList(fields) && Word(HouseholdObject(m))
    ensures ParseQuery(ListHouseholds(m, fields, limit, offset))
         == Some(Query(fields, HouseholdObject(m), FilterCond(m, atoms), limit, offset))
        <==> Printable(m, atoms)
  {
    if Printable(m, atoms) {
      PrintableListParses(m, atoms, fields, limit, offset);
    } else {
      ListText(m, fields, limit, offset);
      UnprintableWhere(m, atoms, PageText(limit, offset), NameCond(""));
      FilterIsTerm(m, atoms, "");
      BadWhere(fields, HouseholdObject(m), HouseholdFilter(m), FilterCond(m, atoms).value, limit, offset);
    }
  }

  /** A hybrid listing is read as its disjunction of patterns if and only if no pattern value has a quote or a backslash. */
  lemma HybridListIffClean(m: Option<Mapping>, atoms: seq<Atom>, fields: string, limit: nat, offset: nat)
    requires Hybrid(m) && PatternsArePrinted(m, atoms)
    requires SelectList(fields) && Word(HouseholdObject(m))
    ensures ParseQuery(ListHouseholds(m, fields, limit, offset))
         == Some(Query(fields, HouseholdObject(m), Some(AnyOf(AtomConds(atoms))), limit, offset))
        <==> AllClean(atoms)
  {
    ListParses(m, atoms, fields, limit, offset);
  }

  lemma BadWhere(fields: string, obj: string, t: string, c: Cond, limit: nat, offset: nat)
    requires SelectList(fields) && Word(obj)
    requires !ParsesAs(ParseCond(t + PageText(limit, offset)), c)
    ensures ParseQuery("SELECT " + fields + " FROM " + (obj + (" WHERE " + t + PageText(limit, offset))))
         != Some(Query(fields, obj, Some(c), limit, offset))
  {
    var s := " WHERE " + t + PageText(limit, offset);
    assert s == " WHERE " + (t + PageText(limit, offset));
    HeadParses(fields, obj, s);
    if ParseConditions(fields, obj, s) == Some(Query(fields, obj, Some(c), limit, offset)) {
      WhereReads(fields, obj, t + PageText(limit, offset), c, limit, offset);
    }
  }

  lemma NoQuoteInPage(limit: nat, offset: nat)
    ensures !Includes(PageText(limit, offset), "'")
  {
    var s := PageText(limit, offset);
    if Includes(s, "'") {
      var i := IncludesWhere(s, "'");
      assert s[i..][0] == s[i] == '\'';
      QuoteNotInPage(limit, offset, i);
    }
  }

  lemma QuoteNotInPage(limit: nat, offset: nat, i: nat)
    requires i < |PageText(limit, offset)|
    ensures PageText(limit, offset)[i] != '\''
  {
    assert forall c :: c in Decimal(limit) || c in Decimal(offset) ==> IsDigit(c);
    assert '\'' !in " ORDER BY CreatedDate DESC LIMIT ";
    assert PageText(limit, offset)[i] in " ORDER BY CreatedDate DESC LIMIT " || PageText(limit, offset)[i] in Decimal(limit)
           || PageText(limit, offset)[i] in " OFFSET " || PageText(limit, offset)[i] in Decimal(offset);
  }

  /** An equality whose literal was cut inside an escape never closes, and the listing is no query. */
  lemma DanglingListFails(m: Option<Mapping>, fields: string, limit: nat, offset: nat)
    requires !Hybrid(m) && SingleAtom(m).Some? && Dangles(SingleAtom(m).value.value, MAX_LITERAL)
    requires SelectList(fields) && Word(HouseholdObject(m))
    ensures ParseQuery(ListHouseholds(m, fields, limit, offset)).None?
  {
    var a, page := SingleAtom(m).value, PageText(limit, offset);
    SingleFilterText(m);
    ListText(m, fields, limit, offset);
    NoQuoteInPage(limit, offset);
    OpenLiteralFails(a, page);
    OpenWhereFails(fields, HouseholdObject(m), HouseholdFilter(m), page);
  }

  lemma OpenLiteralFails(a: Atom, rest: string)
    requires Word(a.field) && Dangles(a.value, MAX_LITERAL) && !Includes(rest, "'")
    ensures ParseCond(EqualsText(a.field, Sanitize(a.value)) + rest).Failed?
  {
    ParseEquals(a.field, Sanitize(a.value), rest);
    ClosesIffNotDangling(a.value, rest);
  }

  lemma OpenWhereFails(fields: string, obj: string, filter: string, page: string)
    requires SelectList(fields) && Word(obj) && ParseCond(filter + page).Failed?
    ensures ParseQuery("SELECT " + fields + " FROM " + (obj + (" WHERE " + filter + page))).None?
  {
    var s := " WHERE " + filter + page;
    assert s == " WHERE " + (filter + page);
    HeadParses(fields, obj, s);
    assert s[7..] == filter + page;
  }

  // ---- searching by name ----

  /** What `Name LIKE '%…%'` asks for; a cut inside an escape turns the closing wildcard into a literal `%`. */
  function NameCond(q: string): Cond {
    Like("Name", [AnyRun] + Exacts(Denoted(q)) + [if Dangles(q, MAX_LITERAL) then Exactly('%') else AnyRun])
  }

  /** The characters of the LIKE literal as printed, and how they are read. */
  function NameChars(q: string): seq<LitChar> {
    [LitChar('%', false)] + (Marked(Kept(q, MAX_LITERAL)) + [LitChar('%', Dangles(q, MAX_LITERAL))])
  }

  /** The printed literal of a search, as an unescaped wildcard, escaped text, and the closing wildcard. */
  lemma NameLiteralText(q: string, t: string, rest: string)
    requires t == (if Dangles(q, MAX_LITERAL) then "\\%" else "%") + ("'" + rest)
    ensures "%" + Sanitize(q) + "%" + "'" + rest == "%" + (Escape(Kept(q, MAX_LITERAL)) + t)
  {
    SanitizeShape(q);
    RegroupLiteral("%", Escape(Kept(q, MAX_LITERAL)), if Dangles(q, MAX_LITERAL) then "\\" else "", "'" + rest);
    assert "%" + Sanitize(q) + "%" + "'" + rest == "%" + Sanitize(q) + "%" + ("'" + rest);
    assert "\\" + "%" == "\\%" && "" + "%" == "%";
  }

  lemma RegroupLiteral(w: string, e: string, d: string, close: string)
    ensures w + (e + d) + w + close == w + (e + (d + w + close))
  {
  }

  lemma NameLiteralReads(q: string, rest: string)
    ensures ReadLiteral("%" + Sanitize(q) + "%" + "'" + rest) == Read(NameChars(q), rest)
  {
    var p, dangles := Kept(q, MAX_LITERAL), Dangles(q, MAX_LITERAL);
    var t := (if dangles then "\\%" else "%") + ("'" + rest);
    NameLiteralText(q, t, rest);
    WildcardReads(Escape(p) + t);
    ReadEscaped(p, t);
    ReadClosing(dangles, rest);
  }

  lemma WildcardReads(u: string)
    ensures ReadLiteral("%" + u) == Prepend(LitChar('%', false), ReadLiteral(u))
  {
    assert ("%" + u)[1..] == u;
  }

  lemma FramedPattern(first: LitChar, inner: seq<LitChar>, last: LitChar)
    ensures PatternOf([first] + (inner + [last])) == [PatternItemOf(first)] + PatternOf(inner) + [PatternItemOf(last)]
  {
    PatternOfConcat(inner, [last]);
    assert [last][1..] == [];
    assert ([first] + (inner + [last]))[1..] == inner + [last];
  }

  lemma NamePattern(q: string)
    ensures Like("Name", PatternOf(NameChars(q))) == NameCond(q)
  {
    var p := Kept(q, MAX_LITERAL);
    SanitizedPatternIsExact(p);
    FramedPattern(LitChar('%', false), Marked(p), LitChar('%', Dangles(q, MAX_LITERAL)));
  }

  lemma NameClauseParses(q: string, rest: string)
    ensures ParseTerm(NameClause(q) + rest) == Parsed(NameCond(q), rest)
  {
    ParseLike("Name", "%" + Sanitize(q) + "%", rest);
    NameLiteralReads(q, rest);
    NamePattern(q);
  }

  lemma ReadClosing(dangles: bool, rest: string)
    ensures ReadLiteral((if dangles then "\\%" else "%") + ("'" + rest)) == Read([LitChar('%', dangles)], rest)
  {
    var u := "'" + rest;
    assert u[1..] == rest;
    assert ("\\%" + u)[2..] == u && ("%" + u)[1..] == u;
  }

  function SearchCond(m: Option<Mapping>, atoms: seq<Atom>, q: string): Cond {
    match FilterCond(m, atoms)
    case None => NameCond(q)
    case Some(c) => AllOf([c, NameCond(q)])
  }

  function SearchWhere(m: Option<Mapping>, q: string): string {
    if HouseholdFilter(m) != "" then HouseholdFilter(m) + (" AND " + NameClause(q)) else NameClause(q)
  }

  lemma SearchText(m: Option<Mapping>, fields: string, q: string, limit: nat, offset: nat)
    ensures SearchHouseholds(m, fields, q, limit, offset)
         == "SELECT " + fields + " FROM "
          + (HouseholdObject(m) + (" WHERE " + SearchWhere(m, q) + PageText(limit, offset)))
  {
    SearchTextOf(fields, HouseholdObject(m), HouseholdFilter(m), NameClause(q), PageText(limit, offset));
  }

  lemma SearchTextOf(fields: string, obj: string, filter: string, clause: string, page: string)
    ensures "SELECT " + fields + " FROM " + obj + " "
            + (if filter != "" then "WHERE " + filter + " AND " + clause else "WHERE " + clause) + page
         == "SELECT " + fields + " FROM "
            + (obj + (" WHERE " + (if filter != "" then filter + (" AND " + clause) else clause) + page))
  {
    if filter != "" {
      assert "WHERE " + filter + " AND " + clause == "WHERE " + (filter + (" AND " + clause));
      WhereText("SELECT " + fields + " FROM ", obj, filter + (" AND " + clause), page);
    } else {
      WhereText("SELECT " + fields + " FROM ", obj, clause, page);
    }
  }

  lemma WhereText(head: string, obj: string, w: string, page: string)
    ensures head + obj + " " + ("WHERE " + w) + page == head + (obj + (" WHERE " + w + page))
  {
    assert " " + ("WHERE " + w) == " WHERE " + w;
  }

  lemma SearchWhereParses(m: Option<Mapping>, atoms: seq<Atom>, q: string, limit: nat, offset: nat)
    requires PatternsArePrinted(m, atoms) && Printable(m, atoms)
    ensures ParseCond(SearchWhere(m, q) + PageText(limit, offset)) == Parsed(SearchCond(m, atoms, q), PageText(limit, offset))
  {
    var page := PageText(limit, offset);
    NameClauseParses(q, page);
    PageStart(limit, offset);
    if FilterCond(m, atoms).Some? {
      FilterIsTerm(m, atoms, " AND " + (NameClause(q) + page));
      TermAndTerm(HouseholdFilter(m), FilterCond(m, atoms).value, NameClause(q), NameCond(q), page);
    } else {
      SingleFilterText(m);
      TermThenPage(NameClause(q), NameCond(q), limit, offset);
    }
  }

  lemma PrintableSearchParses(m: Option<Mapping>, atoms: seq<Atom>, fields: string, q: string, limit: nat, offset: nat)
    requires PatternsArePrinted(m, atoms) && Printable(m, atoms)
    requires SelectList(fields) && Word(HouseholdObject(m))
    ensures ParseQuery(SearchHouseholds(m, fields, q, limit, offset))
         == Some(Query(fields, HouseholdObject(m), Some(SearchCond(m, atoms, q)), limit, offset))
  {
    SearchText(m, fields, q, limit, offset);
    SearchWhereParses(m, atoms, q, limit, offset);
    ConditionParses(fields, HouseholdObject(m), SearchWhere(m, q), SearchCond(m, atoms, q), limit, offset);
  }

  /** A search is read as the household condition and the name condition if and only if the mapping is printable. */
  lemma SearchParses(m: Option<Mapping>, atoms: seq<Atom>, fields: string, q: string, limit: nat, offset: nat)
    requires PatternsArePrinted(m, atoms)
    requires SelectList(fields) && Word(HouseholdObject(m))
    ensures ParseQuery(SearchHouseholds(m, fields, q, limit, offset))
         == Some(Query(fields, HouseholdObject(m), Some(SearchCond(m, atoms, q)), limit, offset))
        <==> Printable(m, atoms)
  {
    if Printable(m, atoms) {
      PrintableSearchParses(m, atoms, fields, q, limit, offset);
    } else {
      SearchText(m, fields, q, limit, offset);
      UnprintableSearch(m, atoms, q, PageText(limit, offset));
      BadWhere(fields, HouseholdObject(m), SearchWhere(m, q), SearchCond(m, atoms, q), limit, offset);
    }
  }

  lemma UnprintableSearch(m: Option<Mapping>, atoms: seq<Atom>, q: string, page: string)
    requires PatternsArePrinted(m, atoms) && !Printable(m, atoms)
    ensures !ParsesAs(ParseCond(SearchWhere(m, q) + page), SearchCond(m, atoms, q))
  {
    var more := " AND " + NameClause(q) + page;
    UnprintableWhere(m, atoms, more, NameCond(q));
    FilterIsTerm(m, atoms, more);
    SearchWhereText(m, q, page);
  }

  lemma SearchWhereText(m: Option<Mapping>, q: string, page: string)
    requires HouseholdFilter(m) != ""
    ensures SearchWhere(m, q) + page == HouseholdFilter(m) + (" AND " + NameClause(q) + page)
  {
    RegroupTail(HouseholdFilter(m), " AND " + NameClause(q), page);
  }

  lemma RegroupTail(a: string, b: string, c: string)
    ensures (a + b) + c == a + (b + c)
  {
  }

  /** With a single filter: a search is read as intended if and only if the filter value is not cut inside an escape. */
  lemma SingleSearchIff(m: Option<Mapping>, fields: string, q: string, limit: nat, offset: nat)
    requires !Hybrid(m) && SelectList(fields) && Word(HouseholdObject(m))
    ensures ParseQuery(SearchHouseholds(m, fields, q, limit, offset))
         == Some(Query(fields, HouseholdObject(m), Some(SearchCond(m, [], q)), limit, offset))
        <==> (SingleAtom(m).Some? ==> !Dangles(SingleAtom(m).value.value, MAX_LITERAL))
  {
    SearchParses(m, [], fields, q, limit, offset);
  }

  /** A hybrid search is read as intended if and only if no pattern value has a quote or a backslash. */
  lemma HybridSearchIffClean(m: Option<Mapping>, atoms: seq<Atom>, fields: string, q: string, limit: nat, offset: nat)
    requires Hybrid(m) && PatternsArePrinted(m, atoms)
    requires SelectList(fields) && Word(HouseholdObject(m))
    ensures ParseQuery(SearchHouseholds(m, fields, q, limit, offset))
         == Some(Query(fields, HouseholdObject(m), Some(SearchCond(m, atoms, q)), limit, offset))
        <==> AllClean(atoms)
  {
    SearchParses(m, atoms, fields, q, limit, offset);
  }

  // ---- what a cut filter does to a search ----

  lemma ConnectingText()
    ensures " AND " + ("Name" + " LIKE '") == " AND Name LIKE " + "'"
    ensures Clean(" AND Name LIKE ")
  {
    var s, t := " AND " + ("Name" + " LIKE '"), " AND Name LIKE " + "'";
    assert |s| == |t|;
    forall i | 0 <= i < |t|
      ensures s[i] == t[i]
    {
    }
  }

  lemma RegroupClause(a: string, f: string, l: string, c: string, body: string, rest: string)
    requires a + (f + l) == c + "'"
    ensures a + (f + l + body + "'") + rest == c + ("'" + (body + "'" + rest))
  {
    assert a + (f + l + body + "'") + rest == (a + (f + l)) + (body + "'" + rest);
    assert (c + "'") + (body + "'" + rest) == c + ("'" + (body + "'" + rest));
  }

  lemma PlainThenQuote(words: string, rest: string)
    requires Clean(words)
    ensures ReadLiteral(words + ("'" + rest)) == Read(Unmarked(words), rest)
  {
    ReadRaw(words, "'" + rest);
    assert ("'" + rest)[1..] == rest;
    assert Unmarked(words) + [] == Unmarked(words);
  }

  /** Inside an open literal the connecting words are characters, and the quote before the wildcard closes it. */
  lemma ClauseClosesLiteral(body: string, page: string)
    ensures ReadLiteral(" AND " + LikeText("Name", body) + page) == Read(Unmarked(" AND Name LIKE "), body + "'" + page)
  {
    ConnectingText();
    RegroupClause(" AND ", "Name", " LIKE '", " AND Name LIKE ", body, page);
    PlainThenQuote(" AND Name LIKE ", body + "'" + page);
  }

  /** The term a search starts with when its filter value was cut inside an escape. */
  lemma DanglingTerm(a: Atom, body: string, page: string) returns (c: Cond)
    requires Word(a.field) && Dangles(a.value, MAX_LITERAL)
    ensures ParseTerm(EqualsText(a.field, Sanitize(a.value)) + (" AND " + LikeText("Name", body) + page))
         == Parsed(c, body + "'" + page)
  {
    var more := " AND " + LikeText("Name", body) + page;
    ParseEquals(a.field, Sanitize(a.value), more);
    DanglingRunsOn(a.value, more);
    ClauseClosesLiteral(body, page);
    c := ParseTerm(EqualsText(a.field, Sanitize(a.value)) + more).cond;
  }

  lemma NoQueryFromWildcard(fields: string, obj: string, t: string, c: Cond, rest: string)
    requires SelectList(fields) && Word(obj)
    requires ParseTerm(t) == Parsed(c, rest) && rest != "" && rest[0] == '%'
    ensures ParseQuery("SELECT " + fields + " FROM " + (obj + (" WHERE " + t))) == None
  {
    HeadParses(fields, obj, " WHERE " + t);
    WhereStep(fields, obj, t);
    assert !(ORDER_TEXT <= rest);
  }

  /**
   * A search whose filter value was cut inside an escape is no query: the literal runs on to the quote before the
   * wildcard, and a `%` is left where a connective or the ORDER BY should be.
   */
  lemma DanglingSearchFails(m: Option<Mapping>, fields: string, q: string, limit: nat, offset: nat)
    requires !Hybrid(m) && SingleAtom(m).Some? && Dangles(SingleAtom(m).value.value, MAX_LITERAL)
    requires SelectList(fields) && Word(HouseholdObject(m))
    ensures ParseQuery(SearchHouseholds(m, fields, q, limit, offset)).None?
  {
    var a, page, body := SingleAtom(m).value, PageText(limit, offset), "%" + Sanitize(q) + "%";
    SingleFilterText(m);
    SearchText(m, fields, q, limit, offset);
    SearchWhereText(m, q, page);
    RegroupTail(" WHERE ", SearchWhere(m, q), page);
    DanglingTextFails(fields, HouseholdObject(m), a, body, page);
  }

  lemma DanglingTextFails(fields: string, obj: string, a: Atom, body: string, page: string)
    requires SelectList(fields) && Word(obj) && Word(a.field) && Dangles(a.value, MAX_LITERAL)
    requires body != "" && body[0] == '%'
    ensures var t := EqualsText(a.field, Sanitize(a.value)) + (" AND " + LikeText("Name", body) + page);
            ParseQuery("SELECT " + fields + " FROM " + (obj + (" WHERE " + t))) == None
  {
    var c := DanglingTerm(a, body, page);
    NoQueryFromWildcard(fields, obj, EqualsText(a.field, Sanitize(a.value)) + (" AND " + LikeText("Name", body) + page),
                        c, body + "'" + page);
  }

  // ---- the records a query selects ----

  predicate NameMatches(name: string, q: string) {
    if Dangles(q, MAX_LITERAL) then EndsWith(name, Denoted(q) + "%") else Includes(name, Denoted(q))
  }

  lemma {:induction false} ExactsConcat(a: string, b: string)
    ensures Exacts(a + b) == Exacts(a) + Exacts(b)
  {
    if a == "" {
      assert a + b == b;
    } else {
      assert (a + b)[1..] == a[1..] + b;
      ExactsConcat(a[1..], b);
    }
  }

  lemma NameCondMeaning(q: string, r: Record)
    requires "Name" in r
    ensures Eval(NameCond(q), r) <==> NameMatches(r["Name"], q)
  {
    var d := Denoted(q);
    if Dangles(q, MAX_LITERAL) {
      ExactsConcat(d, "%");
      assert Exacts("%") == [Exactly('%')];
      assert [AnyRun] + Exacts(d) + [Exactly('%')] == [AnyRun] + Exacts(d + "%");
      LikeIsEndsWith(d + "%", r["Name"]);
    } else {
      LikeIsIncludes(d, r["Name"]);
    }
  }

  /** The household test a mapping stands for, on a record. */
  predicate IsHousehold(m: Option<Mapping>, atoms: seq<Atom>, r: Record) {
    if Hybrid(m) then exists i :: 0 <= i < |atoms| && atoms[i].field in r && r[atoms[i].field] == atoms[i].value
    else match SingleAtom(m)
      case None => true
      case Some(a) => a.field in r && r[a.field] == Denoted(a.value)
  }

  /**
   * With a printable mapping a search returns exactly the households whose name contains the query text; when the query
   * fits the length limit, that text is the query without its control characters. With a single filter that is not
   * printable it returns an error.
   */
  lemma SearchSelects(m: Option<Mapping>, atoms: seq<Atom>, fields: string, q: string, limit: nat, offset: nat, r: Record)
    requires PatternsArePrinted(m, atoms)
    requires SelectList(fields) && Word(HouseholdObject(m)) && "Name" in r
    ensures var parsed := ParseQuery(SearchHouseholds(m, fields, q, limit, offset));
            && (Printable(m, atoms) ==>
                  parsed.Some? && (Selects(parsed.value, r) <==> IsHousehold(m, atoms, r) && NameMatches(r["Name"], q)))
            && (!Hybrid(m) ==> (parsed.Some? <==> Printable(m, atoms)))
    ensures Fits(q) ==> (NameMatches(r["Name"], q) <==> Includes(r["Name"], StripControl(q)))
  {
    SearchParses(m, atoms, fields, q, limit, offset);
    SearchCondMeaning(m, atoms, q, r);
    SanitizeShape(q);
    if !Hybrid(m) && !Printable(m, atoms) {
      DanglingSearchFails(m, fields, q, limit, offset);
    }
  }

  lemma SearchCondMeaning(m: Option<Mapping>, atoms: seq<Atom>, q: string, r: Record)
    requires "Name" in r
    ensures Eval(SearchCond(m, atoms, q), r) <==> IsHousehold(m, atoms, r) && NameMatches(r["Name"], q)
  {
    NameCondMeaning(q, r);
    if FilterCond(m, atoms).Some? {
      FilterMeaning(m, atoms, r);
      var cs := [FilterCond(m, atoms).value, NameCond(q)];
      assert Eval(AllOf(cs), r) <==> Eval(cs[0], r) && Eval(cs[1], r);
    }
  }

  lemma FilterMeaning(m: Option<Mapping>, atoms: seq<Atom>, r: Record)
    requires FilterCond(m, atoms).Some?
    ensures Eval(FilterCond(m, atoms).value, r) <==> IsHousehold(m, atoms, r)
  {
    if Hybrid(m) {
      var cs := AtomConds(atoms);
      if i :| 0 <= i < |atoms| && atoms[i].field in r && r[atoms[i].field] == atoms[i].value {
        assert Eval(cs[i], r);
      }
    }
  }

  /**
   * With a printable mapping a listing selects exactly the records that pass the household test; with a single filter
   * that is not printable it returns an error.
   */
  lemma ListSelects(m: Option<Mapping>, atoms: seq<Atom>, fields: string, limit: nat, offset: nat, r: Record)
    requires PatternsArePrinted(m, atoms)
    requires SelectList(fields) && Word(HouseholdObject(m))
    ensures var q := ParseQuery(ListHouseholds(m, fields, limit, offset));
            && (Printable(m, atoms) ==> q.Some? && (Selects(q.value, r) <==> IsHousehold(m, atoms, r)))
            && (!Hybrid(m) ==> (q.Some? <==> Printable(m, atoms)))
  {
    ListParses(m, atoms, fields, limit, offset);
    if FilterCond(m, atoms).Some? {
      FilterMeaning(m, atoms, r);
    }
    if !Hybrid(m) && !Printable(m, atoms) {
      DanglingListFails(m, fields, limit, offset);
    }
  }

  predicate Selects(q: Query, r: Record) {
    q.where.Some? ==> Eval(q.where.value, r)
  }
}
