/** Which texts can be queries at all: outside literals no backslash is read, and every literal must close. */
module QuoteBalance {
  import opened Text
  import opened SoqlLiteral
  import opened SoqlQuery
  import opened OrgMapping
  import opened OrgQuery
  import opened OrgQueryMeaning

  /** Where a left-to-right reader stands with respect to string literals. */
  datatype Place = Outside | Inside | Escaping | Lost

  function Step(p: Place, c: char): Place {
    match p
    case Outside => if c == '\'' then Inside else if c == '\\' then Lost else Outside
    case Inside => if c == '\'' then Outside else if c == '\\' then Escaping else Inside
    case Escaping => if IsSpecial(c) then Inside else Lost
    case Lost => Lost
  }

  function After(p: Place, s: string): Place
    decreases |s|
  {
    if s == "" then p else After(Step(p, s[0]), s[1..])
  }

  lemma {:induction false} AfterConcat(p: Place, a: string, b: string)
    ensures After(p, a + b) == After(After(p, a), b)
    decreases |a|
  {
    if a == "" {
      assert a + b == b;
    } else {
      assert (a + b)[1..] == a[1..] + b;
      AfterConcat(Step(p, a[0]), a[1..], b);
    }
  }

  lemma AfterChar(p: Place, c: char)
    ensures After(p, [c]) == Step(p, c)
  {
    assert [c][1..] == "";
  }

  lemma {:induction false} LostStays(s: string)
    ensures After(Lost, s) == Lost
    decreases |s|
  {
    if s != "" {
      LostStays(s[1..]);
    }
  }

  lemma {:induction false} CleanStays(p: Place, s: string)
    requires Clean(s) && (p == Outside || p == Inside)
    ensures After(p, s) == p
    decreases |s|
  {
    if s != "" {
      CleanTail(s);
      CleanStays(p, s[1..]);
    }
  }

  // ---- the parser consumes balanced text ----

  predicate Suffix(rest: string, s: string) {
    |rest| <= |s| && s[|s| - |rest|..] == rest
  }

  /** Reading from `s` down to `rest` starts and ends outside literals. */
  predicate Consumes(s: string, rest: string) {
    Suffix(rest, s) && After(Outside, s) == After(Outside, rest)
  }

  lemma ConsumesTrans(a: string, b: string, c: string)
    requires Consumes(a, b) && Consumes(b, c)
    ensures Consumes(a, c)
  {
    assert a[|a| - |c|..] == a[|a| - |b|..][|b| - |c|..];
  }

  lemma ConsumesPlain(s: string, k: nat)
    requires k <= |s| && Clean(s[..k])
    ensures Consumes(s, s[k..])
  {
    assert s == s[..k] + s[k..];
    AfterConcat(Outside, s[..k], s[k..]);
    CleanStays(Outside, s[..k]);
  }

  lemma {:induction false} ConsumesSpaces(s: string)
    ensures Consumes(s, SkipSpaces(s))
  {
    if s != "" && s[0] == ' ' {
      ConsumesSpaces(s[1..]);
      ConsumesPlain(s, 1);
      ConsumesTrans(s, s[1..], SkipSpaces(s));
    }
  }

  lemma {:induction false} WordReadIsClean(s: string)
    ensures Clean(ReadWord(s))
  {
    if s != "" && IsWordChar(s[0]) {
      WordReadIsClean(s[1..]);
      CleanTail(ReadWord(s));
      assert ReadWord(s)[1..] == ReadWord(s[1..]);
    }
  }

  lemma ConsumesWord(s: string)
    ensures Consumes(s, s[|ReadWord(s)|..])
  {
    WordReadIsClean(s);
    ConsumesPlain(s, |ReadWord(s)|);
  }

  lemma {:induction false} LiteralRead(t: string)
    requires ReadLiteral(t).Read?
    ensures Suffix(ReadLiteral(t).rest, t)
    ensures After(Inside, t) == After(Outside, ReadLiteral(t).rest)
    decreases |t|
  {
    if t[0] == '\'' {
    } else if t[0] == '\\' {
      LiteralRead(t[2..]);
      assert t[1..][0] == t[1] && t[1..][1..] == t[2..];
      assert After(Inside, t) == After(Escaping, t[1..]);
    } else {
      LiteralRead(t[1..]);
    }
  }

  lemma LiteralConsumed(s: string)
    requires "'" <= s && ReadLiteral(s[1..]).Read?
    ensures Consumes(s, ReadLiteral(s[1..]).rest)
  {
    LiteralRead(s[1..]);
  }

  lemma ConsumesThenSpaces(s: string, k: nat)
    requires k <= |s| && Clean(s[..k])
    ensures Consumes(s, SkipSpaces(s[k..]))
  {
    ConsumesPlain(s, k);
    ConsumesSpaces(s[k..]);
    ConsumesTrans(s, s[k..], SkipSpaces(s[k..]));
  }

  lemma ComparisonConsumed(s: string)
    requires ParseComparison(s).Parsed?
    ensures Consumes(s, ParseComparison(s).rest)
  {
    var f := ReadWord(s);
    var s1 := SkipSpaces(s[|f|..]);
    var k := if "=" <= s1 then 1 else 4;
    WordReadIsClean(s);
    ConsumesThenSpaces(s, |f|);
    WordReadIsClean(s1);
    ConsumesThenSpaces(s1, k);
    LiteralConsumed(SkipSpaces(s1[k..]));
    ConsumesTrans(s1, SkipSpaces(s1[k..]), ParseComparison(s).rest);
    ConsumesTrans(s, s1, ParseComparison(s).rest);
  }

  lemma ConnectiveConsumed(s: string)
    requires NextConnective(s) != Neither
    ensures Consumes(s, AfterConnective(s))
  {
    var t := SkipSpaces(s);
    ConsumesSpaces(s);
    ConsumesWord(t);
    ConsumesTrans(s, t, t[|ReadWord(t)|..]);
  }

  lemma ConsumesBracket(s: string, c: char)
    requires s != "" && s[0] == c && (c == '(' || c == ')')
    ensures Consumes(s, s[1..])
  {
    ConsumesPlain(s, 1);
  }

  lemma {:induction false} TermConsumed(s: string)
    requires ParseTerm(s).Parsed?
    ensures Consumes(s, ParseTerm(s).rest)
    decreases |s|, 0
  {
    var s1 := SkipSpaces(s);
    ConsumesSpaces(s);
    if "(" <= s1 {
      var inner := ParseCond(s1[1..]).rest;
      CondConsumed(s1[1..]);
      ConsumesBracket(s1, '(');
      ConsumesSpaces(inner);
      ConsumesBracket(SkipSpaces(inner), ')');
      ConsumesTrans(s, s1, s1[1..]);
      ConsumesTrans(s, s1[1..], inner);
      ConsumesTrans(s, inner, SkipSpaces(inner));
      ConsumesTrans(s, SkipSpaces(inner), SkipSpaces(inner)[1..]);
    } else {
      ComparisonConsumed(s1);
      ConsumesTrans(s, s1, ParseTerm(s).rest);
    }
  }

  lemma {:induction false} CondConsumed(s: string)
    requires ParseCond(s).Parsed?
    ensures Consumes(s, ParseCond(s).rest)
    decreases |s|, 1
  {
    var p := ParseTerm(s);
    TermConsumed(s);
    if NextConnective(p.rest) != Neither {
      ChainConsumed(NextConnective(p.rest), [p.cond], p.rest);
      ConsumesTrans(s, p.rest, ParseCond(s).rest);
    }
  }

  lemma {:induction false} ChainConsumed(op: Connective, acc: seq<Cond>, s: string)
    requires op != Neither && ParseChain(op, acc, s).Parsed?
    ensures Consumes(s, ParseChain(op, acc, s).rest)
    decreases |s|, 2
  {
    if NextConnective(s) == op {
      var t := AfterConnective(s);
      var p := ParseTerm(t);
      ConnectiveConsumed(s);
      TermConsumed(t);
      ChainConsumed(op, acc + [p.cond], p.rest);
      ConsumesTrans(s, t, p.rest);
      ConsumesTrans(s, p.rest, ParseChain(op, acc, s).rest);
    }
  }

  // ---- a readable query is balanced ----

  lemma CleanConcat(a: string, b: string)
    ensures Clean(a + b) <==> Clean(a) && Clean(b)
  {
    assert forall i :: 0 <= i < |a| ==> (a + b)[i] == a[i];
    assert forall i :: 0 <= i < |b| ==> (a + b)[|a| + i] == b[i];
  }

  lemma NumeralIsClean(s: string)
    requires IsNumeral(s)
    ensures Clean(s)
  {
    assert forall i :: 0 <= i < |s| ==> s[i] in s;
  }

  lemma OffsetIsClean(r: string)
    requires " OFFSET " <= r && IsNumeral(r[8..])
    ensures Clean(r)
  {
    assert r == " OFFSET " + r[8..];
    NumeralIsClean(r[8..]);
    CleanConcat(" OFFSET ", r[8..]);
  }

  lemma CleanParts(s: string, k: nat)
    requires k <= |s| && Clean(s[..k]) && Clean(s[k..])
    ensures Clean(s)
  {
    assert s == s[..k] + s[k..];
    CleanConcat(s[..k], s[k..]);
  }

  /** A page text is plain whatever it says. */
  lemma PageReadIsClean(s: string)
    requires ParsePage(s) != NoPage
    ensures Clean(s)
  {
    var t := s[|ORDER_TEXT|..];
    var d := ReadWord(t);
    var r := t[|d|..];
    if r != "" {
      OffsetIsClean(r);
    }
    NumeralIsClean(d);
    CleanParts(t, |d|);
    OrderTextIsClean();
    CleanParts(s, |ORDER_TEXT|);
  }

  lemma OrderTextIsClean()
    ensures Clean(ORDER_TEXT)
  {
    forall i | 0 <= i < |ORDER_TEXT|
      ensures ORDER_TEXT[i] != '\'' && ORDER_TEXT[i] != '\\'
    {
    }
  }

  /** After WHERE a readable text begins and ends outside literals. */
  lemma ReadableWhere(fields: string, obj: string, u: string)
    requires ParseConditions(fields, obj, " WHERE " + u).Some?
    ensures ParseCond(u).Parsed? && Clean(ParseCond(u).rest) && After(Outside, u) == Outside
  {
    WhereStep(fields, obj, u);
    CondConsumed(u);
    PageReadIsClean(ParseCond(u).rest);
    CleanStays(Outside, ParseCond(u).rest);
  }

  lemma PageIsClean(limit: nat, offset: nat)
    ensures Clean(PageText(limit, offset))
  {
    PageParses(limit, offset);
    PageReadIsClean(PageText(limit, offset));
  }

  /** A page text brings no reader back outside. */
  lemma PageKeepsPlace(p: Place, limit: nat, offset: nat)
    requires After(p, PageText(limit, offset)) == Outside
    ensures p == Outside
  {
    var page := PageText(limit, offset);
    PageIsClean(limit, offset);
    if p == Inside {
      CleanStays(Inside, page);
    } else if p == Escaping {
      assert page[0] == ' ';
    }
    LostStays(page);
    LostStays(page[1..]);
  }

  /** A listing can be read only if its filter ends outside literals and reads no backslash outside them. */
  lemma ReadableListIsBalanced(m: Option<Mapping>, fields: string, limit: nat, offset: nat)
    requires SelectList(fields) && Word(HouseholdObject(m))
    requires ParseQuery(ListHouseholds(m, fields, limit, offset)).Some?
    ensures After(Outside, HouseholdFilter(m)) == Outside
  {
    var filter, page := HouseholdFilter(m), PageText(limit, offset);
    ListText(m, fields, limit, offset);
    if filter != "" {
      RegroupTail(" WHERE ", filter, page);
      HeadParses(fields, HouseholdObject(m), " WHERE " + (filter + page));
      ReadableWhere(fields, HouseholdObject(m), filter + page);
      AfterConcat(Outside, filter, page);
      PageKeepsPlace(After(Outside, filter), limit, offset);
    }
  }

  // ---- values pasted between quotes ----

  /** A value with a single quote leaves the literal it was pasted into. */
  lemma OneQuote(a: string, b: string)
    requires Clean(a) && Clean(b)
    ensures After(Inside, a + ("'" + b)) == Outside
  {
    AfterConcat(Inside, a, "'" + b);
    CleanStays(Inside, a);
    assert ("'" + b)[1..] == b;
    CleanStays(Outside, b);
  }

  /** Inside a literal a value without a bare quote stays inside exactly when it is well escaped; outside, when it is clean. */
  lemma {:induction false} NoBareQuotePlaces(v: string)
    requires NoBareQuote(v)
    ensures After(Inside, v) != Outside
    ensures After(Inside, v) == Inside <==> WellEscaped(v)
    ensures After(Outside, v) == if Clean(v) then Outside else Lost
    decreases |v|
  {
    if v == "" {
    } else if v[0] == '\\' {
      LostStays(v[1..]);
      if |v| >= 2 {
        NoBareQuotePlaces(v[2..]);
        assert v[1..][1..] == v[2..];
        LostStays(v[2..]);
      } else {
        AfterChar(Inside, '\\');
        assert v == "\\";
      }
    } else {
      CleanTail(v);
      NoBareQuotePlaces(v[1..]);
    }
  }

  /** The text between two pasted values: it closes one literal and opens the next. */
  function Between(field: string): string {
    "'" + (" OR " + field + " = " + "'")
  }

  lemma PairText(f1: string, v1: string, f2: string, v2: string)
    ensures "(" + (f1 + " = '" + v1 + "'" + " OR " + (f2 + " = '" + v2 + "'")) + ")"
         == "(" + f1 + " = " + "'" + (v1 + (Between(f2) + (v2 + "')")))
  {
    assert " = '" == " = " + "'" && "')" == "'" + ")";
  }

  lemma WordIsClean(w: string)
    requires Word(w)
    ensures Clean(w)
  {
    assert forall i :: 0 <= i < |w| ==> IsWordChar(w[i]);
  }

  lemma OpensLiteral(words: string, p: Place)
    requires Clean(words) && (p == Outside || p == Inside)
    ensures After(p, words + "'") == if p == Outside then Inside else Outside
  {
    AfterConcat(p, words, "'");
    CleanStays(p, words);
    AfterChar(p, '\'');
  }

  lemma AcrossBetween(field: string, p: Place)
    requires Word(field)
    ensures After(p, Between(field)) == match p
            case Inside => Inside
            case Lost => Lost
            case _ => Outside
  {
    var words := " OR " + field + " = ";
    WordIsClean(field);
    CleanConcat(" OR ", field);
    CleanConcat(" OR " + field, " = ");
    AfterConcat(p, "'", words + "'");
    AfterChar(p, '\'');
    LostStays(words + "'");
    if p != Lost {
      OpensLiteral(words, Step(p, '\''));
    }
  }

  lemma ClosesList(p: Place)
    ensures After(p, "')") == Outside <==> p == Inside
  {
    AfterConcat(p, "'", ")");
    AfterChar(p, '\'');
    AfterChar(Step(p, '\''), ')');
    assert "')" == "'" + ")";
  }

  /** Two values pasted into the parenthesised list: when the list ends outside literals. */
  lemma PairBalance(a: Atom, c: Atom)
    requires Word(a.field) && Word(c.field)
    ensures After(Outside, "(" + Join(RawTexts([a, c]), " OR ") + ")") == Outside
       <==> After(After(After(Inside, a.value), Between(c.field)), c.value) == Inside
  {
    var head, tail := "(" + a.field + " = ", Between(c.field) + (c.value + "')");
    JoinPair(a, c);
    PairText(a.field, a.value, c.field, c.value);
    WordIsClean(a.field);
    CleanConcat("(", a.field);
    CleanConcat("(" + a.field, " = ");
    OpensLiteral(head, Outside);
    AfterConcat(Outside, head + "'", a.value + tail);
    AfterConcat(Inside, a.value, tail);
    AfterConcat(After(Inside, a.value), Between(c.field), c.value + "')");
    var p := After(After(Inside, a.value), Between(c.field));
    AfterConcat(p, c.value, "')");
    ClosesList(After(p, c.value));
  }

  lemma JoinPair(a: Atom, c: Atom)
    ensures Join(RawTexts([a, c]), " OR ") == RawText(a) + " OR " + RawText(c)
  {
    assert RawTexts([a, c])[1..] == [RawText(c)];
  }

  /** With no bare quote in either value the list is balanced exactly when both are well escaped. */
  lemma PairBalancedIff(a: Atom, c: Atom)
    requires Word(a.field) && Word(c.field) && NoBareQuote(a.value) && NoBareQuote(c.value)
    ensures After(Outside, "(" + Join(RawTexts([a, c]), " OR ") + ")") == Outside <==> WellEscaped(a.value) && WellEscaped(c.value)
  {
    PairBalance(a, c);
    NoBareQuotePlaces(a.value);
    NoBareQuotePlaces(c.value);
    AcrossBetween(c.field, After(Inside, a.value));
    LostStays(c.value);
  }
}
