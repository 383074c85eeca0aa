/** Conditions of SOQL queries: their meaning over records, and a parser for the texts the application prints. */
module SoqlQuery {
  import opened Text
  import opened SoqlLiteral

  // ---- meaning ----

  datatype PatternItem = Exactly(c: char) | AnyRun | AnyOne

  datatype Cond =
    | Equals(field: string, value: string)
    | Like(field: string, pattern: seq<PatternItem>)
    | AnyOf(conds: seq<Cond>)
    | AllOf(conds: seq<Cond>)

  type Record = map<string, string>

  predicate Eval(c: Cond, r: Record) {
    match c
    case Equals(f, v) => f in r && r[f] == v
    case Like(f, p) => f in r && LikeMatches(p, r[f])
    case AnyOf(cs) => exists i :: 0 <= i < |cs| && Eval(cs[i], r)
    case AllOf(cs) => forall i :: 0 <= i < |cs| ==> Eval(cs[i], r)
  }

  predicate LikeMatches(p: seq<PatternItem>, s: string)
    decreases |p| + |s|
  {
    if p == [] then s == ""
    else match p[0]
      case Exactly(c) => s != "" && s[0] == c && LikeMatches(p[1..], s[1..])
      case AnyOne => s != "" && LikeMatches(p[1..], s[1..])
      case AnyRun => LikeMatches(p[1..], s) || (s != "" && LikeMatches(p, s[1..]))
  }

  function PatternItemOf(c: LitChar): PatternItem {
    if c.escaped then Exactly(c.c) else if c.c == '%' then AnyRun else if c.c == '_' then AnyOne else Exactly(c.c)
  }

  /** What a literal denotes on the right of LIKE: an unescaped `%` or `_` is a wildcard. */
  function PatternOf(cs: seq<LitChar>): seq<PatternItem> {
    if cs == [] then [] else [PatternItemOf(cs[0])] + PatternOf(cs[1..])
  }

  function Exacts(s: string): seq<PatternItem> {
    if s == "" then [] else [Exactly(s[0])] + Exacts(s[1..])
  }

  lemma {:induction false} PatternOfConcat(a: seq<LitChar>, b: seq<LitChar>)
    ensures PatternOf(a + b) == PatternOf(a) + PatternOf(b)
  {
    if a == [] {
      assert a + b == b;
    } else {
      assert (a + b)[1..] == a[1..] + b;
      PatternOfConcat(a[1..], b);
    }
  }

  /** Sanitized text holds no wildcard: every `%` and `_` of the input stands for itself. */
  lemma {:induction false} SanitizedPatternIsExact(s: string)
    ensures PatternOf(Marked(s)) == Exacts(StripControl(s))
  {
    if s != "" {
      SanitizedPatternIsExact(s[1..]);
      if !IsControl(s[0]) {
        assert Marked(s)[1..] == Marked(s[1..]);
        assert StripControl(s) == [s[0]] + StripControl(s[1..]);
        assert StripControl(s)[1..] == StripControl(s[1..]);
      } else {
        assert StripControl(s) == StripControl(s[1..]);
      }
    }
  }

  lemma AnyRunMatchesAll(s: string)
    ensures LikeMatches([AnyRun], s)
  {
    if s == "" {
      assert LikeMatches([AnyRun][1..], s);
    } else {
      AnyRunMatchesAll(s[1..]);
    }
  }

  lemma {:induction false} ExactsThenAny(q: string, s: string)
    ensures LikeMatches(Exacts(q) + [AnyRun], s) <==> q <= s
  {
    if q == "" {
      assert Exacts(q) + [AnyRun] == [AnyRun];
      AnyRunMatchesAll(s);
    } else {
      var p := Exacts(q) + [AnyRun];
      assert p[1..] == Exacts(q[1..]) + [AnyRun];
      if s != "" {
        ExactsThenAny(q[1..], s[1..]);
        assert q == [q[0]] + q[1..] && s == [s[0]] + s[1..];
      }
    }
  }

  lemma {:induction false} ExactsMatch(q: string, s: string)
    ensures LikeMatches(Exacts(q), s) <==> q == s
  {
    if q == "" {
    } else if s != "" {
      assert Exacts(q)[1..] == Exacts(q[1..]);
      ExactsMatch(q[1..], s[1..]);
      assert q == [q[0]] + q[1..] && s == [s[0]] + s[1..];
    }
  }

  /** `LIKE '%q%'` with an exact `q` is substring search. */
  lemma {:induction false} LikeIsIncludes(q: string, s: string)
    ensures LikeMatches([AnyRun] + Exacts(q) + [AnyRun], s) <==> Includes(s, q)
  {
    var p := [AnyRun] + Exacts(q) + [AnyRun];
    assert p[1..] == Exacts(q) + [AnyRun];
    ExactsThenAny(q, s);
    if s != "" {
      LikeIsIncludes(q, s[1..]);
    }
  }

  predicate EndsWith(s: string, q: string) {
    |q| <= |s| && s[|s| - |q|..] == q
  }

  /** `LIKE '%q'` with an exact `q` is suffix search. */
  lemma {:induction false} LikeIsEndsWith(q: string, s: string)
    ensures LikeMatches([AnyRun] + Exacts(q), s) <==> EndsWith(s, q)
  {
    var p := [AnyRun] + Exacts(q);
    assert p[1..] == Exacts(q);
    ExactsMatch(q, s);
    if s != "" {
      LikeIsEndsWith(q, s[1..]);
      assert |q| < |s| ==> s[|s| - |q|..] == s[1..][|s| - 1 - |q|..];
    }
    assert |q| == |s| ==> s[|s| - |q|..] == s;
  }

  // ---- lexical layer ----

  predicate IsWordChar(c: char) {
    'a' <= c <= 'z' || 'A' <= c <= 'Z' || '0' <= c <= '9' || c == '_' || c == '.'
  }

  predicate Word(w: string) {
    w != "" && forall i :: 0 <= i < |w| ==> IsWordChar(w[i])
  }

  predicate StartsNoWord(s: string) {
    s == "" || !IsWordChar(s[0])
  }

  function SkipSpaces(s: string): (r: string)
    ensures |r| <= |s|
  {
    if s != "" && s[0] == ' ' then SkipSpaces(s[1..]) else s
  }

  function ReadWord(s: string): (w: string)
    ensures w <= s
  {
    if s == "" || !IsWordChar(s[0]) then "" else
    var w := ReadWord(s[1..]);
    assert s == [s[0]] + s[1..];
    [s[0]] + w
  }

  lemma {:induction false} ReadWordIs(w: string, rest: string)
    requires w == "" || Word(w)
    requires StartsNoWord(rest)
    ensures ReadWord(w + rest) == w
  {
    if w == "" {
      assert w + rest == rest;
    } else {
      assert (w + rest)[1..] == w[1..] + rest;
      ReadWordIs(w[1..], rest);
    }
  }

  // ---- grammar: comparisons, parentheses, and chains of one connective ----

  datatype Parse = Failed | Parsed(cond: Cond, rest: string)

  datatype Connective = And | Or | Neither

  function NextConnective(s: string): (c: Connective)
    ensures c != Neither ==> |SkipSpaces(s)| >= 2 && (c == And ==> |SkipSpaces(s)| >= 3)
  {
    var w := ReadWord(SkipSpaces(s));
    if w == "AND" then And else if w == "OR" then Or else Neither
  }

  function AfterConnective(s: string): (r: string)
    requires NextConnective(s) != Neither
    ensures |r| < |s|
  {
    SkipSpaces(s)[if NextConnective(s) == And then 3 else 2..]
  }

  function ParseComparison(s: string): (p: Parse)
    ensures p.Parsed? ==> |p.rest| < |s|
  {
    var f := ReadWord(s);
    if f == "" then Failed else
    var s1 := SkipSpaces(s[|f|..]);
    if "=" <= s1 then
      ParseLiteral(SkipSpaces(s1[1..]), (cs: seq<LitChar>) => Equals(f, ValueOf(cs)))
    else if ReadWord(s1) == "LIKE" then
      ParseLiteral(SkipSpaces(s1[4..]), (cs: seq<LitChar>) => Like(f, PatternOf(cs)))
    else Failed
  }

  function ParseLiteral(s: string, build: seq<LitChar> -> Cond): (p: Parse)
    ensures p.Parsed? ==> |p.rest| < |s|
  {
    if !("'" <= s) then Failed else
    match ReadLiteral(s[1..])
    case Malformed => Failed
    case Read(cs, rest) => Parsed(build(cs), rest)
  }

  function ParseTerm(s: string): (p: Parse)
    ensures p.Parsed? ==> |p.rest| < |s|
    decreases |s|, 0
  {
    var s1 := SkipSpaces(s);
    if "(" <= s1 then
      match ParseCond(s1[1..])
      case Failed => Failed
      case Parsed(c, rest) =>
        var r := SkipSpaces(rest);
        if ")" <= r then Parsed(c, r[1..]) else Failed
    else ParseComparison(s1)
  }

  function ParseCond(s: string): (p: Parse)
    ensures p.Parsed? ==> |p.rest| < |s|
    decreases |s|, 1
  {
    match ParseTerm(s)
    case Failed => Failed
    case Parsed(c, rest) =>
      var op := NextConnective(rest);
      if op == Neither then Parsed(c, rest) else ParseChain(op, [c], rest)
  }

  /** The rest of a chain; SOQL allows no mixing of AND and OR without parentheses. */
  function ParseChain(op: Connective, acc: seq<Cond>, s: string): (p: Parse)
    requires op != Neither
    ensures p.Parsed? ==> |p.rest| <= |s|
    decreases |s|, 2
  {
    var next := NextConnective(s);
    if next == Neither then Parsed(if op == And then AllOf(acc) else AnyOf(acc), s)
    else if next != op then Failed
    else
      match ParseTerm(AfterConnective(s))
      case Failed => Failed
      case Parsed(c, rest) => ParseChain(op, acc + [c], rest)
  }

  // ---- parsing what the printers write ----

  /** The template `${field} = '${body}'`. */
  function EqualsText(field: string, body: string): string {
    field + " = '" + body + "'"
  }

  function EqualsParse(field: string, r: Reading): Parse {
    match r
    case Malformed => Failed
    case Read(cs, rest) => Parsed(Equals(field, ValueOf(cs)), rest)
  }

  /** A term that starts with a field name is a comparison of that field. */
  lemma TermIsComparison(field: string, tail: string)
    requires Word(field) && StartsNoWord(tail)
    ensures ParseTerm(field + tail) == ParseComparison(field + tail)
    ensures ReadWord(field + tail) == field && (field + tail)[|field|..] == tail
  {
    var s := field + tail;
    assert s[0] == field[0] && IsWordChar(field[0]);
    ReadWordIs(field, tail);
  }

  lemma EqualsAhead(u: string)
    ensures var eq := "= '" + u; SkipSpaces(" " + eq) == eq && "=" <= eq && SkipSpaces(eq[1..]) == "'" + u
  {
    var eq, q := "= '" + u, "'" + u;
    assert (" " + eq)[1..] == eq;
    assert eq[1..] == " " + q && (" " + q)[1..] == q;
  }

  lemma EqualsShape(field: string, u: string, body: string, rest: string)
    requires u == body + "'" + rest
    ensures EqualsText(field, body) + rest == field + (" " + ("= '" + u))
  {
    assert " = '" == " " + "= '";
  }

  /** A printed equality parses exactly as well as its literal reads. */
  lemma ParseEquals(field: string, body: string, rest: string)
    requires Word(field)
    ensures ParseTerm(EqualsText(field, body) + rest) == EqualsParse(field, ReadLiteral(body + "'" + rest))
  {
    var u := body + "'" + rest;
    var eq := "= '" + u;
    EqualsShape(field, u, body, rest);
    TermIsComparison(field, " " + eq);
    EqualsAhead(u);
  }

  /** The template `${field} LIKE '${body}'`. */
  function LikeText(field: string, body: string): string {
    field + " LIKE '" + body + "'"
  }

  function LikeParse(field: string, r: Reading): Parse {
    match r
    case Malformed => Failed
    case Read(cs, rest) => Parsed(Like(field, PatternOf(cs)), rest)
  }

  lemma LikeAhead(t: string)
    requires StartsNoWord(t)
    ensures SkipSpaces(" LIKE" + t) == "LIKE" + t && ReadWord("LIKE" + t) == "LIKE" && ("LIKE" + t)[4..] == t
    ensures !("=" <= "LIKE" + t)
  {
    assert (" LIKE" + t)[1..] == "LIKE" + t;
    ReadWordIs("LIKE", t);
  }

  lemma LikeComparison(s: string, field: string, like: string, u: string)
    requires ReadWord(s) == field != "" && SkipSpaces(s[|field|..]) == like
    requires !("=" <= like) && ReadWord(like) == "LIKE" && SkipSpaces(like[4..]) == "'" + u
    ensures ParseComparison(s) == LikeParse(field, ReadLiteral(u))
  {
    assert ("'" + u)[1..] == u;
  }

  lemma LikeShape(field: string, u: string, body: string, rest: string)
    requires u == body + "'" + rest
    ensures LikeText(field, body) + rest == field + (" LIKE" + (" '" + u))
  {
    assert " LIKE '" == " LIKE" + " '";
  }

  lemma ParseLike(field: string, body: string, rest: string)
    requires Word(field)
    ensures ParseTerm(LikeText(field, body) + rest) == LikeParse(field, ReadLiteral(body + "'" + rest))
  {
    var u := body + "'" + rest;
    var t := " '" + u;
    LikeShape(field, u, body, rest);
    TermIsComparison(field, " LIKE" + t);
    LikeAhead(t);
    LikeComparison(field + (" LIKE" + t), field, "LIKE" + t, u);
  }

  lemma OrAhead(s: string)
    ensures NextConnective(" OR " + s) == Or && AfterConnective(" OR " + s) == " " + s
    ensures ParseTerm(" " + s) == ParseTerm(s)
  {
    var t := "OR" + (" " + s);
    assert (" OR " + s)[1..] == t && SkipSpaces(t) == t;
    assert SkipSpaces(" OR " + s) == t;
    ReadWordIs("OR", " " + s);
    assert (" " + s)[1..] == s;
  }

  lemma AndAhead(s: string)
    ensures NextConnective(" AND " + s) == And && AfterConnective(" AND " + s) == " " + s
    ensures ParseTerm(" " + s) == ParseTerm(s)
  {
    var t := "AND" + (" " + s);
    assert (" AND " + s)[1..] == t && SkipSpaces(t) == t;
    assert SkipSpaces(" AND " + s) == t;
    ReadWordIs("AND", " " + s);
    assert (" " + s)[1..] == s;
  }

  lemma OrderAhead(s: string)
    ensures NextConnective(" ORDER" + (" " + s)) == Neither
  {
    var t := "ORDER" + (" " + s);
    assert (" ORDER" + (" " + s))[1..] == t && SkipSpaces(t) == t;
    assert SkipSpaces(" ORDER" + (" " + s)) == t;
    ReadWordIs("ORDER", " " + s);
  }
}
