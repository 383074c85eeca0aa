/** The literal sanitizer of the Salesforce client, and the reader of SOQL string literals that undoes it. */
module SoqlLiteral {
  import opened Text

  const MAX_LITERAL := 200

  // ---- the sanitizer, as written: a chain of global replaces, a filter and a cut ----

  /** `s.replace(/c/g, r)` for a single character. */
  function ReplaceAll(s: string, c: char, r: string): string {
    if s == "" then "" else (if s[0] == c then r else [s[0]]) + ReplaceAll(s[1..], c, r)
  }

  predicate IsControl(c: char) {
    c as int <= 0x1f
  }

  function StripControl(s: string): string {
    if s == "" then "" else (if IsControl(s[0]) then "" else [s[0]]) + StripControl(s[1..])
  }

  function Chain(s: string): string {
    StripControl(
      ReplaceAll(ReplaceAll(ReplaceAll(ReplaceAll(s, '\\', "\\\\"), '\'', "\\'"), '%', "\\%"), '_', "\\_"))
  }

  function Cut(s: string, n: nat): string {
    if |s| <= n then s else s[..n]
  }

  function Sanitize(s: string): string {
    Cut(Chain(s), MAX_LITERAL)
  }

  // ---- the same text in one pass ----

  predicate IsSpecial(c: char) {
    c == '\\' || c == '\'' || c == '%' || c == '_'
  }

  function EscapeChar(c: char): string {
    if IsControl(c) then "" else if IsSpecial(c) then ['\\', c] else [c]
  }

  function Escape(s: string): string {
    if s == "" then "" else EscapeChar(s[0]) + Escape(s[1..])
  }

  lemma {:induction false} ReplaceAllConcat(a: string, b: string, c: char, r: string)
    ensures ReplaceAll(a + b, c, r) == ReplaceAll(a, c, r) + ReplaceAll(b, c, r)
  {
    if a == "" {
      assert a + b == b;
    } else {
      assert (a + b)[1..] == a[1..] + b;
      ReplaceAllConcat(a[1..], b, c, r);
    }
  }

  lemma {:induction false} StripControlConcat(a: string, b: string)
    ensures StripControl(a + b) == StripControl(a) + StripControl(b)
  {
    if a == "" {
      assert a + b == b;
    } else {
      assert (a + b)[1..] == a[1..] + b;
      StripControlConcat(a[1..], b);
    }
  }

  lemma ReplaceAllShort(s: string, c: char, r: string)
    requires 1 <= |s| <= 2
    ensures |s| == 1 ==> ReplaceAll(s, c, r) == if s[0] == c then r else s
    ensures |s| == 2 ==> ReplaceAll(s, c, r) == (if s[0] == c then r else [s[0]]) + (if s[1] == c then r else [s[1]])
  {
    if |s| == 2 {
      assert s[1..] == [s[1]];
      ReplaceAllShort(s[1..], c, r);
    }
  }

  lemma StripControlShort(s: string)
    requires 1 <= |s| <= 2
    ensures |s| == 1 ==> StripControl(s) == if IsControl(s[0]) then "" else s
    ensures |s| == 2 && !IsControl(s[0]) && !IsControl(s[1]) ==> StripControl(s) == s
  {
    if |s| == 2 {
      assert s[1..] == [s[1]];
      StripControlShort(s[1..]);
    }
  }

  lemma ChainOfChar(c: char)
    ensures Chain([c]) == EscapeChar(c)
  {
    var s1 := ReplaceAll([c], '\\', "\\\\");
    ReplaceAllShort([c], '\\', "\\\\");
    var s2 := ReplaceAll(s1, '\'', "\\'");
    ReplaceAllShort(s1, '\'', "\\'");
    var s3 := ReplaceAll(s2, '%', "\\%");
    ReplaceAllShort(s2, '%', "\\%");
    var s4 := ReplaceAll(s3, '_', "\\_");
    ReplaceAllShort(s3, '_', "\\_");
    assert s4 == if IsSpecial(c) then ['\\', c] else [c];
    StripControlShort(s4);
  }

  lemma ChainConcat(a: string, b: string)
    ensures Chain(a + b) == Chain(a) + Chain(b)
  {
    var f1, g1 := ReplaceAll(a, '\\', "\\\\"), ReplaceAll(b, '\\', "\\\\");
    ReplaceAllConcat(a, b, '\\', "\\\\");
    var f2, g2 := ReplaceAll(f1, '\'', "\\'"), ReplaceAll(g1, '\'', "\\'");
    ReplaceAllConcat(f1, g1, '\'', "\\'");
    var f3, g3 := ReplaceAll(f2, '%', "\\%"), ReplaceAll(g2, '%', "\\%");
    ReplaceAllConcat(f2, g2, '%', "\\%");
    ReplaceAllConcat(f3, g3, '_', "\\_");
    StripControlConcat(ReplaceAll(f3, '_', "\\_"), ReplaceAll(g3, '_', "\\_"));
  }

  /** The order of the replaces is right: the chain escapes each character once and nothing twice. */
  lemma {:induction false} ChainIsOnePass(s: string)
    ensures Chain(s) == Escape(s)
  {
    if s == "" {
    } else {
      assert s == [s[0]] + s[1..];
      ChainConcat([s[0]], s[1..]);
      ChainOfChar(s[0]);
      ChainIsOnePass(s[1..]);
    }
  }

  // ---- reading a literal back ----

  /** A character of a literal, and whether a backslash preceded it. */
  datatype LitChar = LitChar(c: char, escaped: bool)

  datatype Reading = Malformed | Read(chars: seq<LitChar>, rest: string)

  /**
   * Reads the body of a literal whose opening quote has been consumed, up to and including the
   * closing quote. The escapes known are those for backslash, quote, `%` and `_`.
   */
  function ReadLiteral(t: string): (r: Reading)
    ensures r.Read? ==> |r.rest| < |t|
  {
    if t == "" then Malformed
    else if t[0] == '\'' then Read([], t[1..])
    else if t[0] == '\\' then
      if |t| >= 2 && IsSpecial(t[1]) then Prepend(LitChar(t[1], true), ReadLiteral(t[2..]))
      else Malformed
    else Prepend(LitChar(t[0], false), ReadLiteral(t[1..]))
  }

  function Prepend(c: LitChar, r: Reading): Reading {
    match r
    case Malformed => Malformed
    case Read(cs, rest) => Read([c] + cs, rest)
  }

  function PrependAll(cs: seq<LitChar>, r: Reading): Reading {
    match r
    case Malformed => Malformed
    case Read(ds, rest) => Read(cs + ds, rest)
  }

  /** What a literal denotes on the right of `=`. */
  function ValueOf(cs: seq<LitChar>): (v: string)
    ensures |v| == |cs| && forall i :: 0 <= i < |v| ==> v[i] == cs[i].c
  {
    if cs == [] then "" else [cs[0].c] + ValueOf(cs[1..])
  }

  /** The characters of `s` that survive, each marked escaped exactly when it is special. */
  function Marked(s: string): (cs: seq<LitChar>)
    ensures ValueOf(cs) == StripControl(s)
  {
    if s == "" then []
    else if IsControl(s[0]) then Marked(s[1..])
    else
      var cs := [LitChar(s[0], IsSpecial(s[0]))] + Marked(s[1..]);
      assert cs[1..] == Marked(s[1..]);
      cs
  }

  lemma PrependAssoc(c: LitChar, cs: seq<LitChar>, r: Reading)
    ensures Prepend(c, PrependAll(cs, r)) == PrependAll([c] + cs, r)
  {
    if r.Read? {
      assert [c] + (cs + r.chars) == [c] + cs + r.chars;
    }
  }

  lemma ReadEscapedChar(c: char, u: string)
    ensures ReadLiteral(EscapeChar(c) + u)
         == if IsControl(c) then ReadLiteral(u) else Prepend(LitChar(c, IsSpecial(c)), ReadLiteral(u))
  {
    var text := EscapeChar(c) + u;
    if IsControl(c) {
      assert text == u;
    } else if IsSpecial(c) {
      assert text[2..] == u;
    } else {
      assert text[1..] == u;
    }
  }

  /** Escaped text is transparent to the reader: it contributes its characters and leaves the state alone. */
  lemma {:induction false} ReadEscaped(s: string, t: string)
    ensures ReadLiteral(Escape(s) + t) == PrependAll(Marked(s), ReadLiteral(t))
  {
    if s == "" {
      assert Escape(s) + t == t;
      assert ReadLiteral(t).Read? ==> [] + ReadLiteral(t).chars == ReadLiteral(t).chars;
    } else {
      var u := Escape(s[1..]) + t;
      assert Escape(s) + t == EscapeChar(s[0]) + u;
      ReadEscapedChar(s[0], u);
      ReadEscaped(s[1..], t);
      PrependAssoc(LitChar(s[0], IsSpecial(s[0])), Marked(s[1..]), ReadLiteral(t));
    }
  }

  /** The escaped text is short enough not to be cut, a condition the caller can compute. */
  predicate Fits(s: string) {
    |Escape(s)| <= MAX_LITERAL
  }

  /** Undone by the reader: the literal closes where the printer closes it and denotes the input without control characters. */
  lemma SanitizeReadsBack(s: string, rest: string)
    requires Fits(s)
    ensures ReadLiteral(Sanitize(s) + "'" + rest) == Read(Marked(s), rest)
  {
    ChainIsOnePass(s);
    ReadEscaped(s, "'" + rest);
    assert Sanitize(s) + "'" + rest == Escape(s) + ("'" + rest);
    assert ("'" + rest)[1..] == rest;
    assert Marked(s) + [] == Marked(s);
  }

  // ---- inputs that are cut ----

  /** The longest prefix of `s` whose escaped text fits whole in `n` characters. */
  function Kept(s: string, n: nat): (p: string)
    ensures |p| <= |s| && p == s[..|p|]
    ensures |Escape(p)| <= n
  {
    if s == "" then ""
    else
      var e := |EscapeChar(s[0])|;
      if e <= n then
        var q := Kept(s[1..], n - e);
        assert ([s[0]] + q)[1..] == q;
        [s[0]] + q
      else ""
  }

  /** Whether the cut falls between a backslash and the character it escapes. */
  predicate Dangles(s: string, n: nat) {
    Cut(Escape(s), n) != Escape(Kept(s, n))
  }

  lemma CutConcat(a: string, b: string, n: nat)
    ensures |a| <= n ==> Cut(a + b, n) == a + Cut(b, n - |a|)
    ensures |a| > n ==> Cut(a + b, n) == Cut(a, n)
  {
  }

  /** A cut inside the escape of the first character keeps nothing, or the escape's backslash. */
  lemma CutInside(s: string, n: nat)
    requires s != "" && |EscapeChar(s[0])| > n
    ensures Kept(s, n) == "" && Cut(Escape(s), n) == (if Dangles(s, n) then "\\" else "")
  {
    CutConcat(EscapeChar(s[0]), Escape(s[1..]), n);
    assert Cut(Escape(s), n) == if n == 0 then "" else "\\";
  }

  /** A cut after the escape of the first character cuts the rest. */
  lemma CutAfter(s: string, n: nat)
    requires s != "" && |EscapeChar(s[0])| <= n
    ensures var m := n - |EscapeChar(s[0])|;
            && Cut(Escape(s), n) == EscapeChar(s[0]) + Cut(Escape(s[1..]), m)
            && Escape(Kept(s, n)) == EscapeChar(s[0]) + Escape(Kept(s[1..], m))
            && |Kept(s, n)| == 1 + |Kept(s[1..], m)|
  {
    CutConcat(EscapeChar(s[0]), Escape(s[1..]), n);
    var q := Kept(s[1..], n - |EscapeChar(s[0])|);
    assert Kept(s, n) == [s[0]] + q && ([s[0]] + q)[1..] == q;
  }

  lemma SameFront(e: string, x: string, y: string)
    ensures e + x == e + y <==> x == y
  {
    assert (e + x)[|e|..] == x && (e + y)[|e|..] == y;
  }

  lemma DanglesAfter(s: string, n: nat)
    requires s != "" && |EscapeChar(s[0])| <= n
    ensures Dangles(s, n) <==> Dangles(s[1..], n - |EscapeChar(s[0])|)
  {
    var m := n - |EscapeChar(s[0])|;
    CutAfter(s, n);
    SameFront(EscapeChar(s[0]), Cut(Escape(s[1..]), m), Escape(Kept(s[1..], m)));
  }

  lemma JoinFront(e: string, x: string, y: string, t: string)
    requires x == y + t
    ensures e + x == e + y + t
  {
  }

  lemma {:induction false} CutText(s: string, n: nat)
    ensures Cut(Escape(s), n) == Escape(Kept(s, n)) + (if Dangles(s, n) then "\\" else "")
  {
    if s != "" {
      var e := EscapeChar(s[0]);
      if |e| <= n {
        CutAfter(s, n);
        DanglesAfter(s, n);
        CutText(s[1..], n - |e|);
        JoinFront(e, Cut(Escape(s[1..]), n - |e|), Escape(Kept(s[1..], n - |e|)), if Dangles(s, n) then "\\" else "");
      } else {
        CutInside(s, n);
      }
    }
  }

  /** Everything is kept if and only if the escaped text fits. */
  lemma {:induction false} KeptAllIff(s: string, n: nat)
    ensures |Escape(s)| <= n ==> Kept(s, n) == s
    ensures |Escape(s)| > n ==> |Kept(s, n)| < |s|
  {
    if s != "" && |EscapeChar(s[0])| <= n {
      KeptAllIff(s[1..], n - |EscapeChar(s[0])|);
      assert [s[0]] + s[1..] == s;
    }
  }

  lemma CutShape(s: string, n: nat)
    ensures Cut(Escape(s), n) == Escape(Kept(s, n)) + (if Dangles(s, n) then "\\" else "")
    ensures |Escape(s)| <= n ==> Kept(s, n) == s && !Dangles(s, n)
    ensures |Escape(s)| > n ==> |Kept(s, n)| < |s|
  {
    CutText(s, n);
    KeptAllIff(s, n);
  }

  /** The first character not kept is one whose escape does not fit. */
  lemma {:induction false} NextIsTooLong(s: string, n: nat)
    requires |Kept(s, n)| < |s|
    ensures |Escape(Kept(s, n))| + |EscapeChar(s[|Kept(s, n)|])| > n
  {
    if |EscapeChar(s[0])| <= n {
      CutAfter(s, n);
      NextIsTooLong(s[1..], n - |EscapeChar(s[0])|);
    }
  }

  /**
   * The cut splits an escape exactly when one place is left after the characters kept and the next one is special: a test on
   * the input alone.
   */
  lemma DanglesIff(s: string, n: nat)
    ensures Dangles(s, n) <==>
            |Kept(s, n)| < |s| && |Escape(Kept(s, n))| == n - 1 && IsSpecial(s[|Kept(s, n)|])
  {
    CutShape(s, n);
    if |Kept(s, n)| < |s| {
      NextIsTooLong(s, n);
    }
  }

  /**
   * The whole behaviour of the sanitizer on inputs of any length. A cut that falls inside an escape
   * leaves one unpaired backslash, which escapes whatever character the printer writes next.
   */
  lemma SanitizeShape(s: string)
    ensures var p := Kept(s, MAX_LITERAL);
            Sanitize(s) == Escape(p) + (if Dangles(s, MAX_LITERAL) then "\\" else "") &&
            p <= s && |Sanitize(s)| <= MAX_LITERAL &&
            (Fits(s) ==> p == s && !Dangles(s, MAX_LITERAL))
  {
    ChainIsOnePass(s);
    CutShape(s, MAX_LITERAL);
  }

  lemma {:induction false} NoQuoteNeverCloses(t: string)
    requires !Includes(t, "'")
    ensures ReadLiteral(t).Malformed?
    decreases |t|
  {
    if t == "" || t[0] == '\'' {
    } else if t[0] == '\\' && |t| >= 2 {
      assert !Includes(t[1..], "'");
      assert t[1..][1..] == t[2..];
      NoQuoteNeverCloses(t[2..]);
    } else {
      NoQuoteNeverCloses(t[1..]);
    }
  }

  /** A literal whose cut split no escape is read to its closing quote, and denotes what was kept. */
  lemma SanitizedReads(s: string, rest: string)
    requires !Dangles(s, MAX_LITERAL)
    ensures ReadLiteral(Sanitize(s) + "'" + rest) == Read(Marked(Kept(s, MAX_LITERAL)), rest)
  {
    var p, close := Kept(s, MAX_LITERAL), "'" + rest;
    SanitizeShape(s);
    assert Sanitize(s) + "'" + rest == Escape(p) + close;
    ReadEscaped(p, close);
    assert close[1..] == rest;
    assert Marked(p) + [] == Marked(p);
  }

  lemma PrependLast(cs: seq<LitChar>, c: LitChar, r: Reading)
    ensures PrependAll(cs, Prepend(c, r)) == PrependAll(cs + [c], r)
  {
    if r.Read? {
      assert cs + ([c] + r.chars) == cs + [c] + r.chars;
    }
  }

  /** After a cut inside an escape the printed quote is one more character, and the literal runs on into what follows. */
  lemma DanglingRunsOn(s: string, rest: string)
    requires Dangles(s, MAX_LITERAL)
    ensures ReadLiteral(Sanitize(s) + "'" + rest)
         == PrependAll(Marked(Kept(s, MAX_LITERAL)) + [LitChar('\'', true)], ReadLiteral(rest))
  {
    var p, t := Kept(s, MAX_LITERAL), "\\'" + rest;
    SanitizeShape(s);
    assert Sanitize(s) + "'" + rest == Escape(p) + t;
    ReadEscaped(p, t);
    assert t[2..] == rest;
    PrependLast(Marked(p), LitChar('\'', true), ReadLiteral(rest));
  }

  /**
   * The literal is read to the printed closing quote, as what was kept of the value, if and only if the cut split no
   * escape. After such a cut its value is longer whatever follows, and with no quote to follow it never closes.
   */
  lemma ClosesIffNotDangling(s: string, rest: string)
    ensures ReadLiteral(Sanitize(s) + "'" + rest) == Read(Marked(Kept(s, MAX_LITERAL)), rest) <==> !Dangles(s, MAX_LITERAL)
    ensures ReadsAs(ReadLiteral(Sanitize(s) + "'" + rest), StripControl(Kept(s, MAX_LITERAL))) <==> !Dangles(s, MAX_LITERAL)
    ensures !Includes(rest, "'") ==> (ReadLiteral(Sanitize(s) + "'" + rest).Read? <==> !Dangles(s, MAX_LITERAL))
  {
    if Dangles(s, MAX_LITERAL) {
      DanglingRunsOn(s, rest);
      if !Includes(rest, "'") {
        NoQuoteNeverCloses(rest);
      }
    } else {
      SanitizedReads(s, rest);
    }
  }

  /** 199 plain characters and a quote: the cut really does split an escape. */
  lemma CutCanSplitAnEscape()
    ensures exists s :: Dangles(s, MAX_LITERAL)
  {
    var a := seq(199, i => 'a');
    var s := a + "'";
    PlainEscape(a, "'");
    assert Escape("'") == EscapeChar('\'') + Escape("");
    assert Escape(s) == a + "\\'";
    CutShape(s, MAX_LITERAL);
    PlainEscape(Kept(s, MAX_LITERAL), "");
    assert Kept(s, MAX_LITERAL) + "" == Kept(s, MAX_LITERAL);
  }

  lemma {:induction false} PlainEscape(a: string, b: string)
    requires forall i :: 0 <= i < |a| ==> !IsSpecial(a[i]) && !IsControl(a[i])
    ensures Escape(a + b) == a + Escape(b)
  {
    if a == "" {
      assert a + b == b;
    } else {
      assert (a + b)[1..] == a[1..] + b;
      PlainEscape(a[1..], b);
    }
  }

  // ---- values interpolated raw ----

  /** No character the reader treats specially outside a LIKE pattern. */
  predicate Clean(v: string) {
    forall i :: 0 <= i < |v| ==> v[i] != '\'' && v[i] != '\\'
  }

  function Unmarked(v: string): (cs: seq<LitChar>)
    ensures ValueOf(cs) == v
  {
    if v == "" then []
    else
      var cs := [LitChar(v[0], false)] + Unmarked(v[1..]);
      assert cs[1..] == Unmarked(v[1..]);
      cs
  }

  lemma {:induction false} ReadRaw(v: string, t: string)
    requires Clean(v)
    ensures ReadLiteral(v + t) == PrependAll(Unmarked(v), ReadLiteral(t))
  {
    if v == "" {
      assert v + t == t;
    } else {
      assert (v + t)[1..] == v[1..] + t;
      ReadRaw(v[1..], t);
      if ReadLiteral(t).Read? {
        assert Unmarked(v) + ReadLiteral(t).chars
            == [LitChar(v[0], false)] + (Unmarked(v[1..]) + ReadLiteral(t).chars);
      }
    }
  }

  /** A value pasted unescaped between quotes is read back as itself if and only if it has no quote and no backslash. */
  lemma RawReadsBackIffClean(v: string, rest: string)
    ensures Clean(v) ==> ReadLiteral(v + "'" + rest) == Read(Unmarked(v), rest)
    ensures ReadsAs(ReadLiteral(v + "'" + rest), v) <==> Clean(v)
  {
    assert v + "'" + rest == v + ("'" + rest);
    if Clean(v) {
      ReadRaw(v, "'" + rest);
      assert ("'" + rest)[1..] == rest;
      assert Unmarked(v) + [] == Unmarked(v);
    } else {
      UncleanNeverReadsBack(v, rest);
    }
  }

  predicate ReadsAs(r: Reading, v: string) {
    r.Read? && ValueOf(r.chars) == v
  }

  lemma UncleanNeverReadsBack(v: string, rest: string)
    requires !Clean(v)
    ensures !ReadsAs(ReadLiteral(v + ("'" + rest)), v)
  {
    var k := FirstUnclean(v);
    var w, u := v[k..], Unmarked(v[..k]);
    var t := w + ("'" + rest);
    assert v + ("'" + rest) == v[..k] + t;
    ReadRaw(v[..k], t);
    var r := ReadLiteral(t);
    if r.Read? {
      ValueOfConcat(u, r.chars);
      assert v == v[..k] + w;
      if v[k] != '\'' {
        BackslashRunFails(w, 0, t, rest);
      }
    }
  }

  lemma {:induction false} ValueOfConcat(a: seq<LitChar>, b: seq<LitChar>)
    ensures ValueOf(a + b) == ValueOf(a) + ValueOf(b)
  {
    if a == [] {
      assert a + b == b;
    } else {
      assert (a + b)[1..] == a[1..] + b;
      ValueOfConcat(a[1..], b);
    }
  }

  lemma FirstUnclean(v: string) returns (k: nat)
    requires !Clean(v)
    ensures k < |v| && Clean(v[..k]) && (v[k] == '\'' || v[k] == '\\')
  {
    k := 0;
    while v[k] != '\'' && v[k] != '\\'
      invariant k < |v| && Clean(v[..k])
      invariant exists i :: k <= i < |v| && (v[i] == '\'' || v[i] == '\\')
      decreases |v| - k
    {
      k := k + 1;
    }
  }

  /**
   * Once the reader has consumed one backslash of `w` it is behind: `2 * j` characters consumed give
   * `j` characters of value, so agreement with `w` forces every character consumed to be a backslash.
   */
  lemma {:induction false} BackslashRunFails(w: string, j: nat, t: string, rest: string)
    requires w != "" && w[0] == '\\'
    requires 2 * j <= |w| && forall i :: 0 <= i < 2 * j ==> w[i] == '\\'
    requires t == w[2 * j..] + ("'" + rest)
    ensures !ReadsAs(ReadLiteral(t), w[j..])
    decreases |w| - j
  {
    assert t[0] == if 2 * j == |w| then '\'' else w[2 * j];
    assert 2 * j == |w| ==> j < |w|;
    assert j < |w| && w[j] == '\\';
    if t[0] == '\\' && t[1] == '\\' {
      assert 2 * j + 1 < |w| && w[2 * j + 1] == t[1];
      assert t[2..] == w[2 * (j + 1)..] + ("'" + rest);
      BackslashRunFails(w, j + 1, t[2..], rest);
      var next := ReadLiteral(t[2..]);
      if next.Read? {
        assert ([LitChar('\\', true)] + next.chars)[1..] == next.chars;
        assert w[j..][1..] == w[j + 1..];
      }
    } else {
      assert w[j..][0] == '\\';
    }
  }

  // ---- raw values that read to the printed quote all the same ----

  /** No quote is bare and every backslash starts an escape the reader knows. */
  predicate WellEscaped(v: string) {
    v == "" ||
    if v[0] == '\\' then |v| >= 2 && IsSpecial(v[1]) && WellEscaped(v[2..])
    else v[0] != '\'' && WellEscaped(v[1..])
  }

  /** No quote is bare: each follows a backslash that is not itself escaped. */
  predicate NoBareQuote(v: string) {
    v == "" ||
    if v[0] == '\\' then |v| < 2 || NoBareQuote(v[2..])
    else v[0] != '\'' && NoBareQuote(v[1..])
  }

  /** The characters such a value is read as. */
  function RawChars(v: string): seq<LitChar>
    requires WellEscaped(v)
  {
    if v == "" then []
    else if v[0] == '\\' then [LitChar(v[1], true)] + RawChars(v[2..])
    else [LitChar(v[0], false)] + RawChars(v[1..])
  }

  lemma {:induction false} ReadWellEscaped(v: string, t: string)
    requires WellEscaped(v)
    ensures ReadLiteral(v + t) == PrependAll(RawChars(v), ReadLiteral(t))
    decreases |v|
  {
    if v == "" {
      assert v + t == t;
      assert ReadLiteral(t).Read? ==> [] + ReadLiteral(t).chars == ReadLiteral(t).chars;
    } else if v[0] == '\\' {
      assert (v + t)[2..] == v[2..] + t;
      ReadWellEscaped(v[2..], t);
      PrependAssoc(LitChar(v[1], true), RawChars(v[2..]), ReadLiteral(t));
    } else {
      assert (v + t)[1..] == v[1..] + t;
      ReadWellEscaped(v[1..], t);
      PrependAssoc(LitChar(v[0], false), RawChars(v[1..]), ReadLiteral(t));
    }
  }

  lemma WellEscapedCloses(v: string, rest: string)
    requires WellEscaped(v)
    ensures ReadLiteral(v + "'" + rest) == Read(RawChars(v), rest)
  {
    assert v + "'" + rest == v + ("'" + rest);
    ReadWellEscaped(v, "'" + rest);
    assert ("'" + rest)[1..] == rest;
    assert RawChars(v) + [] == RawChars(v);
  }

  /** It is read as itself if and only if it needs no escaping at all. */
  lemma {:induction false} WellEscapedValueIff(v: string)
    requires WellEscaped(v)
    ensures |ValueOf(RawChars(v))| <= |v|
    ensures |ValueOf(RawChars(v))| == |v| <==> Clean(v)
    ensures Clean(v) ==> ValueOf(RawChars(v)) == v
    decreases |v|
  {
    if v == "" {
    } else if v[0] == '\\' {
      WellEscapedValueIff(v[2..]);
      assert ([LitChar(v[1], true)] + RawChars(v[2..]))[1..] == RawChars(v[2..]);
    } else {
      WellEscapedValueIff(v[1..]);
      assert ([LitChar(v[0], false)] + RawChars(v[1..]))[1..] == RawChars(v[1..]);
      assert v == [v[0]] + v[1..];
      CleanTail(v);
    }
  }

  lemma CleanTail(v: string)
    requires v != ""
    ensures Clean(v) <==> v[0] != '\'' && v[0] != '\\' && Clean(v[1..])
  {
    assert forall i :: 0 < i < |v| ==> v[i] == v[1..][i - 1];
  }

  lemma {:induction false} CleanIsWellEscaped(v: string)
    requires Clean(v)
    ensures WellEscaped(v)
  {
    if v != "" {
      CleanTail(v);
      CleanIsWellEscaped(v[1..]);
    }
  }
}
