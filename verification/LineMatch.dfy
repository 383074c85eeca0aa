/** Unanchored regular expressions of the form `/tag(.+)/` and `/tag(\d+)ms/` over a text made of lines. */
module LineMatch {
  import opened Text

  datatype Pattern = Pattern(tag: string, millis: bool)

  function LeadingDigits(s: string): (d: string)
    ensures |d| <= |s| && forall c :: c in d ==> IsDigit(c)
  {
    if s == "" || !IsDigit(s[0]) then "" else [s[0]] + LeadingDigits(s[1..])
  }

  /** What the group captures when the tag has just been matched. */
  function Capture(p: Pattern, s: string): Option<string> {
    if p.millis then
      var d := LeadingDigits(s);
      if d != "" && |d| + 2 <= |s| && s[|d|] == 'm' && s[|d| + 1] == 's' then Some(d) else None
    else if Line(s) != "" then Some(Line(s))
    else None
  }

  /** `s.match(p)?.[1]` */
  function Match(p: Pattern, s: string): Option<string> {
    if p.tag <= s && Capture(p, s[|p.tag|..]).Some? then Capture(p, s[|p.tag|..])
    else if s == "" then None
    else Match(p, s[1..])
  }

  function Or<T>(a: Option<T>, b: Option<T>): Option<T> {
    if a.Some? then a else b
  }

  // ---- matches never cross a line ----

  lemma {:induction false} LineLength(s: string)
    ensures |Line(s)| <= |s|
  {
    if Line(s) != "" {
      LineLength(s[1..]);
    }
  }

  lemma {:induction false} LineStops(a: string, b: string)
    ensures Line(a + "\n" + b) == Line(a)
  {
    if a != "" {
      assert (a + "\n" + b)[1..] == a[1..] + "\n" + b;
      LineStops(a[1..], b);
    }
  }

  lemma {:induction false} DigitsStop(a: string, b: string)
    ensures LeadingDigits(a + "\n" + b) == LeadingDigits(a)
  {
    if a != "" {
      assert (a + "\n" + b)[1..] == a[1..] + "\n" + b;
      DigitsStop(a[1..], b);
    }
  }

  lemma CaptureStops(p: Pattern, a: string, b: string)
    ensures Capture(p, a + "\n" + b) == Capture(p, a)
  {
    LineStops(a, b);
    DigitsStop(a, b);
  }

  lemma TagInFirstLine(tag: string, a: string, b: string)
    requires '\n' !in tag
    ensures tag <= a + "\n" + b <==> tag <= a
    ensures tag <= a ==> (a + "\n" + b)[|tag|..] == a[|tag|..] + "\n" + b
  {
    assert (a + "\n" + b)[|a|] == '\n';
  }

  /** The first match in a text is the first match in its first line, or else the first in the other lines. */
  lemma {:induction false} MatchAcrossLine(p: Pattern, a: string, b: string)
    requires p.tag != "" && '\n' !in p.tag
    ensures Match(p, a + "\n" + b) == Or(Match(p, a), Match(p, b))
  {
    TagInFirstLine(p.tag, a, b);
    if p.tag <= a {
      CaptureStops(p, a[|p.tag|..], b);
    }
    if a == "" {
      assert ("\n" + b)[1..] == b;
    } else {
      assert (a + "\n" + b)[1..] == a[1..] + "\n" + b;
      MatchAcrossLine(p, a[1..], b);
    }
  }

  // ---- where a match can lie ----

  /** Tags look like `Word: `, with no blank before the last character. */
  predicate IsTag(t: string) {
    |t| >= 2 && t[|t| - 1] == ' ' && t[|t| - 2] == ':' && ' ' !in t[..|t| - 1] && '\n' !in t
  }

  /** Two tags that differ at distance `k` from their ends. */
  predicate Differ(s: string, t: string, k: nat) {
    0 < k <= |s| && k <= |t| && s[|s| - k] != t[|t| - k]
  }

  lemma TagNotAt(tag: string, other: string, k: nat, i: nat, v: string)
    requires IsTag(tag) && IsTag(other) && Differ(tag, other, k) && i < |other|
    ensures !(tag <= other[i..] + v)
  {
    var w, n := other[i..] + v, |other| - i;
    if |tag| > n {
      assert w[n - 1] == ' ';
      assert tag[n - 1] in tag[..|tag| - 1];
    } else if |tag| < n {
      assert w[|tag| - 1] == other[i + |tag| - 1];
      assert other[i + |tag| - 1] in other[..|other| - 1];
    } else {
      assert w[n - k] == other[|other| - k];
    }
  }

  /** A pattern cannot match in, or across the end of, another tag. */
  lemma {:induction false} MatchAfterOtherTag(p: Pattern, other: string, k: nat, i: nat, v: string)
    requires IsTag(p.tag) && IsTag(other) && Differ(p.tag, other, k) && i <= |other|
    ensures Match(p, other[i..] + v) == Match(p, v)
    decreases |other| - i
  {
    if i == |other| {
      assert other[i..] + v == v;
    } else {
      TagNotAt(p.tag, other, k, i, v);
      assert (other[i..] + v)[1..] == other[i + 1..] + v;
      MatchAfterOtherTag(p, other, k, i + 1, v);
    }
  }

  lemma {:induction false} MatchIsShorter(p: Pattern, s: string)
    ensures Match(p, s).Some? ==> |p.tag| + |Match(p, s).value| <= |s|
  {
    if p.tag <= s && Capture(p, s[|p.tag|..]).Some? {
      LineLength(s[|p.tag|..]);
    } else if s != "" {
      MatchIsShorter(p, s[1..]);
    }
  }

  lemma {:induction false} MatchNeedsTag(p: Pattern, s: string)
    ensures Match(p, s).Some? ==> Includes(s, p.tag)
  {
    if !(p.tag <= s && Capture(p, s[|p.tag|..]).Some?) && s != "" {
      MatchNeedsTag(p, s[1..]);
    }
  }

  /** A text in which no blank follows a colon cannot be matched. */
  predicate HasColonBlank(s: string) {
    |s| >= 2 && ((s[0] == ':' && s[1] == ' ') || HasColonBlank(s[1..]))
  }

  lemma {:induction false} TagHasColonBlank(s: string, n: nat)
    requires 2 <= n <= |s| && s[n - 2] == ':' && s[n - 1] == ' '
    ensures HasColonBlank(s)
  {
    if n > 2 {
      TagHasColonBlank(s[1..], n - 1);
    }
  }

  lemma {:induction false} MatchNeedsColonBlank(p: Pattern, s: string)
    requires IsTag(p.tag)
    ensures Match(p, s).Some? ==> HasColonBlank(s)
  {
    if p.tag <= s {
      TagHasColonBlank(s, |p.tag|);
    } else if s != "" {
      MatchNeedsColonBlank(p, s[1..]);
    }
  }

  // ---- the pattern's own line ----

  lemma {:induction false} MatchInsideTag(p: Pattern, i: nat, v: string)
    requires IsTag(p.tag) && 0 < i <= |p.tag|
    ensures Match(p, p.tag[i..] + v) == Match(p, v)
    decreases |p.tag| - i
  {
    var s := p.tag[i..] + v;
    if i == |p.tag| {
      assert s == v;
    } else {
      assert s[|p.tag| - i - 1] == ' ';
      assert p.tag[|p.tag| - i - 1] in p.tag[..|p.tag| - 1];
      assert s[1..] == p.tag[i + 1..] + v;
      MatchInsideTag(p, i + 1, v);
    }
  }

  /** When the tag is not followed by anything to capture, the line is read as its value would be. */
  lemma MatchWithoutCapture(p: Pattern, v: string)
    requires IsTag(p.tag) && Capture(p, v).None?
    ensures Match(p, p.tag + v) == Match(p, v)
  {
    assert (p.tag + v)[|p.tag|..] == v;
    assert (p.tag + v)[1..] == p.tag[1..] + v;
    MatchInsideTag(p, 1, v);
  }

  /** A printed value is read back whole exactly when it has no line terminator. */
  lemma OwnLineReadsBackIff(tag: string, v: string)
    requires IsTag(tag) && v != ""
    ensures Match(Pattern(tag, false), tag + v) == Some(v) <==> Line(v) == v
  {
    var p := Pattern(tag, false);
    if Line(v) != "" {
    } else {
      MatchWithoutCapture(p, v);
      MatchIsShorter(p, v);
    }
  }

  lemma {:induction false} DigitsOf(d: string, rest: string)
    requires forall c :: c in d ==> IsDigit(c)
    requires rest != "" && !IsDigit(rest[0])
    ensures LeadingDigits(d + rest) == d
  {
    if d == "" {
      assert d + rest == rest;
    } else {
      assert d[0] in d;
      assert (d + rest)[1..] == d[1..] + rest;
      DigitsOf(d[1..], rest);
    }
  }

  lemma MillisReadBack(tag: string, d: string)
    requires d != "" && forall c :: c in d ==> IsDigit(c)
    ensures Match(Pattern(tag, true), tag + (d + "ms")) == Some(d)
  {
    DigitsOf(d, "ms");
  }
}
