/** String operations of the JavaScript runtime that the modelled code relies on. */
module Text {

  datatype Option<+T> = None | Some(value: T)

  /** JavaScript truthiness of a nullable string: neither null nor empty. */
  predicate Truthy(o: Option<string>) {
    o.Some? && o.value != ""
  }

  function OrElse(o: Option<string>, default: string): string {
    if Truthy(o) then o.value else default
  }

  // ---- substring search ----

  /** `s.includes(sub)` */
  predicate Includes(s: string, sub: string) {
    sub <= s || (|s| > 0 && Includes(s[1..], sub))
  }

  lemma IncludesAt(s: string, sub: string, i: nat)
    requires i <= |s| && sub <= s[i..]
    ensures Includes(s, sub)
  {
    if i == 0 {
      assert s[0..] == s;
    } else {
      assert s[i..] == s[1..][i - 1..];
      IncludesAt(s[1..], sub, i - 1);
    }
  }

  lemma IncludesWhere(s: string, sub: string) returns (i: nat)
    requires Includes(s, sub)
    ensures i <= |s| && sub <= s[i..]
  {
    if sub <= s {
      i := 0;
      assert s[0..] == s;
    } else {
      var j := IncludesWhere(s[1..], sub);
      i := j + 1;
      assert s[i..] == s[1..][j..];
    }
  }

  /** The first position of `sub` in `s`, or None. */
  function IndexOf(s: string, sub: string): (r: Option<nat>)
    ensures r.Some? ==> r.value + |sub| <= |s|
  {
    if sub <= s then Some(0)
    else if s == "" then None
    else
      match IndexOf(s[1..], sub)
      case None => None
      case Some(i) => Some(i + 1)
  }

  lemma {:induction false} IndexOfFound(s: string, sub: string)
    ensures IndexOf(s, sub).Some? <==> Includes(s, sub)
    ensures IndexOf(s, sub).Some? ==> sub <= s[IndexOf(s, sub).value..]
  {
    if sub <= s {
      assert s[0..] == s;
    } else if s != "" {
      IndexOfFound(s[1..], sub);
      if IndexOf(s, sub).Some? {
        assert s[IndexOf(s, sub).value..] == s[1..][IndexOf(s[1..], sub).value..];
      }
    }
  }

  /** No occurrence comes before the position found. */
  lemma {:induction false} IndexOfAtMost(s: string, sub: string, i: nat)
    requires i <= |s| && sub <= s[i..]
    ensures IndexOf(s, sub).Some? && IndexOf(s, sub).value <= i
  {
    if i == 0 {
      assert s[0..] == s;
    } else {
      assert s[i..] == s[1..][i - 1..];
      IndexOfAtMost(s[1..], sub, i - 1);
    }
  }

  /** The position found is the only one with the property that characterises it. */
  lemma {:induction false} IndexOfIs(s: string, sub: string, k: nat)
    requires k <= |s| && sub <= s[k..]
    requires forall j :: 0 <= j < k ==> !(sub <= s[j..])
    ensures IndexOf(s, sub) == Some(k)
  {
    IndexOfAtMost(s, sub, k);
    IndexOfFound(s, sub);
  }

  /** `s.split(c)` for a single character. */
  function SplitOn(s: string, c: char): (parts: seq<string>)
    ensures |parts| >= 1
  {
    if s == "" then [""]
    else
      var rest := SplitOn(s[1..], c);
      if s[0] == c then [""] + rest else [[s[0]] + rest[0]] + rest[1..]
  }

  /** Splitting loses nothing, and the first part ends at the first separator. */
  lemma {:induction false} SplitOnHead(a: string, c: char, b: string)
    requires c !in a
    ensures SplitOn(a + [c] + b, c) == [a] + SplitOn(b, c)
  {
    var s := a + [c] + b;
    if a == "" {
      assert s[1..] == b;
    } else {
      assert s[1..] == a[1..] + [c] + b;
      SplitOnHead(a[1..], c, b);
      assert a == [a[0]] + a[1..];
      assert SplitOn(s, c) == [[a[0]] + a[1..]] + SplitOn(b, c);
    }
  }

  lemma {:induction false} JoinSplit(s: string, c: char)
    ensures Join(SplitOn(s, c), [c]) == s
  {
    if s != "" {
      var rest := SplitOn(s[1..], c);
      JoinSplit(s[1..], c);
      if s[0] == c {
        assert ([""] + rest)[1..] == rest;
      } else {
        var parts := [[s[0]] + rest[0]] + rest[1..];
        assert parts[1..] == rest[1..];
      }
      assert s == [s[0]] + s[1..];
    }
  }

  /** `s.split(sep)` for a separator of any length. */
  function Split(s: string, sep: string): (parts: seq<string>)
    requires sep != ""
    ensures |parts| >= 1
  {
    match IndexOf(s, sep)
    case None => [s]
    case Some(i) => [s[..i]] + Split(s[i + |sep|..], sep)
  }

  /** `s.replace(sub, "")`: the first occurrence goes. */
  function RemoveFirst(s: string, sub: string): string {
    match IndexOf(s, sub)
    case None => s
    case Some(i) => s[..i] + s[i + |sub|..]
  }

  /** `xs.join(sep)` */
  function Join(xs: seq<string>, sep: string): string {
    if xs == [] then "" else if |xs| == 1 then xs[0] else xs[0] + sep + Join(xs[1..], sep)
  }

  // ---- regular expressions made of literals ----

  function LowerChar(c: char): char {
    if 'A' <= c <= 'Z' then (c as int + 32) as char else c
  }

  function Lower(s: string): (r: string)
    ensures |r| == |s| && forall i :: 0 <= i < |r| ==> r[i] == LowerChar(s[i])
  {
    seq(|s|, i requires 0 <= i < |s| => LowerChar(s[i]))
  }

  /** `/w1|w2|.../i.test(s)` for lower-case ASCII words. */
  predicate Mentions(s: string, words: seq<string>) {
    exists i :: 0 <= i < |words| && Includes(Lower(s), words[i])
  }

  /** The part of `s` a `.*` can run over. */
  function Line(s: string): string {
    if s == "" || s[0] == '\n' || s[0] == '\r' || s[0] == '\U{2028}' || s[0] == '\U{2029}' then ""
    else [s[0]] + Line(s[1..])
  }

  /** `/a.*b/.test(s)` */
  predicate MentionsThen(s: string, a: string, b: string) {
    (a <= s && Includes(Line(s[|a|..]), b)) || (s != "" && MentionsThen(s[1..], a, b))
  }

  // ---- array search ----

  /** `xs.find(p)` */
  function Find<T>(xs: seq<T>, p: T -> bool): (r: Option<T>)
    ensures r.Some? ==> r.value in xs && p(r.value)
    ensures r.None? ==> forall i :: 0 <= i < |xs| ==> !p(xs[i])
  {
    if xs == [] then None else if p(xs[0]) then Some(xs[0]) else Find(xs[1..], p)
  }

  lemma {:induction false} FindFrom<T>(xs: seq<T>, i: nat, p: T -> bool)
    requires i <= |xs| && forall j :: 0 <= j < i ==> !p(xs[j])
    ensures Find(xs, p) == Find(xs[i..], p)
  {
    if i > 0 {
      FindFrom(xs[1..], i - 1, p);
      assert xs[1..][i - 1..] == xs[i..];
    } else {
      assert xs[0..] == xs;
    }
  }

  /** The element found is the first one with the property. */
  lemma FindIs<T>(xs: seq<T>, i: nat, p: T -> bool)
    requires i < |xs| && p(xs[i]) && forall j :: 0 <= j < i ==> !p(xs[j])
    ensures Find(xs, p) == Some(xs[i])
  {
    FindFrom(xs, i, p);
  }

  /** Where it was found. */
  lemma {:induction false} FindWhere<T>(xs: seq<T>, p: T -> bool) returns (i: nat)
    requires Find(xs, p).Some?
    ensures i < |xs| && Find(xs, p) == Some(xs[i]) && p(xs[i]) && forall j :: 0 <= j < i ==> !p(xs[j])
  {
    if p(xs[0]) {
      i := 0;
    } else {
      var k := FindWhere(xs[1..], p);
      i := k + 1;
      assert forall j :: 0 < j < i ==> xs[j] == xs[1..][j - 1];
    }
  }

  /** Places in a list, from first to last. */
  predicate Increasing(at: seq<nat>) {
    forall i, j :: 0 <= i < j < |at| ==> at[i] < at[j]
  }

  // ---- numbers ----

  /** `Number(b)` */
  function Bit(b: bool): nat {
    if b then 1 else 0
  }

  function Digit(d: nat): char
    requires d < 10
  {
    ('0' as int + d) as char
  }

  predicate IsDigit(c: char) {
    '0' <= c <= '9'
  }

  function Decimal(n: nat): (s: string)
    ensures s != ""
    ensures forall c :: c in s ==> IsDigit(c)
  {
    if n < 10 then [Digit(n)] else Decimal(n / 10) + [Digit(n % 10)]
  }

  /** `parseInt` on a run of digits. */
  function ParseNat(s: string): nat
    requires forall c :: c in s ==> IsDigit(c)
  {
    if s == "" then 0
    else
      var last := s[|s| - 1];
      assert last in s && IsDigit(last);
      10 * ParseNat(s[..|s| - 1]) + (last as int - '0' as int)
  }

  lemma {:induction false} ParseDecimal(n: nat)
    ensures ParseNat(Decimal(n)) == n
  {
    if n < 10 {
      assert Decimal(n)[..0] == "";
    } else {
      ParseDecimal(n / 10);
      assert Decimal(n)[..|Decimal(n)| - 1] == Decimal(n / 10);
    }
  }
}
