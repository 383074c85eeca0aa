/** Searching by name as the application does it: the text is sanitized once by the adapter and again by the query builder. */
module AdapterSearch {
  import opened Text
  import opened SoqlLiteral
  import opened SoqlQuery
  import opened OrgMapping
  import opened OrgQuery
  import opened OrgQueryMeaning
  import opened ReadWriteAgreement

  function SearchByAdapter(m: Option<Mapping>, fields: string, text: string, limit: nat, offset: nat): string {
    SearchHouseholds(m, fields, Sanitize(text), limit, offset)
  }

  /** The search asks for exactly the names that contain the text. */
  ghost predicate FindsText(text: string) {
    forall name: string :: NameMatches(name, Sanitize(text)) <==> Includes(name, text)
  }

  predicate Plain(s: string) {
    forall i :: 0 <= i < |s| ==> !IsSpecial(s[i]) && !IsControl(s[i])
  }

  function Slashes(n: nat): (s: string)
    ensures |s| == n && forall i :: 0 <= i < n ==> s[i] == '\\'
  {
    seq(n, _ => '\\')
  }

  /** Plain characters followed by backslashes, that fill the literal exactly once they are escaped. */
  predicate FillsWithSlashes(text: string) {
    exists k :: 0 <= k < |text| && EndsInSlashes(text, k) && k + 2 * (|text| - k) == MAX_LITERAL
  }

  predicate EndsInSlashes(text: string, k: nat)
    requires k <= |text|
  {
    Plain(text[..k]) && text[k..] == Slashes(|text| - k)
  }

  // ---- what the second pass denotes ----

  lemma {:induction false} EscapeHasNoControl(s: string)
    ensures NoControl(Escape(s))
  {
    if s != "" {
      EscapeHasNoControl(s[1..]);
      var e := EscapeChar(s[0]);
      assert Escape(s) == e + Escape(s[1..]);
      assert forall i :: |e| <= i < |Escape(s)| ==> Escape(s)[i] == Escape(s[1..])[i - |e|];
    }
  }

  lemma SecondPassKeeps(text: string)
    ensures NoControl(Sanitize(text)) && Sanitize(text) <= Escape(text)
    ensures Denoted(Sanitize(text)) == Kept(Sanitize(text), MAX_LITERAL)
  {
    var s := Sanitize(text);
    ChainIsOnePass(text);
    EscapeHasNoControl(text);
    assert forall i :: 0 <= i < |s| ==> s[i] == Escape(text)[i];
    StripKeepsAllIff(Kept(s, MAX_LITERAL));
  }

  lemma IncludesLength(s: string, sub: string)
    ensures Includes(s, sub) ==> |sub| <= |s|
    ensures Includes(s, sub) && |sub| == |s| ==> sub == s
  {
    if Includes(s, sub) {
      var i := IncludesWhere(s, sub);
    }
  }

  lemma IncludesItself(s: string, more: string)
    ensures Includes(s, s) && Includes(s + more, s)
  {
    assert (s + more)[0..] == s + more && s <= s + more;
    IncludesAt(s + more, s, 0);
    assert s[0..] == s;
    IncludesAt(s, s, 0);
  }

  lemma FindsTextIff(text: string)
    ensures FindsText(text) <==> Denoted(Sanitize(text)) == text && !Dangles(Sanitize(text), MAX_LITERAL)
  {
    var q := Sanitize(text);
    var d := Denoted(q);
    if FindsText(text) {
      assert NameMatches(text + "x", q) <==> Includes(text + "x", text);
      IncludesItself(text, "x");
      if !Dangles(q, MAX_LITERAL) {
        assert NameMatches(text, q) <==> Includes(text, text);
        assert NameMatches(d, q) <==> Includes(d, text);
        IncludesItself(d, "");
        IncludesLength(text, d);
        IncludesLength(d, text);
      } else {
        WrongEnd(text + "x", d + "%");
      }
    }
  }

  lemma WrongEnd(s: string, q: string)
    requires s != "" && q != "" && s[|s| - 1] != q[|q| - 1]
    ensures !EndsWith(s, q)
  {
    if |q| <= |s| {
      assert s[|s| - |q|..][|q| - 1] == s[|s| - 1];
    }
  }

  // ---- plain text and backslashes ----

  lemma {:induction false} EscapeConcat(a: string, b: string)
    ensures Escape(a + b) == Escape(a) + Escape(b)
  {
    ChainIsOnePass(a);
    ChainIsOnePass(b);
    ChainIsOnePass(a + b);
    ChainConcat(a, b);
  }

  lemma {:induction false} EscapeSlashes(n: nat)
    ensures Escape(Slashes(n)) == Slashes(2 * n)
  {
    if n > 0 {
      EscapeSlashes(n - 1);
      assert Slashes(n)[1..] == Slashes(n - 1);
      assert EscapeChar('\\') + Slashes(2 * n - 2) == Slashes(2 * n);
    }
  }

  lemma PlainTail(s: string, a: string, x: string)
    requires Plain(a) && a != "" && s == a + x
    ensures s != "" && s[0] == a[0] && s[1..] == a[1..] + x
    ensures Plain(a[1..]) && a == [a[0]] + a[1..] && |EscapeChar(a[0])| == 1
  {
  }

  lemma KeptStep(s: string, n: nat, kept: string)
    requires s != "" && |EscapeChar(s[0])| == 1 && n >= 1 && Kept(s[1..], n - 1) == kept
    ensures Kept(s, n) == [s[0]] + kept
  {
  }

  lemma Regroup(c: char, x: string, y: string)
    ensures [c] + (x + y) == [c] + x + y
  {
  }

  lemma KeptFront(s: string, a: string, n: nat, kept: string)
    requires s != "" && a != "" && s[0] == a[0] && |EscapeChar(a[0])| == 1 && n >= 1
    requires Kept(s[1..], n - 1) == a[1..] + kept
    ensures Kept(s, n) == a + kept
  {
    KeptStep(s, n, a[1..] + kept);
    Regroup(a[0], a[1..], kept);
    assert a == [a[0]] + a[1..];
  }

  lemma EmptyFront(a: string, x: string)
    requires a == ""
    ensures a + x == x
  {
  }

  /** Plain characters are kept as they are, as long as there is room. */
  lemma {:induction false} KeptPlain(s: string, a: string, x: string, room: nat, kept: string)
    requires s == a + x && Plain(a) && Kept(x, room) == kept
    ensures Kept(s, |a| + room) == a + kept
    decreases |a|
  {
    if a == "" {
      EmptyFront(a, x);
      EmptyFront(a, kept);
    } else {
      PlainTail(s, a, x);
      KeptPlain(s[1..], a[1..], x, room, kept);
      KeptFront(s, a, |a| + room, kept);
    }
  }

  function Least(a: nat, b: nat): nat {
    if a <= b then a else b
  }

  lemma SlashesTail(j: nat)
    requires j > 0
    ensures Slashes(j) != "" && Slashes(j)[0] == '\\' && Slashes(j)[1..] == Slashes(j - 1)
    ensures Slashes(j) == ['\\'] + Slashes(j - 1)
  {
  }

  lemma KeptPair(s: string, n: nat, kept: string)
    requires s != "" && |EscapeChar(s[0])| == 2 && n >= 2 && Kept(s[1..], n - 2) == kept
    ensures Kept(s, n) == [s[0]] + kept
  {
  }

  lemma {:induction false} KeptSlashes(j: nat, n: nat)
    ensures Kept(Slashes(j), n) == Slashes(Least(j, n / 2))
  {
    if j > 0 {
      SlashesTail(j);
      if n >= 2 {
        KeptSlashes(j - 1, n - 2);
        KeptPair(Slashes(j), n, Slashes(Least(j, n / 2) - 1));
        SlashesTail(Least(j, n / 2));
      }
    }
  }

  /** What is kept of plain text and backslashes, and how it is escaped. */
  lemma KeptMixed(a: string, j: nat, n: nat)
    requires Plain(a) && |a| <= n
    ensures Kept(a + Slashes(j), n) == a + Slashes(Least(j, (n - |a|) / 2))
  {
    KeptSlashes(j, n - |a|);
    KeptPlain(a + Slashes(j), a, Slashes(j), n - |a|, Slashes(Least(j, (n - |a|) / 2)));
  }

  lemma EscapeMixed(a: string, j: nat)
    requires Plain(a)
    ensures Escape(a + Slashes(j)) == a + Slashes(2 * j)
  {
    PlainEscape(a, Slashes(j));
    EscapeSlashes(j);
  }

  lemma {:induction false} StartsWithSlashes(w: string, j: nat)
    requires w != "" && IsSpecial(w[0]) && NoControl(w) && w <= Escape(w) && j <= |w|
    ensures w[..j] == Slashes(j)
  {
    if j == 1 {
      assert Escape(w)[0] == '\\';
    } else if j > 1 {
      var i := j - 1;
      StartsWithSlashes(w, i);
      assert w == w[..i] + w[i..] && w[..j] == w[..i] + [w[i]];
      EscapeConcat(w[..i], w[i..]);
      EscapeSlashes(i);
      assert Escape(w)[i] == Slashes(2 * i)[i];
      assert w[i] == Escape(w)[i];
    }
  }

  lemma FirstNotPlain(s: string) returns (k: nat)
    ensures k <= |s| && Plain(s[..k])
    ensures k < |s| ==> IsSpecial(s[k]) || IsControl(s[k])
  {
    k := 0;
    while k < |s| && !IsSpecial(s[k]) && !IsControl(s[k])
      invariant k <= |s| && Plain(s[..k])
    {
      k := k + 1;
    }
  }

  /** A text that is a prefix of its own escape is plain, or plain up to trailing backslashes. */
  lemma PrefixOfEscape(t: string) returns (k: nat)
    requires NoControl(t) && t <= Escape(t)
    ensures k <= |t| && EndsInSlashes(t, k)
  {
    k := FirstNotPlain(t);
    var a, w := t[..k], t[k..];
    assert t == a + w;
    if w != "" {
      PlainEscape(a, w);
      assert w <= Escape(w) by {
        assert Escape(t)[k..] == Escape(w) && Escape(t)[..|t|][k..] == w;
      }
      assert forall i :: 0 <= i < |w| ==> w[i] == t[k + i];
      StartsWithSlashes(w, |w|);
      assert w[..|w|] == w;
    }
  }

  /** The double pass on plain text followed by `j` backslashes. */
  lemma DoublePass(t: string, k: nat)
    requires k <= |t| <= MAX_LITERAL && EndsInSlashes(t, k)
    ensures var j, room := |t| - k, MAX_LITERAL - k;
            && Sanitize(t) == t[..k] + Slashes(Least(2 * j, room))
            && Kept(Sanitize(t), MAX_LITERAL) == t[..k] + Slashes(Least(Least(2 * j, room), room / 2))
  {
    var a, j, room := t[..k], |t| - k, MAX_LITERAL - k;
    assert t == a + Slashes(j);
    ChainIsOnePass(t);
    EscapeMixed(a, j);
    assert Cut(a + Slashes(2 * j), MAX_LITERAL) == a + Slashes(Least(2 * j, room));
    KeptMixed(a, Least(2 * j, room), MAX_LITERAL);
  }

  lemma DoublePassDangles(t: string, k: nat)
    requires k < |t| <= MAX_LITERAL && EndsInSlashes(t, k) && Kept(Sanitize(t), MAX_LITERAL) == t
    ensures k + 2 * (|t| - k) == MAX_LITERAL || k + 2 * (|t| - k) == MAX_LITERAL - 1
    ensures Dangles(Sanitize(t), MAX_LITERAL) <==> k + 2 * (|t| - k) == MAX_LITERAL - 1
  {
    var j, room := |t| - k, MAX_LITERAL - k;
    DoublePass(t, k);
    assert t == t[..k] + Slashes(j);
    assert Least(Least(2 * j, room), room / 2) == j;
    EscapeMixed(t[..k], j);
    DanglesIff(Sanitize(t), MAX_LITERAL);
  }

  lemma PlainPasses(t: string)
    requires Plain(t) && |t| <= MAX_LITERAL
    ensures Kept(Sanitize(t), MAX_LITERAL) == t && !Dangles(Sanitize(t), MAX_LITERAL)
  {
    assert t[..|t|] == t && t[|t|..] == Slashes(0);
    DoublePass(t, |t|);
    assert t + Slashes(0) == t;
    PlainEscape(t, "");
    assert t + "" == t;
    CutShape(t, MAX_LITERAL);
  }

  lemma FillingPasses(t: string)
    requires FillsWithSlashes(t)
    ensures Kept(Sanitize(t), MAX_LITERAL) == t && !Dangles(Sanitize(t), MAX_LITERAL)
  {
    var k :| 0 <= k < |t| && EndsInSlashes(t, k) && k + 2 * (|t| - k) == MAX_LITERAL;
    DoublePass(t, k);
    assert t == t[..k] + Slashes(|t| - k);
    DoublePassDangles(t, k);
  }

  /**
   * The application's search asks for the text it is given if and only if the text has neither special nor control characters
   * and fits the literal; the one exception are backslashes at the end that fill the literal to the last place, of which the
   * second cut drops exactly what the first pass added.
   */
  lemma AdapterSearchIff(text: string)
    ensures FindsText(text) <==> (Plain(text) && |text| <= MAX_LITERAL) || FillsWithSlashes(text)
  {
    FindsTextIff(text);
    SecondPassKeeps(text);
    SanitizeShape(text);
    if Plain(text) && |text| <= MAX_LITERAL {
      PlainPasses(text);
    } else if FillsWithSlashes(text) {
      FillingPasses(text);
    } else if Kept(Sanitize(text), MAX_LITERAL) == text && !Dangles(Sanitize(text), MAX_LITERAL) {
      OnlyThose(text);
    }
  }

  lemma OnlyThose(t: string)
    requires Kept(Sanitize(t), MAX_LITERAL) == t && !Dangles(Sanitize(t), MAX_LITERAL)
    ensures (Plain(t) && |t| <= MAX_LITERAL) || FillsWithSlashes(t)
  {
    var s := Sanitize(t);
    SecondPassKeeps(t);
    SanitizeShape(t);
    assert t == s[..|t|];
    var k := PrefixOfEscape(t);
    if k == |t| {
      assert t[..k] == t;
    } else {
      DoublePassDangles(t, k);
    }
  }

  /** With a printable mapping and such a text, the search returns exactly the households whose name contains the text. */
  lemma AdapterSearchSelects(m: Option<Mapping>, atoms: seq<Atom>, fields: string, text: string, limit: nat, offset: nat, r: Record)
    requires PatternsArePrinted(m, atoms) && Printable(m, atoms) && SelectList(fields) && Word(HouseholdObject(m)) && "Name" in r
    requires FindsText(text)
    ensures var parsed := ParseQuery(SearchByAdapter(m, fields, text, limit, offset));
            parsed.Some? && (Selects(parsed.value, r) <==> IsHousehold(m, atoms, r) && Includes(r["Name"], text))
  {
    SearchSelects(m, atoms, fields, Sanitize(text), limit, offset, r);
    assert NameMatches(r["Name"], Sanitize(text)) <==> Includes(r["Name"], text);
  }

  // ---- a name that is never found ----

  lemma {:induction false} EscapeAtMostDouble(s: string)
    ensures |Escape(s)| <= 2 * |s|
  {
    if s != "" {
      EscapeAtMostDouble(s[1..]);
    }
  }

  lemma {:induction false} EscapeIsLonger(s: string)
    requires NoControl(s)
    ensures |Escape(s)| >= |s|
    ensures !Plain(s) ==> |Escape(s)| > |s|
  {
    if s != "" {
      assert forall i :: 0 < i < |s| ==> s[i] == s[1..][i - 1];
      EscapeIsLonger(s[1..]);
    }
  }

  /** A short name with a quote, a percent sign, an underscore or a backslash is not found by its own text. */
  lemma SpecialNameIsNotFound(name: string)
    requires 4 * |name| <= MAX_LITERAL && NoControl(name) && !Plain(name)
    ensures !NameMatches(name, Sanitize(name))
  {
    var s := Sanitize(name);
    EscapeAtMostDouble(name);
    EscapeIsLonger(name);
    SanitizeShape(name);
    ChainIsOnePass(name);
    SecondPassKeeps(name);
    EscapeAtMostDouble(s);
    CutShape(s, MAX_LITERAL);
    IncludesLength(name, s);
  }

  lemma BrienIsNotFound()
    ensures !NameMatches("O'Brien", Sanitize("O'Brien"))
  {
    var name := "O'Brien";
    assert IsSpecial(name[1]);
    SpecialNameIsNotFound(name);
  }
}
