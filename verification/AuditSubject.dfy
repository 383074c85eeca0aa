/** When the action and the result are read back from the subject of an audit task. */
module AuditSubject {
  import opened Text
  import opened AuditTrail

  // ---- the first separator ----

  /** A blank, something else, a blank. */
  predicate IsSeparator(sep: string) {
    |sep| == 3 && sep[0] == sep[2] != sep[1]
  }

  predicate EndsOpen(a: string, sep: string)
    requires IsSeparator(sep)
  {
    |a| >= 2 && a[|a| - 2..] == sep[..2]
  }

  /** Followed by the separator, the text ends where the first separator starts. */
  predicate Whole(a: string, sep: string)
    requires IsSeparator(sep)
  {
    !Includes(a, sep) && !EndsOpen(a, sep)
  }

  lemma SeparatorInside(a: string, sep: string, w: string, j: nat)
    requires IsSeparator(sep) && j < |a| && sep <= (a + sep + w)[j..]
    ensures !Whole(a, sep)
  {
    var s := a + sep + w;
    assert s[|a|] == sep[0];
    assert s[j] == sep[0] && s[j + 1] == sep[1] && s[j + 2] == sep[2];
    if j + 3 <= |a| {
      assert a[j..][..3] == sep;
      IncludesAt(a, sep, j);
    } else if j + 2 == |a| {
      assert a[j..] == sep[..2];
    }
  }

  lemma WholeIsCut(a: string, sep: string, w: string)
    requires IsSeparator(sep) && Whole(a, sep)
    ensures IndexOf(a + sep + w, sep) == Some(|a|)
  {
    var s := a + sep + w;
    assert s[|a|..] == sep + w;
    forall j | 0 <= j < |a|
      ensures !(sep <= s[j..])
    {
      if sep <= s[j..] {
        SeparatorInside(a, sep, w, j);
      }
    }
    IndexOfIs(s, sep, |a|);
  }

  /** A separator inside the text, or one that its end and the separator make up, is found first. */
  lemma OpenIsCutEarlier(a: string, sep: string, w: string)
    requires IsSeparator(sep) && !Whole(a, sep)
    ensures IndexOf(a + sep + w, sep).Some? && IndexOf(a + sep + w, sep).value < |a|
  {
    var s := a + sep + w;
    if Includes(a, sep) {
      var i := IncludesWhere(a, sep);
      assert s[i..] == a[i..] + (sep + w);
      IndexOfAtMost(s, sep, i);
    } else {
      var t := s[|a| - 2..];
      assert t == a[|a| - 2..] + (sep + w);
      assert t[0] == sep[0] && t[1] == sep[1] && t[2] == sep[0];
      IndexOfAtMost(s, sep, |a| - 2);
    }
  }

  lemma CutAtSeparatorIff(a: string, sep: string, w: string)
    requires IsSeparator(sep)
    ensures IndexOf(a + sep + w, sep) == Some(|a|) <==> Whole(a, sep)
    ensures IndexOf(a + sep + w, sep).Some? && IndexOf(a + sep + w, sep).value <= |a|
  {
    if Whole(a, sep) {
      WholeIsCut(a, sep, w);
    } else {
      OpenIsCutEarlier(a, sep, w);
    }
  }

  lemma SubjectIsCut(e: AuditEntry)
    ensures Includes(Subject(e), "MIN:AUDIT")
    ensures RemoveFirst(Subject(e), SUBJECT_PREFIX) == e.action + SEPARATOR + ResultWord(e.error)
  {
    var rest := e.action + SEPARATOR + ResultWord(e.error);
    var s := SUBJECT_PREFIX + rest;
    assert SUBJECT_PREFIX[..9] == "MIN:AUDIT";
    assert s[..9] == "MIN:AUDIT";
    IndexOfIs(s, SUBJECT_PREFIX, 0);
    assert s[|SUBJECT_PREFIX|..] == rest;
  }

  /** One cut of `s.split(sep)`. */
  lemma SplitStep(s: string, sep: string, i: nat)
    requires sep != "" && IndexOf(s, sep) == Some(i)
    ensures Split(s, sep) == [s[..i]] + Split(s[i + |sep|..], sep)
  {
  }

  lemma SplitEnd(s: string, sep: string)
    requires sep != "" && !Includes(s, sep)
    ensures Split(s, sep) == [s]
  {
    IndexOfFound(s, sep);
  }

  /** The first two parts of a text that is cut at its first separator. */
  lemma TwoParts(a: string, sep: string, w: string)
    requires IsSeparator(sep) && Whole(a, sep) && !Includes(w, sep)
    ensures Split(a + sep + w, sep) == [a, w]
  {
    WholeIsCut(a, sep, w);
    SplitStep(a + sep + w, sep, |a|);
    assert (a + sep + w)[..|a|] == a;
    assert (a + sep + w)[|a| + |sep|..] == w;
    SplitEnd(w, sep);
  }

  lemma FirstPartIff(a: string, sep: string, w: string)
    requires IsSeparator(sep)
    ensures Split(a + sep + w, sep)[0] == a <==> Whole(a, sep)
  {
    var s := a + sep + w;
    CutAtSeparatorIff(a, sep, w);
    SplitStep(s, sep, IndexOf(s, sep).value);
    assert s[..|a|] == a;
  }

  lemma BlankInside(a: string, sep: string)
    requires IsSeparator(sep) && !Whole(a, sep)
    ensures sep[0] in a
  {
    if Includes(a, sep) {
      var i := IncludesWhere(a, sep);
      assert a[i] == a[i..][0] == sep[0];
    } else {
      assert a[|a| - 2] == a[|a| - 2..][0] == sep[0];
    }
  }

  lemma NoBlankIsWhole(a: string, sep: string)
    requires IsSeparator(sep) && sep[0] !in a
    ensures Whole(a, sep)
  {
    if !Whole(a, sep) {
      BlankInside(a, sep);
    }
  }

  /**
   * The action is read back if and only if it is not empty, does not contain the separator, and does not end with the
   * first two characters of it, a blank and a dash.
   */
  lemma ActionReadsBackIff(e: AuditEntry, description: string, createdAt: string)
    ensures var r := Parse(Subject(e), description, createdAt);
            r.Some? && (r.value.action == e.action <==> e.action != "" && Whole(e.action, SEPARATOR))
  {
    SubjectIsCut(e);
    FirstPartIff(e.action, SEPARATOR, ResultWord(e.error));
    NoBlankIsWhole("unknown", SEPARATOR);
  }

  // ---- the result ----

  /** Whatever follows the text and its separator does not move the first cut. */
  lemma FirstCut(a: string, sep: string, w: string)
    requires IsSeparator(sep)
    ensures IndexOf(a + sep + w, sep) == IndexOf(a + sep, sep)
    ensures IndexOf(a + sep, sep).Some? && IndexOf(a + sep, sep).value <= |a|
  {
    var s, t := a + sep + w, a + sep;
    assert t + "" == t;
    CutAtSeparatorIff(a, sep, "");
    CutAtSeparatorIff(a, sep, w);
    IndexOfFound(s, sep);
    IndexOfFound(t, sep);
    SameStart(t, w, sep, IndexOf(s, sep).value);
    SameStart(t, w, sep, IndexOf(t, sep).value);
    IndexOfAtMost(s, sep, IndexOf(t, sep).value);
    IndexOfAtMost(t, sep, IndexOf(s, sep).value);
  }

  lemma SameStart(t: string, w: string, sep: string, i: nat)
    requires i + |sep| <= |t|
    ensures sep <= (t + w)[i..] <==> sep <= t[i..]
  {
    assert (t + w)[i..] == t[i..] + w;
  }

  /** The text after the first separator of `action + separator`, up to the next: what takes the place of the result. */
  predicate SecondSaysError(action: string) {
    var parts := Split(action + SEPARATOR, SEPARATOR);
    |parts| > 1 && Lower(parts[1]) == "error"
  }

  lemma PartsAfterCut(s: string, sep: string, i: nat)
    requires sep != "" && IndexOf(s, sep) == Some(i)
    ensures |Split(s, sep)| > 1 && Split(s, sep)[1] == Split(s[i + |sep|..], sep)[0]
  {
    SplitStep(s, sep, i);
  }

  lemma SameFirstPart(a: string, sep: string, w: string)
    requires IsSeparator(sep)
    ensures Split(a + sep + w, sep)[0] == Split(a + sep, sep)[0]
  {
    FirstCut(a, sep, w);
    var i := IndexOf(a + sep, sep).value;
    SplitStep(a + sep + w, sep, i);
    SplitStep(a + sep, sep, i);
    assert (a + sep + w)[..i] == (a + sep)[..i];
  }

  /** A text that does not start with the blank keeps its first character in its first part. */
  lemma FirstPartStarts(r: string, sep: string)
    requires sep != "" && r != "" && r[0] != sep[0]
    ensures Split(r, sep)[0] != "" && Split(r, sep)[0][0] == r[0]
  {
    IndexOfFound(r, sep);
    if IndexOf(r, sep).Some? {
      SplitStep(r, sep, IndexOf(r, sep).value);
      assert IndexOf(r, sep).value > 0;
    }
  }

  predicate SamePart(x: string, y: string, c: char) {
    x == y || (x != "" && y != "" && x[0] == y[0] == c)
  }

  /** After a cut inside the text, the next part is the same whatever follows, or starts with the dash. */
  lemma RestAfterCut(a: string, sep: string, w: string, i: nat)
    requires IsSeparator(sep) && i < |a| && sep <= (a + sep + w)[i..] && i + 3 <= |a + sep|
    ensures SamePart(Split((a + sep + w)[i + 3..], sep)[0], Split((a + sep)[i + 3..], sep)[0], sep[1])
  {
    var s, t := a + sep + w, a + sep;
    if i + 3 <= |a| {
      assert s[i + 3..] == a[i + 3..] + sep + w;
      assert t[i + 3..] == a[i + 3..] + sep;
      SameFirstPart(a[i + 3..], sep, w);
    } else {
      assert s[|a|] == sep[0];
      assert s[i + 1] == s[i..][1] == sep[1];
      assert s[i + 3..][0] == t[i + 3..][0] == sep[1];
      FirstPartStarts(s[i + 3..], sep);
      FirstPartStarts(t[i + 3..], sep);
    }
  }

  /** An action with a separator of its own decides the second part alone. */
  lemma SecondPartIsOwn(a: string, sep: string, w: string)
    requires IsSeparator(sep) && !Whole(a, sep)
    ensures var p, q := Split(a + sep + w, sep), Split(a + sep, sep);
            |p| > 1 && |q| > 1 && SamePart(p[1], q[1], sep[1])
  {
    FirstCut(a, sep, w);
    OpenIsCutEarlier(a, sep, w);
    var s, t, i := a + sep + w, a + sep, IndexOf(a + sep, sep).value;
    IndexOfFound(s, sep);
    PartsAfterCut(s, sep, i);
    PartsAfterCut(t, sep, i);
    RestAfterCut(a, sep, w, i);
  }

  /**
   * The result is read back if and only if the action is whole, or what its own separator puts in the place of the
   * result happens to say the same.
   */
  lemma ResultReadsBackIff(e: AuditEntry, description: string, createdAt: string)
    ensures var r := Parse(Subject(e), description, createdAt);
            r.Some? && (r.value.error == e.error <==> Whole(e.action, SEPARATOR) || e.error == SecondSaysError(e.action))
  {
    var word := ResultWord(e.error);
    SubjectIsCut(e);
    NoBlankIsWhole(word, SEPARATOR);
    if Whole(e.action, SEPARATOR) {
      TwoParts(e.action, SEPARATOR, word);
      WordIsRead(e.error);
    } else {
      SecondPartIsOwn(e.action, SEPARATOR, word);
      DashIsNoError(Split(e.action + SEPARATOR + word, SEPARATOR)[1]);
      DashIsNoError(Split(e.action + SEPARATOR, SEPARATOR)[1]);
    }
  }

  lemma WordIsRead(error: bool)
    ensures Lower(ResultWord(error)) == "error" <==> error
  {
    if error {
      assert Lower("error") == "error";
    }
  }

  lemma DashIsNoError(s: string)
    ensures s != "" && s[0] == SEPARATOR[1] ==> Lower(s) != "error"
  {
    if s != "" && s[0] == SEPARATOR[1] {
      assert Lower(s)[0] == SEPARATOR[1];
    }
  }

  /** In particular every error of an action made of two parts is shown as a success, unless the second is "error". */
  lemma SeparatorHidesError(e: AuditEntry, a: string, b: string, description: string, createdAt: string)
    requires e.error && e.action == a + SEPARATOR + b
    requires Whole(a, SEPARATOR) && Whole(b, SEPARATOR) && Lower(b) != "error"
    ensures var r := Parse(Subject(e), description, createdAt); r.Some? && !r.value.error
  {
    SubjectIsCut(e);
    SecondPartIs(a, b, SEPARATOR, ResultWord(e.error));
  }

  lemma SecondPartIs(a: string, b: string, sep: string, w: string)
    requires IsSeparator(sep) && Whole(a, sep) && Whole(b, sep)
    ensures var p := Split(a + sep + b + sep + w, sep); |p| > 1 && p[1] == b
  {
    var rest := b + sep + w;
    assert a + sep + b + sep + w == a + sep + rest;
    CutAtSeparatorIff(a, sep, rest);
    assert (a + sep + rest)[|a| + |sep|..] == rest;
    PartsAfterCut(a + sep + rest, sep, |a|);
    FirstPartIff(b, sep, w);
  }
}
