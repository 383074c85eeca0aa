/** The compliance keyword scan: one joined text against the task fields it is made of. */
module Compliance {
  import opened Text

  // ---- searching a joined text ----

  predicate InSomeField(fields: seq<string>, kw: string) {
    exists i :: 0 <= i < |fields| && Includes(fields[i], kw)
  }

  /** `r` begins the join of `fields`, said field by field. */
  predicate Continues(fields: seq<string>, r: string) {
    fields != [] &&
    (r <= fields[0] || (fields[0] + " " <= r && Continues(fields[1..], r[|fields[0]| + 1..])))
  }

  /** An occurrence of `kw` that begins in (or right after) field `i` and crosses into the next ones. */
  predicate SpansFrom(fields: seq<string>, i: nat, kw: string)
    requires i < |fields|
  {
    exists k :: 0 <= k <= |fields[i]| && fields[i][k..] + " " <= kw && Continues(fields[i + 1..], kw[|fields[i]| - k + 1..])
  }

  predicate Spans(fields: seq<string>, kw: string) {
    exists i :: 0 <= i < |fields| && SpansFrom(fields, i, kw)
  }

  lemma PrefixOfConcat(a: string, b: string, r: string)
    ensures r <= a + b <==> r <= a || (a <= r && r[|a|..] <= b)
  {
    if r <= a + b && |r| > |a| {
      assert r[..|a|] == (a + b)[..|a|] == a;
      assert r[|a|..] == (a + b)[|a|..|r|] == b[..|r| - |a|];
    }
    if a <= r && r[|a|..] <= b {
      assert r == a + r[|a|..];
      assert r[|a|..] == b[..|r| - |a|];
      assert r == (a + b)[..|r|];
    }
    if r <= a {
      assert r == (a + b)[..|r|];
    }
  }

  lemma {:induction false} ContinuesIsPrefix(fields: seq<string>, r: string)
    requires fields != []
    ensures Continues(fields, r) <==> r <= Join(fields, " ")
  {
    if |fields| > 1 {
      var a, b := fields[0] + " ", Join(fields[1..], " ");
      assert Join(fields, " ") == a + b;
      PrefixOfConcat(a, b, r);
      PrefixOfConcat(fields[0], " ", r);
      if a <= r {
        ContinuesIsPrefix(fields[1..], r[|a|..]);
      }
    }
  }

  /** An occurrence of `kw` that begins at `k` in `a` (or right after it) and crosses the space into `b`. */
  predicate CrossesAt(a: string, b: string, kw: string, k: nat) {
    k <= |a| && a[k..] + " " <= kw && kw[|a| - k + 1..] <= b
  }

  predicate Crosses(a: string, b: string, kw: string) {
    exists k: nat :: k <= |a| && CrossesAt(a, b, kw, k)
  }

  lemma PrefixAcrossSpace(a: string, b: string, kw: string)
    ensures kw <= a + " " + b <==> kw <= a || CrossesAt(a, b, kw, 0)
  {
    PrefixOfConcat(a + " ", b, kw);
    PrefixOfConcat(a, " ", kw);
    assert a[0..] == a;
    if a <= kw && kw[|a|..] <= " " && |kw| > |a| {
      assert kw == a + " ";
    }
  }

  lemma CrossingSplit(a: string, b: string, kw: string)
    requires a != ""
    ensures Crosses(a, b, kw) <==> CrossesAt(a, b, kw, 0) || Crosses(a[1..], b, kw)
  {
    var t := a[1..];
    forall k: nat | k <= |t|
      ensures CrossesAt(t, b, kw, k) <==> CrossesAt(a, b, kw, k + 1)
    {
      assert t[k..] == a[k + 1..];
    }
    if k: nat :| k <= |a| && CrossesAt(a, b, kw, k) {
      if k > 0 {
        assert CrossesAt(t, b, kw, k - 1);
      }
    }
    if k: nat :| k <= |t| && CrossesAt(t, b, kw, k) {
      assert CrossesAt(a, b, kw, k + 1);
    }
  }

  /** An occurrence in `a + " " + b` lies in `a`, begins in `a` and crosses the space, or lies in `b`. */
  lemma {:induction false} SearchAcrossSpace(a: string, b: string, kw: string)
    ensures Includes(a + " " + b, kw) <==> Includes(a, kw) || Crosses(a, b, kw) || Includes(b, kw)
  {
    PrefixAcrossSpace(a, b, kw);
    if a == "" {
      assert ("" + " " + b)[1..] == b;
      assert Crosses("", b, kw) <==> CrossesAt("", b, kw, 0);
    } else {
      assert (a + " " + b)[1..] == a[1..] + " " + b;
      SearchAcrossSpace(a[1..], b, kw);
      CrossingSplit(a, b, kw);
    }
  }

  lemma SpansTail(fields: seq<string>, kw: string)
    requires fields != []
    ensures Spans(fields, kw) <==> SpansFrom(fields, 0, kw) || Spans(fields[1..], kw)
  {
    var rest := fields[1..];
    forall i | 0 <= i < |rest|
      ensures SpansFrom(fields, i + 1, kw) <==> SpansFrom(rest, i, kw)
    {
      assert fields[i + 1 + 1..] == rest[i + 1..];
    }
    if i :| 0 <= i < |fields| && SpansFrom(fields, i, kw) {
      if i > 0 {
        assert SpansFrom(rest, i - 1, kw);
      }
    }
    if i :| 0 <= i < |rest| && SpansFrom(rest, i, kw) {
      assert SpansFrom(fields, i + 1, kw);
    }
  }

  /** Searching the joined text, said without the joined text: in one field, or across consecutive fields. */
  lemma {:induction false} JoinedSearch(fields: seq<string>, kw: string)
    requires fields != []
    ensures Includes(Join(fields, " "), kw) <==> InSomeField(fields, kw) || Spans(fields, kw)
  {
    SpansTail(fields, kw);
    if |fields| > 1 {
      var b := Join(fields[1..], " ");
      JoinedSearch(fields[1..], kw);
      SearchAcrossSpace(fields[0], b, kw);
      CrossesIsSpansFrom(fields, b, kw);
    }
  }

  lemma CrossesIsSpansFrom(fields: seq<string>, b: string, kw: string)
    requires |fields| > 1 && b == Join(fields[1..], " ")
    ensures Crosses(fields[0], b, kw) <==> SpansFrom(fields, 0, kw)
  {
    var a := fields[0];
    forall k: nat | k <= |a| && a[k..] + " " <= kw
      ensures CrossesAt(a, b, kw, k) <==> Continues(fields[1..], kw[|a| - k + 1..])
    {
      ContinuesIsPrefix(fields[1..], kw[|a| - k + 1..]);
    }
  }

  lemma SpacelessNeverSpans(fields: seq<string>, kw: string)
    requires ' ' !in kw
    ensures !Spans(fields, kw)
  {
    forall i, k | 0 <= i < |fields| && 0 <= k <= |fields[i]|
      ensures !(fields[i][k..] + " " <= kw)
    {
      assert ' ' in fields[i][k..] + " ";
    }
  }

  // ---- tasks ----

  datatype TaskText = TaskText(subject: string, description: string)

  /** All subjects, then all descriptions, lower-cased. */
  function Fields(tasks: seq<TaskText>, lower: string -> string): (fs: seq<string>)
    ensures |fs| == 2 * |tasks|
    ensures forall i :: 0 <= i < |tasks| ==> fs[i] == lower(tasks[i].subject) && fs[|tasks| + i] == lower(tasks[i].description)
  {
    seq(|tasks|, i requires 0 <= i < |tasks| => lower(tasks[i].subject))
    + seq(|tasks|, i requires 0 <= i < |tasks| => lower(tasks[i].description))
  }

  predicate HasTask(tasks: seq<TaskText>, lower: string -> string, keyword: string) {
    Includes(Join(Fields(tasks, lower), " "), lower(keyword))
  }

  predicate InSomeTask(tasks: seq<TaskText>, lower: string -> string, keyword: string) {
    exists i :: 0 <= i < |tasks| && InTask(tasks[i], lower, keyword)
  }

  predicate InTask(t: TaskText, lower: string -> string, keyword: string) {
    Includes(lower(t.subject), lower(keyword)) || Includes(lower(t.description), lower(keyword))
  }

  lemma InSomeFieldIsInSomeTask(tasks: seq<TaskText>, lower: string -> string, keyword: string)
    ensures InSomeField(Fields(tasks, lower), lower(keyword)) <==> InSomeTask(tasks, lower, keyword)
  {
    var fs, n := Fields(tasks, lower), |tasks|;
    if i :| 0 <= i < |fs| && Includes(fs[i], lower(keyword)) {
      var j := if i < n then i else i - n;
      assert fs[i] == if i < n then lower(tasks[j].subject) else lower(tasks[n + j - n].description);
      assert InTask(tasks[j], lower, keyword);
    }
    if j :| 0 <= j < n && InTask(tasks[j], lower, keyword) {
      assert fs[j] == lower(tasks[j].subject) && fs[n + j] == lower(tasks[j].description);
    }
  }

  /** A keyword in one field is always found; a keyword without spaces is found only there. */
  lemma ScanIsFieldwise(tasks: seq<TaskText>, lower: string -> string, keyword: string)
    ensures InSomeTask(tasks, lower, keyword) ==> HasTask(tasks, lower, keyword)
    ensures ' ' !in lower(keyword) && lower(keyword) != "" ==>
              (HasTask(tasks, lower, keyword) <==> InSomeTask(tasks, lower, keyword))
  {
    var fs := Fields(tasks, lower);
    InSomeFieldIsInSomeTask(tasks, lower, keyword);
    if fs != [] {
      JoinedSearch(fs, lower(keyword));
      if ' ' !in lower(keyword) {
        SpacelessNeverSpans(fs, lower(keyword));
      }
    }
  }

  // ---- which matches survive the arrival of further tasks ----

  ghost predicate Survives(tasks: seq<TaskText>, lower: string -> string, keyword: string) {
    forall more: seq<TaskText> :: (forall i :: 0 <= i < |tasks| ==> tasks[i] in more) ==> HasTask(more, lower, keyword)
  }

  predicate Trimmed(kw: string) {
    kw != "" && kw[0] != ' ' && kw[|kw| - 1] != ' '
  }

  /** The tasks with a one-word task after each. */
  function Interleaved(tasks: seq<TaskText>, filler: TaskText): (r: seq<TaskText>)
    ensures |r| == 2 * |tasks|
    ensures forall i :: 0 <= i < |r| ==> r[i] == if i % 2 == 0 then tasks[i / 2] else filler
  {
    seq(2 * |tasks|, i requires 0 <= i < 2 * |tasks| => if i % 2 == 0 then tasks[i / 2] else filler)
  }

  /** With a foreign word at every other field no trimmed keyword can cross from one field to the next. */
  lemma FillersBlockSpans(fs: seq<string>, kw: string, c: char)
    requires Trimmed(kw) && c !in kw && c != ' '
    requires forall i :: 0 <= i < |fs| && i % 2 == 1 ==> fs[i] == [c]
    ensures !Spans(fs, kw)
  {
    forall i, k | 0 <= i < |fs| && 0 <= k <= |fs[i]| && fs[i][k..] + " " <= kw
      ensures !Continues(fs[i + 1..], kw[|fs[i]| - k + 1..])
    {
      FillerBlocks(fs, kw, c, i, k);
    }
  }

  lemma FillerBlocks(fs: seq<string>, kw: string, c: char, i: nat, k: nat)
    requires Trimmed(kw) && c !in kw && c != ' '
    requires forall i :: 0 <= i < |fs| && i % 2 == 1 ==> fs[i] == [c]
    requires i < |fs| && k <= |fs[i]| && fs[i][k..] + " " <= kw
    ensures !Continues(fs[i + 1..], kw[|fs[i]| - k + 1..])
  {
    var s := fs[i][k..] + " ";
    FirstOf(fs[i], k);
    StartIsOwn(s, kw);
    if i + 1 < |fs| && i % 2 == 0 {
      NoWordContinues(fs[i + 1..], kw, |s|, c);
    }
  }

  lemma FirstOf(f: string, k: nat)
    requires k <= |f|
    ensures (f[k..] + " ")[0] in f || (f[k..] + " ")[0] == ' '
  {
  }

  /** A trimmed keyword that starts with a text and a blank goes on after the blank. */
  lemma StartIsOwn(s: string, kw: string)
    requires Trimmed(kw) && s != "" && s[|s| - 1] == ' ' && s <= kw
    ensures |s| < |kw| && s[0] in kw && s[0] != ' '
  {
    assert kw[..|s|] == s;
    assert kw[0] == s[0] && kw[|s| - 1] == ' ';
  }

  lemma NoWordContinues(fs: seq<string>, kw: string, n: nat, c: char)
    requires fs != [] && fs[0] == [c] && c !in kw && n < |kw|
    ensures !Continues(fs, kw[n..])
  {
    assert kw[n..][0] == kw[n];
  }

  /**
   * A match by a keyword with no space at either end survives whatever tasks are added if and only if a single
   * field contains it. (`c` is any letter the keyword does not use.)
   */
  lemma SurvivesIffInOneField(tasks: seq<TaskText>, lower: string -> string, keyword: string, c: char)
    requires Trimmed(lower(keyword)) && c !in lower(keyword) && c != ' ' && lower([c]) == [c]
    ensures Survives(tasks, lower, keyword) <==> InSomeTask(tasks, lower, keyword)
  {
    if InSomeTask(tasks, lower, keyword) {
      forall more: seq<TaskText> | forall i :: 0 <= i < |tasks| ==> tasks[i] in more
        ensures HasTask(more, lower, keyword)
      {
        ScanIsFieldwise(more, lower, keyword);
      }
    } else {
      var filler := TaskText([c], [c]);
      var more := Interleaved(tasks, filler);
      forall i | 0 <= i < |tasks|
        ensures tasks[i] in more
      {
        assert more[2 * i] == tasks[(2 * i) / 2];
      }
      FillersMatchNothing(tasks, lower, keyword, c);
      assert !HasTask(more, lower, keyword);
    }
  }

  lemma FillersMatchNothing(tasks: seq<TaskText>, lower: string -> string, keyword: string, c: char)
    requires Trimmed(lower(keyword)) && c !in lower(keyword) && c != ' ' && lower([c]) == [c]
    requires !InSomeTask(tasks, lower, keyword)
    ensures !HasTask(Interleaved(tasks, TaskText([c], [c])), lower, keyword)
  {
    var more := Interleaved(tasks, TaskText([c], [c]));
    forall i | 0 <= i < |more|
      ensures !InTask(more[i], lower, keyword)
    {
      FillerIncludesNone(c, lower(keyword));
    }
    InSomeFieldIsInSomeTask(more, lower, keyword);
    FillerFields(tasks, lower, c);
    var fs := Fields(more, lower);
    FillersBlockSpans(fs, lower(keyword), c);
    if fs != [] {
      JoinedSearch(fs, lower(keyword));
    }
  }

  lemma FieldIs(tasks: seq<TaskText>, lower: string -> string, i: nat)
    requires i < |Fields(tasks, lower)|
    ensures Fields(tasks, lower)[i] == if i < |tasks| then lower(tasks[i].subject) else lower(tasks[i - |tasks|].description)
  {
    if i >= |tasks| {
      assert Fields(tasks, lower)[|tasks| + (i - |tasks|)] == lower(tasks[i - |tasks|].description);
    }
  }

  lemma FillerFieldAt(more: seq<TaskText>, lower: string -> string, c: char, i: nat)
    requires lower([c]) == [c] && |more| % 2 == 0
    requires forall j :: 0 <= j < |more| && j % 2 == 1 ==> more[j] == TaskText([c], [c])
    requires i < |Fields(more, lower)| && i % 2 == 1
    ensures Fields(more, lower)[i] == [c]
  {
    FieldIs(more, lower, i);
    assert more[if i < |more| then i else i - |more|] == TaskText([c], [c]);
  }

  lemma FillerFields(tasks: seq<TaskText>, lower: string -> string, c: char)
    requires lower([c]) == [c]
    ensures var fs := Fields(Interleaved(tasks, TaskText([c], [c])), lower);
            forall i :: 0 <= i < |fs| && i % 2 == 1 ==> fs[i] == [c]
  {
    var more := Interleaved(tasks, TaskText([c], [c]));
    forall i | 0 <= i < |Fields(more, lower)| && i % 2 == 1
      ensures Fields(more, lower)[i] == [c]
    {
      FillerFieldAt(more, lower, c, i);
    }
  }

  lemma FillerIncludesNone(c: char, kw: string)
    requires kw != "" && c !in kw
    ensures !Includes([c], kw)
  {
    assert [c][1..] == "";
    assert kw[0] != c;
  }

  lemma {:induction false} IncludesTrans(s: string, mid: string, sub: string)
    requires Includes(s, mid) && Includes(mid, sub)
    ensures Includes(s, sub)
  {
    var i := IncludesWhere(s, mid);
    var j := IncludesWhere(mid, sub);
    assert s[i..][..|mid|] == mid;
    assert s[i + j..][..|sub|] == mid[j..][..|sub|];
    IncludesAt(s, sub, i + j);
  }

  /** Every field but the last is followed by a blank. */
  lemma {:induction false} FieldThenBlank(fs: seq<string>, i: nat)
    requires i + 1 < |fs|
    ensures Includes(Join(fs, " "), fs[i] + " ")
  {
    var tail := Join(fs[1..], " ");
    var all := fs[0] + " " + tail;
    assert Join(fs, " ") == all;
    if i == 0 {
      assert all[0..] == (fs[0] + " ") + tail;
      IncludesAt(all, fs[0] + " ", 0);
    } else {
      FieldThenBlank(fs[1..], i - 1);
      assert all[|fs[0]| + 1..] == tail;
      assert tail <= all[|fs[0]| + 1..];
      IncludesAt(all, tail, |fs[0]| + 1);
      IncludesTrans(all, tail, fs[i] + " ");
    }
  }

  /** A subject is always followed by a blank, so a keyword that ends in one survives at the end of a subject. */
  lemma SubjectAndBlankSurvives(tasks: seq<TaskText>, lower: string -> string, keyword: string, i: nat)
    requires i < |tasks| && Includes(lower(tasks[i].subject) + " ", lower(keyword))
    ensures Survives(tasks, lower, keyword)
  {
    forall more: seq<TaskText> | forall i :: 0 <= i < |tasks| ==> tasks[i] in more
      ensures HasTask(more, lower, keyword)
    {
      assert tasks[i] in more;
      var j :| 0 <= j < |more| && more[j] == tasks[i];
      var fs := Fields(more, lower);
      assert fs[j] == lower(tasks[i].subject);
      FieldThenBlank(fs, j);
      IncludesTrans(Join(fs, " "), fs[j] + " ", lower(keyword));
    }
  }

  /** So a keyword with a blank at its end can survive although no field contains it. */
  lemma UntrimmedSurvives()
    ensures var id := (s: string) => s;
            Survives([TaskText("ira", "x")], id, "ira ") && !InSomeTask([TaskText("ira", "x")], id, "ira ")
  {
    var id := (s: string) => s;
    var tasks := [TaskText("ira", "x")];
    assert ("ira" + " ")[0..] == "ira ";
    IncludesAt("ira" + " ", "ira ", 0);
    SubjectAndBlankSurvives(tasks, id, "ira ", 0);
    TooShort("ira", "ira ");
    TooShort("x", "ira ");
  }

  lemma TooShort(s: string, sub: string)
    requires |s| < |sub|
    ensures !Includes(s, sub)
  {
    if Includes(s, sub) {
      var i := IncludesWhere(s, sub);
    }
  }

  /** A two-word keyword met across a subject and a description is lost when another task arrives. */
  lemma SpanningMatchIsLost()
    ensures var id := (s: string) => s;
            HasTask([TaskText("gov", "id")], id, "gov id") && !HasTask([TaskText("gov", "id"), TaskText("x", "x")], id, "gov id")
  {
    var id := (s: string) => s;
    var tasks := [TaskText("gov", "id")];
    assert Fields(tasks, id) == ["gov", "id"];
    assert ["gov", "id"][1..] == ["id"];
    assert Join(["gov", "id"], " ") == "gov" + " " + "id" == "gov id";
    var filled := Interleaved(tasks, TaskText("x", "x"));
    assert filled == [TaskText("gov", "id"), TaskText("x", "x")];
    assert !Includes("gov", "gov id");
    assert !Includes("id", "gov id");
    FillersMatchNothing(tasks, id, "gov id", 'x');
  }
}
