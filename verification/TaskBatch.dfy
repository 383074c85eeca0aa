/** Batched task creation: composite requests of 25, with a fallback that resubmits everything one by one. */
module TaskBatch {
  import opened Text

  const BATCH_SIZE := 25

  datatype TaskInput = TaskInput(subject: string, householdId: string, contactId: Option<string>)

  // ---- validation ----

  predicate IsAlphanumeric(c: char) {
    'a' <= c <= 'z' || 'A' <= c <= 'Z' || '0' <= c <= '9'
  }

  /** `/^[a-zA-Z0-9]{15}([a-zA-Z0-9]{3})?$/` */
  predicate IsValidSalesforceId(id: string) {
    (|id| == 15 || |id| == 18) && forall i :: 0 <= i < |id| ==> IsAlphanumeric(id[i])
  }

  predicate IsValidInput(t: TaskInput) {
    IsValidSalesforceId(t.householdId) && (Truthy(t.contactId) ==> IsValidSalesforceId(t.contactId.value))
  }

  /** The pattern itself: fifteen letters or digits, and perhaps three more. */
  ghost predicate MatchesIdPattern(id: string) {
    exists head, tail :: id == head + tail && |head| == 15 && (tail == "" || |tail| == 3) && LettersAndDigits(head) && LettersAndDigits(tail)
  }

  predicate LettersAndDigits(s: string) {
    forall c :: c in s ==> 'a' <= c <= 'z' || 'A' <= c <= 'Z' || '0' <= c <= '9'
  }

  lemma ValidIffMatches(id: string)
    ensures IsValidSalesforceId(id) <==> MatchesIdPattern(id)
  {
    if IsValidSalesforceId(id) {
      assert id == id[..15] + id[15..];
      assert LettersAndDigits(id[..15]) && LettersAndDigits(id[15..]);
    }
    if MatchesIdPattern(id) {
      var head, tail :| id == head + tail && |head| == 15 && (tail == "" || |tail| == 3) && LettersAndDigits(head) && LettersAndDigits(tail);
      forall i | 0 <= i < |id|
        ensures IsAlphanumeric(id[i])
      {
        assert id[i] in head || id[i] in tail;
      }
    }
  }

  /** The household id matches the pattern, and so does the contact id unless it is absent or empty. */
  ghost predicate WellAddressed(t: TaskInput) {
    MatchesIdPattern(t.householdId) && (t.contactId.Some? && t.contactId.value != "" ==> MatchesIdPattern(t.contactId.value))
  }

  lemma ValidIffWellAddressed(t: TaskInput)
    ensures IsValidInput(t) <==> WellAddressed(t)
  {
    ValidIffMatches(t.householdId);
    if Truthy(t.contactId) {
      ValidIffMatches(t.contactId.value);
    }
  }

  /** Ids of both lengths are accepted: fifteen letters or digits with or without three more. */
  lemma BothLengthsAccepted(subject: string, head: string, tail: string)
    requires |head| == 15 && |tail| == 3 && LettersAndDigits(head) && LettersAndDigits(tail)
    ensures WellAddressed(TaskInput(subject, head, Some(head + tail)))
  {
    assert head == head + "";
  }

  // ---- how the service answers ----

  datatype SubResponse = Created(id: string) | Refused(message: string)

  /** A composite call answers every sub-request, or some of them, or fails as a whole (after reaching the service or not). */
  datatype ChunkResponse = Composite(subs: seq<SubResponse>) | CallFailed

  /** Answers of the composite call that starts at an index, and of the single create of an index. */
  datatype Service = Service(composite: nat -> ChunkResponse, single: nat -> SubResponse)

  /** An input handed to a call: its index, and its reference id when the call is a composite one. */
  datatype Submission = Submission(index: nat, reference: Option<string>)

  datatype BatchResult = Invalid | Batch(records: seq<string>, errors: seq<string>)

  function ReferenceId(i: nat): string {
    "task_" + Decimal(i)
  }

  // ---- what a run submits ----

  function CompositeRange(from: nat, to: nat): (r: seq<Submission>)
    requires from <= to
    ensures |r| == to - from && forall j :: 0 <= j < |r| ==> r[j] == Submission(from + j, Some(ReferenceId(from + j)))
  {
    seq(to - from, j requires 0 <= j < to - from => Submission(from + j, Some(ReferenceId(from + j))))
  }

  function SingleRange(n: nat): (r: seq<Submission>)
    ensures |r| == n && forall j :: 0 <= j < n ==> r[j] == Submission(j, None)
  {
    seq(n, j requires 0 <= j < n => Submission(j, None))
  }

  function ChunkEnd(i: nat, n: nat): nat {
    if i + BATCH_SIZE <= n then i + BATCH_SIZE else n
  }

  /** The start of the first composite call at or after `i` that fails, or None. */
  function FirstFailure(s: Service, i: nat, n: nat): (r: Option<nat>)
    ensures r.Some? ==> i <= r.value < n
    decreases n - i
  {
    if i >= n then None
    else if s.composite(i).CallFailed? then Some(i)
    else FirstFailure(s, i + BATCH_SIZE, n)
  }

  /** The submissions of a run with two or more valid inputs. */
  function Submitted(s: Service, n: nat): seq<Submission> {
    match FirstFailure(s, 0, n)
    case None => CompositeRange(0, n)
    case Some(k) => CompositeRange(0, ChunkEnd(k, n)) + SingleRange(n)
  }

  /** The submissions of a run with `n` valid inputs: a single one is sent alone, with no composite call. */
  function Sent(s: Service, n: nat): seq<Submission> {
    if n == 1 then SingleRange(1) else Submitted(s, n)
  }

  // ---- what a run reports ----

  function Records(subs: seq<SubResponse>): seq<string> {
    if subs == [] then [] else
    var n := |subs| - 1;
    if subs[n].Created? then Records(subs[..n]) + [subs[n].id] else Records(subs[..n])
  }

  function Errors(subs: seq<SubResponse>): seq<string> {
    if subs == [] then [] else
    var n := |subs| - 1;
    if subs[n].Refused? then Errors(subs[..n]) + [subs[n].message] else Errors(subs[..n])
  }

  function Singles(s: Service, n: nat): (r: seq<SubResponse>)
    ensures |r| == n && forall j :: 0 <= j < n ==> r[j] == s.single(j)
  {
    seq(n, j requires 0 <= j < n => s.single(j))
  }

  /** The sub-responses of the composite calls that start at `i` and after, in order. */
  function CompositeSubs(s: Service, i: nat, n: nat): seq<SubResponse>
    decreases n - i
  {
    if i >= n then [] else
    (if s.composite(i).Composite? then s.composite(i).subs else []) + CompositeSubs(s, i + BATCH_SIZE, n)
  }

  /** The answers a run is made of: those of the composite calls, or those of the fallback alone. */
  function Answers(s: Service, n: nat): seq<SubResponse> {
    if FirstFailure(s, 0, n).Some? then Singles(s, n) else CompositeSubs(s, 0, n)
  }

  /** The answers a run with `n` valid inputs reports: one input is created alone. */
  function AnswersTo(s: Service, n: nat): seq<SubResponse> {
    if n == 1 then Singles(s, 1) else Answers(s, n)
  }

  lemma {:induction false} RecordsConcat(a: seq<SubResponse>, b: seq<SubResponse>)
    ensures Records(a + b) == Records(a) + Records(b) && Errors(a + b) == Errors(a) + Errors(b)
  {
    if b == [] {
      assert a + b == a;
    } else {
      var n := |b| - 1;
      assert (a + b)[..|a + b| - 1] == a + b[..n];
      RecordsConcat(a, b[..n]);
    }
  }

  /** Every answer is reported once, as a record or as an error. */
  lemma {:induction false} EveryAnswerReported(subs: seq<SubResponse>)
    ensures |Records(subs)| + |Errors(subs)| == |subs|
  {
    if subs != [] {
      EveryAnswerReported(subs[..|subs| - 1]);
    }
  }

  /** The records are the ids of created answers at increasing places. */
  predicate RecordsAt(subs: seq<SubResponse>, records: seq<string>, at: seq<nat>) {
    |at| == |records| && Increasing(at) && forall j :: 0 <= j < |at| ==> at[j] < |subs| && subs[at[j]] == Created(records[j])
  }

  /** The errors are the messages of refused answers at increasing places. */
  predicate ErrorsAt(subs: seq<SubResponse>, errors: seq<string>, at: seq<nat>) {
    |at| == |errors| && Increasing(at) && forall j :: 0 <= j < |at| ==> at[j] < |subs| && subs[at[j]] == Refused(errors[j])
  }

  /**
   * The records are the ids of exactly the created answers and the errors the messages of exactly the refused ones, in order
   * and with multiplicity: both at increasing places, and together as many as there are answers.
   */
  ghost predicate SortedOut(subs: seq<SubResponse>, records: seq<string>, errors: seq<string>) {
    && (exists at :: RecordsAt(subs, records, at))
    && (exists at :: ErrorsAt(subs, errors, at))
    && |records| + |errors| == |subs|
  }

  lemma OneMoreRecord(subs: seq<SubResponse>, records: seq<string>, at: seq<nat>, sub: SubResponse)
    requires RecordsAt(subs, records, at)
    ensures RecordsAt(subs + [sub], records, at)
    ensures sub.Created? ==> RecordsAt(subs + [sub], records + [sub.id], at + [|subs|])
  {
  }

  lemma OneMoreError(subs: seq<SubResponse>, errors: seq<string>, at: seq<nat>, sub: SubResponse)
    requires ErrorsAt(subs, errors, at)
    ensures ErrorsAt(subs + [sub], errors, at)
    ensures sub.Refused? ==> ErrorsAt(subs + [sub], errors + [sub.message], at + [|subs|])
  {
  }

  lemma {:induction false} RecordsSorted(subs: seq<SubResponse>) returns (at: seq<nat>)
    ensures RecordsAt(subs, Records(subs), at)
  {
    at := [];
    if subs != [] {
      var n := |subs| - 1;
      at := RecordsSorted(subs[..n]);
      OneMoreRecord(subs[..n], Records(subs[..n]), at, subs[n]);
      assert subs == subs[..n] + [subs[n]];
      if subs[n].Created? {
        at := at + [n];
      }
    }
  }

  lemma {:induction false} ErrorsSorted(subs: seq<SubResponse>) returns (at: seq<nat>)
    ensures ErrorsAt(subs, Errors(subs), at)
  {
    at := [];
    if subs != [] {
      var n := |subs| - 1;
      at := ErrorsSorted(subs[..n]);
      OneMoreError(subs[..n], Errors(subs[..n]), at, subs[n]);
      assert subs == subs[..n] + [subs[n]];
      if subs[n].Refused? {
        at := at + [n];
      }
    }
  }

  lemma AnswersAreSortedOut(subs: seq<SubResponse>)
    ensures SortedOut(subs, Records(subs), Errors(subs))
  {
    EveryAnswerReported(subs);
    var created := RecordsSorted(subs);
    var refused := ErrorsSorted(subs);
  }

  // ---- the method ----

  method CollectAnswers(records0: seq<string>, errors0: seq<string>, subs: seq<SubResponse>)
    returns (records: seq<string>, errors: seq<string>)
    ensures records == records0 + Records(subs) && errors == errors0 + Errors(subs)
  {
    records, errors := records0, errors0;
    for i := 0 to |subs|
      invariant records == records0 + Records(subs[..i]) && errors == errors0 + Errors(subs[..i])
    {
      assert subs[..i + 1][..i] == subs[..i];
      match subs[i] {
        case Created(id) => records := records + [id];
        case Refused(message) => errors := errors + [message];
      }
    }
    assert subs[..|subs|] == subs;
  }

  method CreateTasksSequential(s: Service, n: nat) returns (records: seq<string>, errors: seq<string>, log: seq<Submission>)
    ensures records == Records(Singles(s, n)) && errors == Errors(Singles(s, n)) && log == SingleRange(n)
  {
    log := SingleRange(n);
    records, errors := CollectAnswers([], [], Singles(s, n));
  }

  method CreateTasksBatch(inputs: seq<TaskInput>, s: Service) returns (result: BatchResult, log: seq<Submission>)
    ensures !(forall i :: 0 <= i < |inputs| ==> IsValidInput(inputs[i])) ==> result == Invalid && log == []
    ensures (forall i :: 0 <= i < |inputs| ==> IsValidInput(inputs[i])) && |inputs| == 1 ==>
              log == Sent(s, 1) && result == Batch(Records(Singles(s, 1)), Errors(Singles(s, 1)))
    ensures (forall i :: 0 <= i < |inputs| ==> IsValidInput(inputs[i])) && |inputs| != 1 ==>
              log == Sent(s, |inputs|) &&
              result == Batch(Records(Answers(s, |inputs|)), Errors(Answers(s, |inputs|)))
    ensures result == Invalid <==> exists i :: 0 <= i < |inputs| && !WellAddressed(inputs[i])
    ensures result.Batch? ==> SortedOut(AnswersTo(s, |inputs|), result.records, result.errors)
  {
    forall i | 0 <= i < |inputs|
      ensures IsValidInput(inputs[i]) <==> WellAddressed(inputs[i])
    {
      ValidIffWellAddressed(inputs[i]);
    }
    AnswersAreSortedOut(AnswersTo(s, |inputs|));
    log := [];
    if |inputs| == 0 {
      return Batch([], []), log;
    }
    for i := 0 to |inputs|
      invariant forall j :: 0 <= j < i ==> IsValidInput(inputs[j])
    {
      if !IsValidInput(inputs[i]) {
        return Invalid, log;
      }
    }
    var records, errors;
    if |inputs| == 1 {
      records, errors, log := CreateTasksSequential(s, 1);
      return Batch(records, errors), log;
    }
    records, errors, log := SendChunks(s, |inputs|);
    result := Batch(records, errors);
  }

  /** `subs` are the sub-responses of the calls before `i`. */
  ghost predicate Collected(s: Service, subs: seq<SubResponse>, i: nat, n: nat) {
    subs + CompositeSubs(s, i, n) == CompositeSubs(s, 0, n)
  }

  lemma SubsStep(s: Service, subs: seq<SubResponse>, i: nat, n: nat)
    requires i < n && s.composite(i).Composite? && Collected(s, subs, i, n)
    ensures Collected(s, subs + s.composite(i).subs, i + BATCH_SIZE, n)
  {
    assert (subs + s.composite(i).subs) + CompositeSubs(s, i + BATCH_SIZE, n) == subs + CompositeSubs(s, i, n);
  }

  lemma AllCollected(s: Service, subs: seq<SubResponse>, i: nat, n: nat)
    requires i >= n && Collected(s, subs, i, n)
    ensures subs == CompositeSubs(s, 0, n)
  {
    assert subs + [] == subs;
  }

  /** The loop over chunks; a failed call abandons what was collected and resubmits every input. */
  method SendChunks(s: Service, n: nat) returns (records: seq<string>, errors: seq<string>, log: seq<Submission>)
    ensures log == Submitted(s, n)
    ensures records == Records(Answers(s, n)) && errors == Errors(Answers(s, n))
  {
    records, errors, log := [], [], [];
    ghost var subs: seq<SubResponse> := [];
    var i := 0;
    while i < n
      invariant FirstFailure(s, 0, n) == FirstFailure(s, i, n)
      invariant log == CompositeRange(0, if i < n then i else n)
      invariant Collected(s, subs, i, n)
      invariant records == Records(subs) && errors == Errors(subs)
    {
      log := log + CompositeRange(i, ChunkEnd(i, n));
      var response := s.composite(i);
      if response.CallFailed? {
        var fallback;
        records, errors, fallback := CreateTasksSequential(s, n);
        log := log + fallback;
        return;
      }
      RecordsConcat(subs, response.subs);
      SubsStep(s, subs, i, n);
      records, errors := CollectAnswers(records, errors, response.subs);
      subs := subs + response.subs;
      i := i + BATCH_SIZE;
    }
    AllCollected(s, subs, i, n);
  }

  // ---- consequences ----

  function TimesSubmitted(log: seq<Submission>, i: nat): nat {
    if log == [] then 0 else
    var n := |log| - 1;
    TimesSubmitted(log[..n], i) + if log[n].index == i then 1 else 0
  }

  lemma {:induction false} TimesInRange(log: seq<Submission>, from: nat, i: nat)
    requires forall j :: 0 <= j < |log| ==> log[j].index == from + j
    ensures TimesSubmitted(log, i) == if from <= i < from + |log| then 1 else 0
  {
    if log != [] {
      TimesInRange(log[..|log| - 1], from, i);
    }
  }

  lemma {:induction false} TimesConcat(a: seq<Submission>, b: seq<Submission>, i: nat)
    ensures TimesSubmitted(a + b, i) == TimesSubmitted(a, i) + TimesSubmitted(b, i)
  {
    if b == [] {
      assert a + b == a;
    } else {
      assert (a + b)[..|a + b| - 1] == a + b[..|b| - 1];
      TimesConcat(a, b[..|b| - 1], i);
    }
  }

  /**
   * Every input is part of one call, or of two: two exactly when there are several and it lies in a chunk up to and including
   * the first failed one. How many requests each call makes is counted in `TaskDelivery`.
   */
  lemma OnceOrTwice(s: Service, n: nat, i: nat)
    requires i < n
    ensures var k := FirstFailure(s, 0, n);
            TimesSubmitted(Sent(s, n), i) == if n > 1 && k.Some? && i < ChunkEnd(k.value, n) then 2 else 1
  {
    TimesInRange(SingleRange(1), 0, i);
    match FirstFailure(s, 0, n)
    case None => TimesInRange(CompositeRange(0, n), 0, i);
    case Some(k) =>
      TimesConcat(CompositeRange(0, ChunkEnd(k, n)), SingleRange(n), i);
      TimesInRange(CompositeRange(0, ChunkEnd(k, n)), 0, i);
      TimesInRange(SingleRange(n), 0, i);
  }

  /** A service whose composite call fails: both of two inputs are part of two calls. */
  lemma BothResubmitted(id: string)
    ensures var s := Service((i: nat) => CallFailed, (i: nat) => Created(id));
            TimesSubmitted(Sent(s, 2), 0) == 2 && TimesSubmitted(Sent(s, 2), 1) == 2
  {
    var s := Service((i: nat) => CallFailed, (i: nat) => Created(id));
    assert FirstFailure(s, 0, 2) == Some(0);
    OnceOrTwice(s, 2, 0);
    OnceOrTwice(s, 2, 1);
  }

  /** Every composite call of the run that is answered answers each of its sub-requests. */
  ghost predicate AnswersEach(s: Service, n: nat) {
    forall i: nat :: i < n && i % BATCH_SIZE == 0 && s.composite(i).Composite? ==> |s.composite(i).subs| == ChunkEnd(i, n) - i
  }

  lemma {:induction false} CompositeSubsLength(s: Service, i: nat, n: nat)
    requires FirstFailure(s, i, n).None? && AnswersEach(s, n) && i % BATCH_SIZE == 0
    ensures |CompositeSubs(s, i, n)| == if i < n then n - i else 0
    decreases n - i
  {
    if i < n {
      CompositeSubsLength(s, i + BATCH_SIZE, n);
    }
  }

  /** Given one sub-response per sub-request, every run reports exactly one outcome per input, failed calls or not. */
  lemma OneOutcomePerInput(s: Service, n: nat)
    requires AnswersEach(s, n)
    ensures |Records(Answers(s, n))| + |Errors(Answers(s, n))| == n
  {
    EveryAnswerReported(Answers(s, n));
    if FirstFailure(s, 0, n).None? {
      CompositeSubsLength(s, 0, n);
    }
  }

  /** Whether a run falls back: exactly when one of its composite calls, which start at the multiples of 25, fails. */
  lemma {:induction false} FallsBackIff(s: Service, i: nat, n: nat)
    requires i % 25 == 0
    ensures FirstFailure(s, i, n).Some? <==> exists k: nat :: i <= k < n && k % 25 == 0 && s.composite(k).CallFailed?
    decreases n - i
  {
    if i < n && !s.composite(i).CallFailed? {
      FallsBackIff(s, i + BATCH_SIZE, n);
    }
  }

  lemma {:induction false} CompositeSubAt(s: Service, i: nat, n: nat, k: nat)
    requires i <= k < n && i % 25 == 0 && FirstFailure(s, i, n).None? && AnswersEach(s, n)
    ensures var start := k / 25 * 25;
            && s.composite(start).Composite? && k - start < |s.composite(start).subs|
            && k - i < |CompositeSubs(s, i, n)| && CompositeSubs(s, i, n)[k - i] == s.composite(start).subs[k - start]
    decreases n - i
  {
    if k < i + 25 {
      SameChunk(i, k);
    } else {
      CompositeSubAt(s, i + BATCH_SIZE, n, k);
    }
  }

  lemma SameChunk(i: nat, k: nat)
    requires i % 25 == 0 && i <= k < i + 25
    ensures k / 25 * 25 == i
  {
  }

  /**
   * The answer reported for an input: that of its own create when it is the only one or some composite call fails, and
   * otherwise that of its own place in the composite call of its 25.
   */
  lemma AnswerOfInput(s: Service, n: nat, i: nat)
    requires i < n && AnswersEach(s, n)
    ensures |AnswersTo(s, n)| == n
    ensures var start := i / 25 * 25;
            if n == 1 || exists k: nat :: k < n && k % 25 == 0 && s.composite(k).CallFailed? then AnswersTo(s, n)[i] == s.single(i)
            else s.composite(start).Composite? && i - start < |s.composite(start).subs| && AnswersTo(s, n)[i] == s.composite(start).subs[i - start]
  {
    FallsBackIff(s, 0, n);
    if FirstFailure(s, 0, n).None? {
      CompositeSubsLength(s, 0, n);
      CompositeSubAt(s, 0, n, i);
    }
  }

  lemma {:induction false} AllCreatedSizes(subs: seq<SubResponse>)
    requires forall i :: 0 <= i < |subs| ==> subs[i].Created?
    ensures |Records(subs)| == |subs| && Errors(subs) == []
    ensures forall i :: 0 <= i < |subs| ==> Records(subs)[i] == subs[i].id
  {
    if subs != [] {
      AllCreatedSizes(subs[..|subs| - 1]);
    }
  }

  /** When every answer of the run is a created task, the batch has no error and one record for each input, in order. */
  lemma AllCreated(s: Service, n: nat)
    requires AnswersEach(s, n) && forall i :: 0 <= i < |AnswersTo(s, n)| ==> AnswersTo(s, n)[i].Created?
    ensures var r, e := Records(AnswersTo(s, n)), Errors(AnswersTo(s, n));
            && |r| == n && e == []
            && |AnswersTo(s, n)| == n && forall i :: 0 <= i < n ==> AnswersTo(s, n)[i] == Created(r[i])
  {
    AllCreatedSizes(AnswersTo(s, n));
    if n > 0 {
      AnswerOfInput(s, n, 0);
    }
  }

  /** Reference ids never repeat, within a call or across calls. */
  lemma ReferenceIdsDistinct(i: nat, j: nat)
    requires ReferenceId(i) == ReferenceId(j)
    ensures i == j
  {
    assert ReferenceId(i)[5..] == Decimal(i) && ReferenceId(j)[5..] == Decimal(j);
    ParseDecimal(i);
    ParseDecimal(j);
  }
}
