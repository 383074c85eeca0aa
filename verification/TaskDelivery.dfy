/** The requests a batch of tasks really makes: every call of `TaskBatch` goes through the retry loop of `Retry`. */
module TaskDelivery {
  import opened Text
  import Retry
  import opened TaskBatch

  /** The answers to every attempt at the composite call that starts at an index, and at the single create of an index. */
  datatype Wire = Wire(
    composite: nat -> (nat -> Retry.Attempt<seq<SubResponse>>),
    single: nat -> (nat -> Retry.Attempt<string>))

  /** A composite call whose reply is an error, unreadable or missing counts as failed. */
  function ChunkAnswer(r: Retry.FetchResult<seq<SubResponse>>): ChunkResponse {
    if r.Response? && Retry.Ok(r.status) && r.body.Json? then Composite(r.body.value) else CallFailed
  }

  /** The reply to a single create is the id of the record, or the text of an error. */
  function SingleAnswer(r: Retry.FetchResult<string>): SubResponse {
    if r.Response? && r.body.Json? then
      if Retry.Ok(r.status) then Created(r.body.value) else Refused(r.body.value)
    else Refused("Create failed")
  }

  function ServiceOf(w: Wire): Service {
    Service((i: nat) => ChunkAnswer(Retry.Fetched(w.composite(i))), (i: nat) => SingleAnswer(Retry.Fetched(w.single(i))))
  }

  // ---- requests that carry an input ----

  datatype Request = Request(index: nat, viaComposite: bool, attempt: nat)

  /** The start of the composite call an input is part of. */
  function ChunkStart(i: nat): (start: nat)
    ensures start <= i < start + BATCH_SIZE && start % BATCH_SIZE == 0
  {
    i - i % BATCH_SIZE
  }

  /** How many requests one call is made of. */
  function Tries(w: Wire, i: nat, viaComposite: bool): (n: nat)
    ensures 1 <= n <= 3
  {
    1 + if viaComposite then Retry.Deciding(w.composite(ChunkStart(i))) else Retry.Deciding(w.single(i))
  }

  function RequestsOf(w: Wire, i: nat, viaComposite: bool): (rs: seq<Request>)
    ensures |rs| == Tries(w, i, viaComposite)
    ensures forall a :: 0 <= a < |rs| ==> rs[a] == Request(i, viaComposite, a)
  {
    seq(Tries(w, i, viaComposite), a requires 0 <= a < Tries(w, i, viaComposite) => Request(i, viaComposite, a))
  }

  /** The requests that carry input `i` in a run, in order. */
  function RequestsFor(w: Wire, log: seq<Submission>, i: nat): seq<Request> {
    if log == [] then [] else
    var last := log[|log| - 1];
    RequestsFor(w, log[..|log| - 1], i) + if last.index == i then RequestsOf(w, i, last.reference.Some?) else []
  }

  lemma {:induction false} RequestsInRange(w: Wire, log: seq<Submission>, from: nat, composite: bool, i: nat)
    requires forall j :: 0 <= j < |log| ==> log[j].index == from + j && log[j].reference.Some? == composite
    ensures RequestsFor(w, log, i) == if from <= i < from + |log| then RequestsOf(w, i, composite) else []
  {
    if log != [] {
      RequestsInRange(w, log[..|log| - 1], from, composite, i);
    }
  }

  lemma {:induction false} RequestsConcat(w: Wire, a: seq<Submission>, b: seq<Submission>, i: nat)
    ensures RequestsFor(w, a + b, i) == RequestsFor(w, a, i) + RequestsFor(w, b, i)
  {
    if b == [] {
      assert a + b == a;
    } else {
      assert (a + b)[..|a + b| - 1] == a + b[..|b| - 1];
      RequestsConcat(w, a, b[..|b| - 1], i);
    }
  }

  /** A composite call of the run fails, so that every input is sent again on its own. */
  predicate FallsBack(w: Wire, n: nat) {
    n > 1 && FirstFailure(ServiceOf(w), 0, n).Some?
  }

  /** The run sends an input again that it has already sent in a composite call. */
  predicate Resubmitted(w: Wire, n: nat, i: nat) {
    FallsBack(w, n) && i < ChunkEnd(FirstFailure(ServiceOf(w), 0, n).value, n)
  }

  /** The run sends an input in a composite call. */
  predicate SentTogether(w: Wire, n: nat, i: nat) {
    n > 1 && (!FallsBack(w, n) || Resubmitted(w, n, i))
  }

  /** The run sends an input on its own. */
  predicate SentAlone(w: Wire, n: nat) {
    n == 1 || FallsBack(w, n)
  }

  /**
   * The requests that carry an input: every try of its composite call, unless the input is the only one or that call comes
   * after the first failed one, and then, after a failed one or for an only input, every try of its single create. There are
   * at most six, and at most three for an only input.
   */
  lemma RequestsPerInput(w: Wire, n: nat, i: nat)
    requires i < n
    ensures RequestsFor(w, Sent(ServiceOf(w), n), i) ==
            (if SentTogether(w, n, i) then RequestsOf(w, i, true) else [])
            + (if SentAlone(w, n) then RequestsOf(w, i, false) else [])
    ensures 1 <= |RequestsFor(w, Sent(ServiceOf(w), n), i)| <= if n == 1 then 3 else 6
  {
    if n == 1 {
      RequestsInRange(w, SingleRange(1), 0, false, i);
      assert [] + RequestsOf(w, i, false) == RequestsOf(w, i, false);
    } else {
      RequestsOfMany(w, n, i);
    }
  }

  lemma RequestsOfMany(w: Wire, n: nat, i: nat)
    requires i < n && n > 1
    ensures RequestsFor(w, Submitted(ServiceOf(w), n), i) ==
            (if SentTogether(w, n, i) then RequestsOf(w, i, true) else [])
            + (if SentAlone(w, n) then RequestsOf(w, i, false) else [])
  {
    match FirstFailure(ServiceOf(w), 0, n)
    case None =>
      RequestsInRange(w, CompositeRange(0, n), 0, true, i);
      assert RequestsOf(w, i, true) + [] == RequestsOf(w, i, true);
    case Some(k) =>
      RequestsConcat(w, CompositeRange(0, ChunkEnd(k, n)), SingleRange(n), i);
      RequestsInRange(w, CompositeRange(0, ChunkEnd(k, n)), 0, true, i);
      RequestsInRange(w, SingleRange(n), 0, false, i);
  }

  /** When nothing gets through, every one of them is made. */
  lemma SixRequests(w: Wire, n: nat, i: nat)
    requires i < n && i < BATCH_SIZE
    requires forall j: nat, a: nat :: w.composite(j)(a).NetworkFailed? && w.single(j)(a).NetworkFailed?
    ensures |RequestsFor(w, Sent(ServiceOf(w), n), i)| == if n == 1 then 3 else 6
  {
    assert Retry.Transient(w.composite(0)(0)) && Retry.Transient(w.composite(0)(1)) && w.composite(0)(2).NetworkFailed?;
    assert Retry.Transient(w.single(i)(0)) && Retry.Transient(w.single(i)(1));
    assert FirstFailure(ServiceOf(w), 0, n) == Some(0);
    assert ChunkStart(i) == 0;
    RequestsPerInput(w, n, i);
  }

  // ---- copies ----

  /** The CRM creates one task for every request it carries out, whether or not the answer comes back. */
  function Copies(rs: seq<Request>, carriedOut: Request -> bool): nat {
    if rs == [] then 0 else Copies(rs[..|rs| - 1], carriedOut) + Bit(carriedOut(rs[|rs| - 1]))
  }

  lemma {:induction false} CopiesConcat(a: seq<Request>, b: seq<Request>, carriedOut: Request -> bool)
    ensures Copies(a + b, carriedOut) == Copies(a, carriedOut) + Copies(b, carriedOut)
  {
    if b == [] {
      assert a + b == a;
    } else {
      assert (a + b)[..|a + b| - 1] == a + b[..|b| - 1];
      CopiesConcat(a, b[..|b| - 1], carriedOut);
    }
  }

  lemma {:induction false} CopiesBound(rs: seq<Request>, carriedOut: Request -> bool)
    ensures Copies(rs, carriedOut) <= |rs|
    ensures Copies(rs, carriedOut) >= 1 <==> exists a :: 0 <= a < |rs| && carriedOut(rs[a])
  {
    if rs != [] {
      var n := |rs| - 1;
      CopiesBound(rs[..n], carriedOut);
      if a :| 0 <= a < |rs| && carriedOut(rs[a]) {
        assert a < n ==> rs[..n][a] == rs[a];
      }
      if a :| 0 <= a < n && carriedOut(rs[..n][a]) {
        assert carriedOut(rs[a]);
      }
    }
  }

  function CopiesMade(w: Wire, carriedOut: Request -> bool, n: nat, i: nat): nat {
    Copies(RequestsFor(w, Sent(ServiceOf(w), n), i), carriedOut)
  }

  lemma {:induction false} CopiesTwice(rs: seq<Request>, carriedOut: Request -> bool)
    ensures Copies(rs, carriedOut) >= 2 <==> exists a, b :: 0 <= a < b < |rs| && carriedOut(rs[a]) && carriedOut(rs[b])
  {
    if rs != [] {
      var n := |rs| - 1;
      CopiesTwice(rs[..n], carriedOut);
      CopiesBound(rs[..n], carriedOut);
      if a, b :| 0 <= a < b < |rs| && carriedOut(rs[a]) && carriedOut(rs[b]) {
        assert rs[..n][a] == rs[a] && (b < n ==> rs[..n][b] == rs[b]);
      }
      if a, b :| 0 <= a < b < n && carriedOut(rs[..n][a]) && carriedOut(rs[..n][b]) {
        assert carriedOut(rs[a]) && carriedOut(rs[b]);
      }
      if a :| 0 <= a < n && carriedOut(rs[..n][a]) {
        assert carriedOut(rs[n]) ==> carriedOut(rs[a]) && carriedOut(rs[n]);
      }
    }
  }

  /** Two of these requests were carried out. */
  predicate TwoCarriedOut(rs: seq<Request>, carriedOut: Request -> bool) {
    exists a, b :: 0 <= a < b < |rs| && carriedOut(rs[a]) && carriedOut(rs[b])
  }

  /** The requests that carry input `i` of a batch of `n`. */
  function RequestsIn(w: Wire, n: nat, i: nat): seq<Request> {
    RequestsFor(w, Sent(ServiceOf(w), n), i)
  }

  /** At most six copies are made of an input, three of an only one, and two or more exactly when the CRM carried out two of its requests. */
  lemma DuplicatedIff(w: Wire, carriedOut: Request -> bool, n: nat, i: nat)
    requires i < n
    ensures CopiesMade(w, carriedOut, n, i) <= if n == 1 then 3 else 6
    ensures CopiesMade(w, carriedOut, n, i) >= 2 <==> TwoCarriedOut(RequestsIn(w, n, i), carriedOut)
  {
    RequestsPerInput(w, n, i);
    CopiesBound(RequestsFor(w, Sent(ServiceOf(w), n), i), carriedOut);
    CopiesTwice(RequestsFor(w, Sent(ServiceOf(w), n), i), carriedOut);
  }

  /**
   * A composite call that was carried out and whose answer was then lost: the fallback creates every task of that call, and
   * of the calls before it, a second time.
   */
  lemma LostAnswerDuplicates(w: Wire, carriedOut: Request -> bool, n: nat, i: nat)
    requires i < n && Resubmitted(w, n, i)
    requires carriedOut(Request(i, true, 0)) && carriedOut(Request(i, false, 0))
    ensures CopiesMade(w, carriedOut, n, i) >= 2
  {
    RequestsPerInput(w, n, i);
    var a, b := RequestsOf(w, i, true), RequestsOf(w, i, false);
    CopiesConcat(a, b, carriedOut);
    CopiesBound(a, carriedOut);
    CopiesBound(b, carriedOut);
    assert carriedOut(a[0]) && carriedOut(b[0]);
  }
}
