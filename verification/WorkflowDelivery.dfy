/** The workflow engine over the real batch: what resending does to its step-level idempotency. */
module WorkflowDelivery {
  import opened Text
  import Retry
  import opened Workflows
  import opened WorkflowRuns
  import TaskBatch
  import Delivery = TaskDelivery

  /** The copies the CRM makes of the inputs of a batch are those of one run of the batch, input by input. */
  ghost predicate IsSent(e: Env, batch: seq<CrmTask>, w: Delivery.Wire, carriedOut: Delivery.Request -> bool) {
    forall i :: 0 <= i < |batch| ==> e.copies(batch[i]) == Delivery.CopiesMade(w, carriedOut, |batch|, i)
  }

  ghost predicate SentBySome(e: Env, batch: seq<CrmTask>) {
    exists w, carriedOut :: IsSent(e, batch, w, carriedOut)
  }

  /** Every batch a trigger sends, turn by turn, goes through the real batch. */
  ghost predicate FireIsSent(p: Progress, fired: seq<Template>, e: Env) {
    fired == [] ||
    var init, t := fired[..|fired| - 1], fired[|fired| - 1];
    FireIsSent(p, init, e) && SentBySome(e, Batch(FireTemplates(p, init, e).store, t, e))
  }

  ghost predicate RunIsSent(ts: seq<Template>, store: seq<CrmTask>, fires: seq<Fire>) {
    fires == [] ||
    var init, f := fires[..|fires| - 1], fires[|fires| - 1];
    RunIsSent(ts, store, init) && FireIsSent(Start(StoreAfter(ts, store, init)), Matching(ts, f.event, f.subject), f.env)
  }

  lemma SentMakesSix(e: Env, batch: seq<CrmTask>)
    requires SentBySome(e, batch)
    ensures MakesOf(e, batch, 6)
  {
    var w, carriedOut :| IsSent(e, batch, w, carriedOut);
    forall i | 0 <= i < |batch|
      ensures e.copies(batch[i]) <= 6
    {
      Delivery.DuplicatedIff(w, carriedOut, |batch|, i);
    }
  }

  lemma {:induction false} FireMakesSix(p: Progress, fired: seq<Template>, e: Env)
    requires FireIsSent(p, fired, e)
    ensures FireMakes(p, fired, e, 6)
  {
    if fired != [] {
      var init, t := fired[..|fired| - 1], fired[|fired| - 1];
      FireMakesSix(p, init, e);
      SentMakesSix(e, Batch(FireTemplates(p, init, e).store, t, e));
    }
  }

  lemma {:induction false} RunMakesSix(ts: seq<Template>, store: seq<CrmTask>, fires: seq<Fire>)
    requires RunIsSent(ts, store, fires)
    ensures RunMakes(ts, store, fires, 6)
  {
    if fires != [] {
      var init, f := fires[..|fires| - 1], fires[|fires| - 1];
      RunMakesSix(ts, store, init);
      FireMakesSix(Start(StoreAfter(ts, store, init)), Matching(ts, f.event, f.subject), f.env);
    }
  }

  /** Over every sequence of triggers whose batches are really sent, no household ever has more than six tasks for a step. */
  lemma AtMostSixPerStep(ts: seq<Template>, store: seq<CrmTask>, fires: seq<Fire>)
    requires WellFormedAll(ts) && AtMost(store, ts, 6) && RunIsSent(ts, store, fires)
    ensures AtMost(StoreAfter(ts, store, fires), ts, 6)
  {
    RunMakesSix(ts, store, fires);
    NeverMore(ts, store, fires, 6);
  }

  /**
   * A missing step, at its place `i` in the batch sent: the household ends up with one task for each request that carried
   * its input and was carried out. So it has two or more exactly when two of those requests were, and at most three when the
   * step was the only one missing, since then no composite call is made.
   */
  lemma StepCopiesAre(p: Progress, ts: seq<Template>, t: Template, e: Env, sid: string, i: nat,
                      w: Delivery.Wire, carriedOut: Delivery.Request -> bool)
    requires WellFormedAll(ts) && t in ts && !Continues(p.store, e.householdId, t)
    requires StepNamed(t.steps, sid).Some? && Count(p.store, e.householdId, t, sid) == 0
    requires var batch := Batch(p.store, t, e);
             i < |batch| && batch[i] == TaskFor(t, StepNamed(t.steps, sid).value, e) && IsSent(e, batch, w, carriedOut)
    ensures var n, c := |Batch(p.store, t, e)|, Count(FireTemplate(p, t, e).store, e.householdId, t, sid);
            && c == Delivery.CopiesMade(w, carriedOut, n, i)
            && (c >= 2 <==> Delivery.TwoCarriedOut(Delivery.RequestsIn(w, n, i), carriedOut))
            && (n == 1 ==> c <= 3)
  {
    CountAfterFire(p, ts, t, e, e.householdId, t, sid);
    Delivery.DuplicatedIff(w, carriedOut, |Batch(p.store, t, e)|, i);
  }

  // ---- the duplicate ----

  /** The answer to every composite call is lost on the way back; single creates are answered. */
  function LostAnswers(): Delivery.Wire {
    Delivery.Wire((start: nat) => (attempt: nat) => Retry.TimedOut,
                  (i: nat) => (attempt: nat) => Retry.Answered(201, Retry.Json("id")))
  }

  lemma LostAnswersFail(n: nat)
    requires n > 0
    ensures TaskBatch.FirstFailure(Delivery.ServiceOf(LostAnswers()), 0, n) == Some(0)
  {
    assert !Retry.Transient(LostAnswers().composite(0)(0));
  }

  /** With everything carried out and the composite answers lost, every input of the first call of several is created twice. */
  lemma TwoCopies(n: nat, i: nat)
    requires 1 < n && i < n && i < TaskBatch.BATCH_SIZE
    ensures Delivery.CopiesMade(LostAnswers(), (r: Delivery.Request) => true, n, i) == 2
  {
    var w, all := LostAnswers(), (r: Delivery.Request) => true;
    LostAnswersFail(n);
    Delivery.RequestsPerInput(w, n, i);
    assert !Retry.Transient(w.composite(Delivery.ChunkStart(i))(0)) && !Retry.Transient(w.single(i)(0));
    var a, b := Delivery.RequestsOf(w, i, true), Delivery.RequestsOf(w, i, false);
    Delivery.CopiesConcat(a, b, all);
    CopiesOfOne(a, all);
    CopiesOfOne(b, all);
  }

  lemma CopiesOfOne(rs: seq<Delivery.Request>, carriedOut: Delivery.Request -> bool)
    requires |rs| == 1 && carriedOut(rs[0])
    ensures Delivery.Copies(rs, carriedOut) == 1
  {
    assert rs[..0] == [];
  }

  /** A trigger for a household, sent while composite answers are lost. */
  function LossyTrigger(householdId: string, householdName: string, stamp: string): Env {
    Env(householdId, householdName, _ => "", stamp, _ => 2, _ => true, _ => false)
  }

  lemma {:induction false} AllPending(steps: seq<Step>)
    ensures Pending(steps, {}) == steps
  {
    if steps != [] {
      AllPending(steps[1..]);
      assert steps == [steps[0]] + steps[1..];
    }
  }

  /** On an empty record every step is missing, and the batch holds one input for each. */
  lemma WholeBatch(t: Template, e: Env)
    ensures |Batch([], t, e)| == |t.steps|
  {
    assert ExistingIds([], e.householdId, t) == {};
    AllPending(t.steps);
    TasksForSizes(t.steps, t, e);
  }

  lemma AllTwice(e: Env, batch: seq<CrmTask>)
    requires 1 < |batch| <= TaskBatch.BATCH_SIZE && forall task :: e.copies(task) == 2
    ensures IsSent(e, batch, LostAnswers(), (r: Delivery.Request) => true)
  {
    forall i | 0 <= i < |batch|
      ensures e.copies(batch[i]) == Delivery.CopiesMade(LostAnswers(), (r: Delivery.Request) => true, |batch|, i)
    {
      TwoCopies(|batch|, i);
    }
  }

  lemma EachStepTwice(t: Template, ts: seq<Template>, e: Env, k: nat)
    requires WellFormedAll(ts) && t in ts && k < |t.steps| && forall task :: e.copies(task) == 2
    ensures Count(FireTemplate(Start([]), t, e).store, e.householdId, t, t.steps[k].id) == 2
  {
    StepIsNamed(t.steps, k);
    CountAfterFire(Start([]), ts, t, e, e.householdId, t, t.steps[k].id);
  }

  /**
   * The onboarding of a new household with an empty record: its six tasks go out in one composite call, which the CRM carries
   * out and whose answer is lost. The fallback creates all six again, and every step has two tasks.
   */
  lemma OnboardingTwice(t: Template, other: Template, householdId: string, householdName: string, stamp: string)
    requires IsOnboarding(t) && IsExpiration(other)
    ensures var e := LossyTrigger(householdId, householdName, stamp);
            && |Batch([], t, e)| == 6
            && IsSent(e, Batch([], t, e), LostAnswers(), (r: Delivery.Request) => true)
            && forall k :: 0 <= k < 6 ==> Count(FireTemplate(Start([]), t, e).store, householdId, t, t.steps[k].id) == 2
  {
    var e := LossyTrigger(householdId, householdName, stamp);
    ShippedTemplatesAreWellFormed(t, other);
    WholeBatch(t, e);
    AllTwice(e, Batch([], t, e));
    forall k | 0 <= k < 6
      ensures Count(FireTemplate(Start([]), t, e).store, householdId, t, t.steps[k].id) == 2
    {
      EachStepTwice(t, [t, other], e, k);
    }
  }
}
