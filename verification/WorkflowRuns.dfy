/** What every run of the workflow engine keeps. */
module WorkflowRuns {
  import opened Text
  import opened Workflows

  // ---- templates the engine can tell apart ----

  predicate DistinctSteps(steps: seq<Step>) {
    forall i, j :: 0 <= i < j < |steps| ==> steps[i].id != steps[j].id
  }

  predicate WellFormed(t: Template) {
    SpaceFree(t.id) && !Includes("WORKFLOW_ID:" + t.id, "STEP:")
    && (forall i :: 0 <= i < |t.steps| ==> SpaceFree(t.steps[i].id)) && DistinctSteps(t.steps)
  }

  predicate PrefixFree(ts: seq<Template>) {
    forall t, u :: t in ts && u in ts && t != u ==> !(t.id <= u.id)
  }

  predicate WellFormedAll(ts: seq<Template>) {
    (forall t :: t in ts ==> WellFormed(t)) && PrefixFree(ts)
  }

  // ---- what one batch adds, step by step ----

  /** A task the engine prints counts for its own household, template and step and for nothing else. */
  lemma TaskForCounts(t: Template, s: Step, e: Env, hh: string, u: Template, sid: string)
    requires WellFormed(t) && WellFormed(u) && (t == u || !(u.id <= t.id)) && SpaceFree(s.id)
    ensures IsTaskOf(TaskFor(t, s, e), hh, u, sid) <==> hh == e.householdId && u == t && sid == s.id
  {
    var task := TaskFor(t, s, e);
    var rest := task.description[|"WORKFLOW_ID:" + t.id + " STEP:" + s.id + "\n"|..];
    assert task.description == "WORKFLOW_ID:" + t.id + " STEP:" + s.id + "\n" + rest;
    StepRoundTrip(t.id, s.id, rest);
    DescriptionSplit(t.id, s.id, rest);
    BelongsOnlyToItsTemplate(t, u, e.householdId, task.subject, s.id + "\n" + rest);
  }

  lemma DescriptionSplit(tid: string, sid: string, rest: string)
    ensures "WORKFLOW_ID:" + tid + " STEP:" + sid + "\n" + rest == "WORKFLOW_ID:" + tid + " STEP:" + (sid + "\n" + rest)
  {
  }

  function StepNamed(steps: seq<Step>, sid: string): Option<Step> {
    if steps == [] then None else if steps[0].id == sid then Some(steps[0]) else StepNamed(steps[1..], sid)
  }

  lemma {:induction false} StepNamedFinds(steps: seq<Step>, sid: string)
    ensures StepNamed(steps, sid).Some? ==> StepNamed(steps, sid).value in steps && StepNamed(steps, sid).value.id == sid
    ensures StepNamed(steps, sid).None? ==> forall i :: 0 <= i < |steps| ==> steps[i].id != sid
  {
    if steps != [] {
      StepNamedFinds(steps[1..], sid);
      assert forall i :: 0 < i < |steps| ==> steps[i] == steps[1..][i - 1];
    }
  }

  /** How many tasks for step `sid` a batch for `steps` puts into the store. */
  function Delivers(steps: seq<Step>, t: Template, e: Env, delayed: bool, sid: string): nat {
    var s := StepNamed(steps, sid);
    if s.Some? && (s.value.delayDays > 0) == delayed then e.copies(TaskFor(t, s.value, e)) else 0
  }

  lemma {:induction false} CountTasksFor(steps: seq<Step>, t: Template, e: Env, delayed: bool, hh: string,
                                         u: Template, sid: string)
    requires WellFormed(t) && WellFormed(u) && (t == u || !(u.id <= t.id))
    requires DistinctSteps(steps) && forall i :: 0 <= i < |steps| ==> SpaceFree(steps[i].id)
    ensures Count(Created(TasksFor(steps, t, e, delayed), e.copies), hh, u, sid)
         == if hh == e.householdId && u == t then Delivers(steps, t, e, delayed, sid) else 0
  {
    if steps != [] {
      var s := steps[0];
      CountTasksFor(steps[1..], t, e, delayed, hh, u, sid);
      TaskForCounts(t, s, e, hh, u, sid);
      NotNamedInTail(steps, sid);
      if (s.delayDays > 0) == delayed {
        CreatedHead(TaskFor(t, s, e), TasksFor(steps[1..], t, e, delayed), e.copies, hh, u, sid);
      }
    }
  }

  lemma {:induction false} CountRepeated(task: CrmTask, n: nat, hh: string, u: Template, sid: string)
    ensures Count(Repeated(task, n), hh, u, sid) == if IsTaskOf(task, hh, u, sid) then n else 0
  {
    if n > 0 {
      assert Repeated(task, n)[1..] == Repeated(task, n - 1);
      CountRepeated(task, n - 1, hh, u, sid);
    }
  }

  lemma CreatedHead(task: CrmTask, tasks: seq<CrmTask>, copies: CrmTask -> nat, hh: string, u: Template, sid: string)
    ensures Count(Created([task] + tasks, copies), hh, u, sid)
         == (if IsTaskOf(task, hh, u, sid) then copies(task) else 0) + Count(Created(tasks, copies), hh, u, sid)
  {
    assert ([task] + tasks)[1..] == tasks;
    CountConcat(Repeated(task, copies(task)), Created(tasks, copies), hh, u, sid);
    CountRepeated(task, copies(task), hh, u, sid);
  }

  lemma NotNamedInTail(steps: seq<Step>, sid: string)
    requires steps != [] && DistinctSteps(steps)
    ensures steps[0].id == sid ==> StepNamed(steps[1..], sid).None?
  {
    StepNamedFinds(steps[1..], sid);
    assert forall i :: 0 <= i < |steps[1..]| ==> steps[1..][i] == steps[i + 1];
  }

  lemma {:induction false} CreatedConcat(a: seq<CrmTask>, b: seq<CrmTask>, copies: CrmTask -> nat)
    ensures Created(a + b, copies) == Created(a, copies) + Created(b, copies)
  {
    if a == [] {
      assert a + b == b;
    } else {
      assert (a + b)[1..] == a[1..] + b;
      CreatedConcat(a[1..], b, copies);
    }
  }

  lemma {:induction false} PendingNamed(steps: seq<Step>, ids: set<string>, sid: string)
    ensures StepNamed(Pending(steps, ids), sid) == if sid in ids then None else StepNamed(steps, sid)
  {
    if steps != [] {
      PendingNamed(steps[1..], ids, sid);
      if steps[0].id !in ids {
        assert ([steps[0]] + Pending(steps[1..], ids))[1..] == Pending(steps[1..], ids);
      }
    }
  }

  lemma {:induction false} PendingIsWellFormed(steps: seq<Step>, ids: set<string>)
    requires DistinctSteps(steps)
    ensures DistinctSteps(Pending(steps, ids))
  {
    if steps != [] {
      PendingIsWellFormed(steps[1..], ids);
      var rest := Pending(steps[1..], ids);
      forall j | 0 <= j < |rest|
        ensures rest[j].id != steps[0].id
      {
        assert rest[j] in steps[1..];
      }
    }
  }

  /** The immediate and the delayed half of a batch together put the copies of each step into the store. */
  lemma CountBatch(steps: seq<Step>, t: Template, e: Env, hh: string, u: Template, sid: string)
    requires WellFormed(t) && WellFormed(u) && (t == u || !(u.id <= t.id))
    requires DistinctSteps(steps) && forall i :: 0 <= i < |steps| ==> SpaceFree(steps[i].id)
    ensures Count(Created(AllTasks(steps, t, e), e.copies), hh, u, sid) ==
            if hh == e.householdId && u == t && StepNamed(steps, sid).Some? then e.copies(TaskFor(t, StepNamed(steps, sid).value, e))
            else 0
  {
    var a, b := TasksFor(steps, t, e, false), TasksFor(steps, t, e, true);
    CountTasksFor(steps, t, e, false, hh, u, sid);
    CountTasksFor(steps, t, e, true, hh, u, sid);
    CreatedConcat(a, b, e.copies);
    CountConcat(Created(a, e.copies), Created(b, e.copies), hh, u, sid);
  }

  /** The copies the CRM makes for a step that the template has and the household lacks. */
  function MissingCopies(store: seq<CrmTask>, t: Template, e: Env, hh: string, u: Template, sid: string): nat {
    if hh == e.householdId && u == t && StepNamed(t.steps, sid).Some? && Count(store, hh, t, sid) == 0
    then e.copies(TaskFor(t, StepNamed(t.steps, sid).value, e)) else 0
  }

  /** Exactly the missing steps gain tasks, as many as the CRM makes of one input; every other count is unchanged. */
  lemma CountAfterProcess(p: Progress, t: Template, e: Env, hh: string, u: Template, sid: string)
    requires WellFormed(t) && WellFormed(u) && (t == u || !(u.id <= t.id))
    ensures Count(ProcessTemplate(p, t, e).store, hh, u, sid) == Count(p.store, hh, u, sid) + MissingCopies(p.store, t, e, hh, u, sid)
  {
    CountInBatch(p.store, t, e, hh, u, sid);
    ProcessedStore(p, t, e);
    CountConcat(p.store, Created(Batch(p.store, t, e), e.copies), hh, u, sid);
  }

  /** The inputs sent for a template, as decided from a view of the store. */
  function Batch(view: seq<CrmTask>, t: Template, e: Env): seq<CrmTask> {
    AllTasks(Pending(t.steps, ExistingIds(view, e.householdId, t)), t, e)
  }

  lemma CountInBatch(view: seq<CrmTask>, t: Template, e: Env, hh: string, u: Template, sid: string)
    requires WellFormed(t) && WellFormed(u) && (t == u || !(u.id <= t.id))
    ensures Count(Created(Batch(view, t, e), e.copies), hh, u, sid) == MissingCopies(view, t, e, hh, u, sid)
  {
    var ids := ExistingIds(view, e.householdId, t);
    PendingNamed(t.steps, ids, sid);
    PendingIsWellFormed(t.steps, ids);
    ExistingIffCounted(view, e.householdId, t, sid);
    CountBatch(Pending(t.steps, ids), t, e, hh, u, sid);
  }

  lemma ProcessedStore(p: Progress, t: Template, e: Env)
    ensures ProcessTemplate(p, t, e).store == p.store + Created(Batch(p.store, t, e), e.copies)
  {
    var pending := Pending(t.steps, ExistingIds(p.store, e.householdId, t));
    SendBatchStore(p.(skippedSteps := p.skippedSteps + (|t.steps| - |pending|)), t, AllTasks(pending, t, e), e);
  }

  lemma SendBatchStore(q: Progress, t: Template, tasks: seq<CrmTask>, e: Env)
    ensures SendBatch(q, t, tasks, e).store == q.store + Created(tasks, e.copies)
  {
    if tasks == [] {
      assert q.store + [] == q.store;
    }
  }

  // ---- which inputs are sent ----

  lemma {:induction false} TaskForStep(steps: seq<Step>, t: Template, e: Env, k: nat) returns (i: nat)
    requires k < |steps|
    ensures var tasks := TasksFor(steps, t, e, steps[k].delayDays > 0); i < |tasks| && tasks[i] == TaskFor(t, steps[k], e)
  {
    var delayed := steps[k].delayDays > 0;
    if k == 0 {
      i := 0;
    } else {
      var j := TaskForStep(steps[1..], t, e, k - 1);
      i := if (steps[0].delayDays > 0) == delayed then j + 1 else j;
    }
  }

  lemma StepInAllTasks(steps: seq<Step>, t: Template, e: Env, k: nat) returns (i: nat)
    requires k < |steps|
    ensures i < |AllTasks(steps, t, e)| && AllTasks(steps, t, e)[i] == TaskFor(t, steps[k], e)
  {
    var j := TaskForStep(steps, t, e, k);
    i := if steps[k].delayDays > 0 then |TasksFor(steps, t, e, false)| + j else j;
  }

  lemma MissingIsPending(view: seq<CrmTask>, hh: string, t: Template, sid: string) returns (k: nat)
    requires StepNamed(t.steps, sid).Some? && Count(view, hh, t, sid) == 0
    ensures var pending := Pending(t.steps, ExistingIds(view, hh, t)); k < |pending| && pending[k] == StepNamed(t.steps, sid).value
  {
    var ids := ExistingIds(view, hh, t);
    ExistingIffCounted(view, hh, t, sid);
    PendingNamed(t.steps, ids, sid);
    StepNamedFinds(Pending(t.steps, ids), sid);
    k :| 0 <= k < |Pending(t.steps, ids)| && Pending(t.steps, ids)[k] == StepNamed(t.steps, sid).value;
  }

  /** Every missing step has its input in the batch. */
  lemma MissingIsSent(view: seq<CrmTask>, t: Template, e: Env, sid: string) returns (i: nat)
    requires StepNamed(t.steps, sid).Some? && Count(view, e.householdId, t, sid) == 0
    ensures i < |Batch(view, t, e)| && Batch(view, t, e)[i] == TaskFor(t, StepNamed(t.steps, sid).value, e)
  {
    var k := MissingIsPending(view, e.householdId, t, sid);
    i := StepInAllTasks(Pending(t.steps, ExistingIds(view, e.householdId, t)), t, e, k);
  }

  lemma {:induction false} TasksForSizes(steps: seq<Step>, t: Template, e: Env)
    ensures |TasksFor(steps, t, e, false)| + |TasksFor(steps, t, e, true)| == |steps|
  {
    if steps != [] {
      TasksForSizes(steps[1..], t, e);
    }
  }

  // ---- the early continue ----

  /** The test of the early continue. */
  predicate Continues(store: seq<CrmTask>, hh: string, t: Template) {
    AllDone(store, hh, t) && t.id != "document-expiration"
  }

  /** The early continue is taken although a step is missing. */
  predicate Drops(store: seq<CrmTask>, hh: string, t: Template) {
    Continues(store, hh, t) && Pending(t.steps, ExistingIds(store, hh, t)) != []
  }

  function StepIdSet(steps: seq<Step>): set<string> {
    set i | 0 <= i < |steps| :: steps[i].id
  }

  lemma {:induction false} StepIdSetSize(steps: seq<Step>)
    requires DistinctSteps(steps)
    ensures |StepIdSet(steps)| == |steps|
  {
    if steps != [] {
      var n := |steps| - 1;
      StepIdSetSize(steps[..n]);
      assert StepIdSet(steps) == StepIdSet(steps[..n]) + {steps[n].id};
    }
  }

  /** Steps the template has and the record lacks. */
  function MissingIds(store: seq<CrmTask>, hh: string, t: Template): set<string> {
    StepIdSet(t.steps) - ExistingIds(store, hh, t)
  }

  /** Step ids on record that the template does not have. */
  function ForeignIds(store: seq<CrmTask>, hh: string, t: Template): set<string> {
    ExistingIds(store, hh, t) - StepIdSet(t.steps)
  }

  lemma {:induction false} PendingEmptyIff(steps: seq<Step>, ids: set<string>)
    ensures Pending(steps, ids) == [] <==> StepIdSet(steps) - ids == {}
  {
    if steps != [] {
      PendingEmptyIff(steps[1..], ids);
      assert StepIdSet(steps) == StepIdSet(steps[1..]) + {steps[0].id} by {
        assert forall i :: 0 < i < |steps| ==> steps[i] == steps[1..][i - 1];
      }
      assert StepIdSet(steps) - ids == (StepIdSet(steps[1..]) - ids) + ({steps[0].id} - ids);
      if steps[0].id !in ids {
        assert steps[0].id in StepIdSet(steps) - ids;
      }
    }
  }

  lemma CommonPart(a: set<string>, b: set<string>)
    ensures |a| - |a - b| == |b| - |b - a|
  {
    assert a == (a - b) + a * b && b == (b - a) + a * b;
  }

  /** The count test holds exactly when the foreign ids on record are at least as many as the missing steps. */
  lemma AllDoneIff(store: seq<CrmTask>, hh: string, t: Template)
    requires DistinctSteps(t.steps)
    ensures AllDone(store, hh, t) <==>
            |TemplateTasks(store, hh, t)| > 0 && |ForeignIds(store, hh, t)| >= |MissingIds(store, hh, t)|
  {
    StepIdSetSize(t.steps);
    CommonPart(ExistingIds(store, hh, t), StepIdSet(t.steps));
  }

  /**
   * Exactly when the early continue drops a missing step: outside document expiration, when at least as many ids on record
   * are foreign to the template as steps are missing. With no foreign id it never does, by a pigeonhole on the step ids.
   */
  lemma DropsIff(store: seq<CrmTask>, hh: string, t: Template)
    requires DistinctSteps(t.steps)
    ensures Drops(store, hh, t) <==>
            t.id != "document-expiration" && MissingIds(store, hh, t) != {} &&
            |ForeignIds(store, hh, t)| >= |MissingIds(store, hh, t)|
  {
    AllDoneIff(store, hh, t);
    PendingEmptyIff(t.steps, ExistingIds(store, hh, t));
    if MissingIds(store, hh, t) != {} && |ForeignIds(store, hh, t)| >= |MissingIds(store, hh, t)| {
      var x :| x in MissingIds(store, hh, t);
      assert |MissingIds(store, hh, t)| > 0 && ForeignIds(store, hh, t) != {};
      var y :| y in ForeignIds(store, hh, t);
      assert y in StepIds(TemplateTasks(store, hh, t));
    }
  }

  /**
   * The early continue, and the document-expiration exception to it, change the skipped-step count and nothing else if and
   * only if no missing step is dropped.
   */
  lemma ContinueOnlySkipsCounting(p: Progress, t: Template, e: Env)
    requires !p.threw
    ensures FireTemplate(p, t, e).(skippedSteps := 0) == ProcessTemplate(p, t, e).(skippedSteps := 0)
       <==> !Drops(p.store, e.householdId, t)
  {
    var pending := Pending(t.steps, ExistingIds(p.store, e.householdId, t));
    TasksForSizes(pending, t, e);
    if Drops(p.store, e.householdId, t) {
      NonEmptyBatchShows(p.(skippedSteps := p.skippedSteps + (|t.steps| - |pending|)), t, AllTasks(pending, t, e), e);
    }
  }

  lemma NonEmptyBatchShows(q: Progress, t: Template, tasks: seq<CrmTask>, e: Env)
    requires tasks != [] && !q.threw
    ensures var r := SendBatch(q, t, tasks, e); r.threw || |r.triggered| == |q.triggered| + 1
  {
  }

  lemma NoTasks(t: Template, e: Env)
    ensures AllTasks([], t, e) == []
  {
  }

  // ---- the invariant of every run ----

  /** At most `n` tasks per household, template and step. */
  ghost predicate AtMost(store: seq<CrmTask>, ts: seq<Template>, n: nat) {
    forall hh, t, sid :: t in ts ==> Count(store, hh, t, sid) <= n
  }

  /** How many tasks one turn of the loop adds for a step. */
  function Added(store: seq<CrmTask>, t: Template, e: Env, hh: string, u: Template, sid: string): nat {
    if Continues(store, e.householdId, t) then 0 else MissingCopies(store, t, e, hh, u, sid)
  }

  /** One turn of the loop, early continue or not: only missing steps gain tasks, as many as the CRM makes of one input. */
  lemma CountAfterFire(p: Progress, ts: seq<Template>, t: Template, e: Env, hh: string, u: Template, sid: string)
    requires WellFormedAll(ts) && t in ts && u in ts
    ensures Count(FireTemplate(p, t, e).store, hh, u, sid) == Count(p.store, hh, u, sid) + Added(p.store, t, e, hh, u, sid)
  {
    if !Continues(p.store, e.householdId, t) {
      CountAfterProcess(p, t, e, hh, u, sid);
    }
  }

  /** The CRM makes at most `n` copies of each input of a batch. */
  predicate MakesOf(e: Env, batch: seq<CrmTask>, n: nat) {
    forall i :: 0 <= i < |batch| ==> e.copies(batch[i]) <= n
  }

  lemma FireTemplateKeepsBound(p: Progress, ts: seq<Template>, t: Template, e: Env, n: nat)
    requires WellFormedAll(ts) && AtMost(p.store, ts, n) && t in ts && MakesOf(e, Batch(p.store, t, e), n)
    ensures AtMost(FireTemplate(p, t, e).store, ts, n)
  {
    forall hh, u, sid | u in ts
      ensures Count(FireTemplate(p, t, e).store, hh, u, sid) <= n
    {
      CountAfterFire(p, ts, t, e, hh, u, sid);
      if Added(p.store, t, e, hh, u, sid) > 0 {
        var i := MissingIsSent(p.store, t, e, sid);
      }
    }
  }

  /** In every turn of a trigger the CRM makes at most `n` copies of what is sent. */
  ghost predicate FireMakes(p: Progress, fired: seq<Template>, e: Env, n: nat) {
    fired == [] ||
    var init, t := fired[..|fired| - 1], fired[|fired| - 1];
    FireMakes(p, init, e, n) && MakesOf(e, Batch(FireTemplates(p, init, e).store, t, e), n)
  }

  lemma {:induction false} FireTemplatesKeeps(p: Progress, ts: seq<Template>, fired: seq<Template>, e: Env, n: nat)
    requires WellFormedAll(ts) && AtMost(p.store, ts, n) && (forall t :: t in fired ==> t in ts) && FireMakes(p, fired, e, n)
    ensures AtMost(FireTemplates(p, fired, e).store, ts, n)
  {
    if fired != [] {
      var init := fired[..|fired| - 1];
      FireTemplatesKeeps(p, ts, init, e, n);
      FireTemplateKeepsBound(FireTemplates(p, init, e), ts, fired[|fired| - 1], e, n);
    }
  }

  /** A call of the trigger: any event, any household, any subset of failures, any batch that throws. */
  datatype Fire = Fire(event: string, subject: Option<string>, env: Env)

  function StoreAfter(ts: seq<Template>, store: seq<CrmTask>, fires: seq<Fire>): seq<CrmTask> {
    if fires == [] then store else
    var f := fires[|fires| - 1];
    var before := StoreAfter(ts, store, fires[..|fires| - 1]);
    FireTemplates(Start(before), Matching(ts, f.event, f.subject), f.env).store
  }

  /** In every turn of every trigger the CRM makes at most `n` copies of what is sent. */
  ghost predicate RunMakes(ts: seq<Template>, store: seq<CrmTask>, fires: seq<Fire>, n: nat) {
    fires == [] ||
    var init, f := fires[..|fires| - 1], fires[|fires| - 1];
    RunMakes(ts, store, init, n) && FireMakes(Start(StoreAfter(ts, store, init)), Matching(ts, f.event, f.subject), f.env, n)
  }

  /**
   * Over every sequence of triggers, however the CRM fails and whatever is on record: when it makes at most `n` copies of
   * each input sent, no household ever has more than `n` tasks for the same step, whatever is fired again.
   */
  lemma {:induction false} NeverMore(ts: seq<Template>, store: seq<CrmTask>, fires: seq<Fire>, n: nat)
    requires WellFormedAll(ts) && AtMost(store, ts, n) && RunMakes(ts, store, fires, n)
    ensures AtMost(StoreAfter(ts, store, fires), ts, n)
  {
    if fires != [] {
      var init, f := fires[..|fires| - 1], fires[|fires| - 1];
      NeverMore(ts, store, init, n);
      FireTemplatesKeeps(Start(StoreAfter(ts, store, init)), ts, Matching(ts, f.event, f.subject), f.env, n);
    }
  }

  /** When each input is created at most once, no household ever gets two tasks for the same step. */
  lemma NeverTwice(ts: seq<Template>, store: seq<CrmTask>, fires: seq<Fire>)
    requires WellFormedAll(ts) && AtMost(store, ts, 1) && RunMakes(ts, store, fires, 1)
    ensures AtMost(StoreAfter(ts, store, fires), ts, 1)
  {
    NeverMore(ts, store, fires, 1);
  }

  /** Exactly when one turn of the loop leaves two tasks for a step: when the CRM makes two or more copies of a missing one. */
  lemma TwiceIff(p: Progress, ts: seq<Template>, t: Template, e: Env)
    requires WellFormedAll(ts) && AtMost(p.store, ts, 1) && t in ts
    ensures AtMost(FireTemplate(p, t, e).store, ts, 1) <==> forall sid :: Added(p.store, t, e, e.householdId, t, sid) <= 1
  {
    if forall sid :: Added(p.store, t, e, e.householdId, t, sid) <= 1 {
      forall hh, u, sid | u in ts
        ensures Count(FireTemplate(p, t, e).store, hh, u, sid) <= 1
      {
        CountAfterFire(p, ts, t, e, hh, u, sid);
        assert Added(p.store, t, e, e.householdId, t, sid) <= 1;
      }
    } else {
      var sid :| Added(p.store, t, e, e.householdId, t, sid) > 1;
      CountAfterFire(p, ts, t, e, e.householdId, t, sid);
    }
  }

  /** A store with no workflow tasks is a good start. */
  lemma {:induction false} FreshStore(store: seq<CrmTask>, ts: seq<Template>)
    requires forall i, t :: 0 <= i < |store| && t in ts ==> !Belongs(store[i], t)
    ensures AtMost(store, ts, 0)
  {
    forall hh, t, sid | t in ts
      ensures Count(store, hh, t, sid) == 0
    {
      NoneCounted(store, hh, t, sid);
    }
  }

  lemma {:induction false} NoneCounted(store: seq<CrmTask>, hh: string, t: Template, sid: string)
    requires forall i :: 0 <= i < |store| ==> !Belongs(store[i], t)
    ensures Count(store, hh, t, sid) == 0
  {
    if store != [] {
      NoneCounted(store[1..], hh, t, sid);
    }
  }

  // ---- completing and re-firing ----

  /** Every input is created, perhaps more than once, and no batch throws. */
  ghost predicate AllSucceed(e: Env) {
    (forall task :: e.copies(task) >= 1) && (forall id :: !e.throws(id))
  }

  ghost predicate Complete(store: seq<CrmTask>, hh: string, t: Template) {
    forall i :: 0 <= i < |t.steps| ==> Count(store, hh, t, t.steps[i].id) >= 1
  }

  lemma StepIsNamed(steps: seq<Step>, i: nat)
    requires i < |steps|
    ensures StepNamed(steps, steps[i].id).Some?
  {
    StepNamedFinds(steps, steps[i].id);
  }

  lemma CompleteIff(store: seq<CrmTask>, hh: string, t: Template)
    ensures Complete(store, hh, t) <==> Pending(t.steps, ExistingIds(store, hh, t)) == []
  {
    var ids := ExistingIds(store, hh, t);
    PendingEmptyIff(t.steps, ids);
    forall i | 0 <= i < |t.steps|
      ensures t.steps[i].id in ids <==> Count(store, hh, t, t.steps[i].id) >= 1
    {
      ExistingIffCounted(store, hh, t, t.steps[i].id);
    }
    if Complete(store, hh, t) {
      assert StepIdSet(t.steps) - ids == {};
    } else {
      var i :| 0 <= i < |t.steps| && Count(store, hh, t, t.steps[i].id) < 1;
      assert t.steps[i].id in StepIdSet(t.steps) - ids;
    }
  }

  /** One successful fire leaves every step of the template with a task, if and only if the early continue dropped none. */
  lemma SuccessCompletes(p: Progress, ts: seq<Template>, t: Template, e: Env)
    requires WellFormedAll(ts) && t in ts
    requires forall task :: e.copies(task) >= 1
    ensures Complete(FireTemplate(p, t, e).store, e.householdId, t) <==> !Drops(p.store, e.householdId, t)
  {
    CompleteIff(p.store, e.householdId, t);
    if !Continues(p.store, e.householdId, t) {
      forall i | 0 <= i < |t.steps|
        ensures Count(FireTemplate(p, t, e).store, e.householdId, t, t.steps[i].id) >= 1
      {
        CountAfterFire(p, ts, t, e, e.householdId, t, t.steps[i].id);
        StepIsNamed(t.steps, i);
      }
    }
  }

  /** Nothing more is sent for the template: it is complete, or the early continue is taken. */
  ghost predicate Settled(store: seq<CrmTask>, hh: string, t: Template) {
    Complete(store, hh, t) || Continues(store, hh, t)
  }

  lemma Regrouped(a: seq<CrmTask>, b: seq<CrmTask>, c: seq<CrmTask>)
    ensures a + (b + c) == (a + b) + c
  {
  }

  lemma {:induction false} TemplateTasksConcat(a: seq<CrmTask>, b: seq<CrmTask>, hh: string, t: Template)
    ensures TemplateTasks(a + b, hh, t) == TemplateTasks(a, hh, t) + TemplateTasks(b, hh, t)
  {
    if a == [] {
      assert a + b == b;
    } else {
      assert (a + b)[1..] == a[1..] + b && (a + b)[0] == a[0];
      TemplateTasksConcat(a[1..], b, hh, t);
      Regrouped([a[0]], TemplateTasks(a[1..], hh, t), TemplateTasks(b, hh, t));
    }
  }

  lemma {:induction false} SubsetSize(a: set<string>, b: set<string>)
    requires a <= b
    ensures |a| <= |b|
  {
    if a != {} {
      var x :| x in a;
      SubsetSize(a - {x}, b - {x});
    }
  }

  /** More tasks on record never unsettle a template. */
  lemma SettledStays(store: seq<CrmTask>, more: seq<CrmTask>, hh: string, t: Template)
    requires Settled(store, hh, t)
    ensures Settled(store + more, hh, t)
  {
    if Complete(store, hh, t) {
      forall i | 0 <= i < |t.steps|
        ensures Count(store + more, hh, t, t.steps[i].id) >= 1
      {
        CountConcat(store, more, hh, t, t.steps[i].id);
      }
    } else {
      TemplateTasksConcat(store, more, hh, t);
      forall sid | sid in ExistingIds(store, hh, t)
        ensures sid in ExistingIds(store + more, hh, t)
      {
        StepIdsConcat(TemplateTasks(store, hh, t), TemplateTasks(more, hh, t), sid);
      }
      SubsetSize(ExistingIds(store, hh, t), ExistingIds(store + more, hh, t));
    }
  }

  lemma FireGrows(p: Progress, t: Template, e: Env)
    ensures p.store <= FireTemplate(p, t, e).store
  {
    ProcessedStore(p, t, e);
  }

  lemma SettledAfterFire(p: Progress, t: Template, e: Env, hh: string, u: Template)
    requires Settled(p.store, hh, u)
    ensures Settled(FireTemplate(p, t, e).store, hh, u)
  {
    var after := FireTemplate(p, t, e).store;
    FireGrows(p, t, e);
    assert after == p.store + after[|p.store|..];
    SettledStays(p.store, after[|p.store|..], hh, u);
  }

  lemma {:induction false} AllSettled(p: Progress, ts: seq<Template>, fired: seq<Template>, e: Env, u: Template)
    requires WellFormedAll(ts) && (forall t :: t in fired ==> t in ts) && u in fired
    requires AllSucceed(e) && !p.threw
    ensures var q := FireTemplates(p, fired, e); !q.threw && Settled(q.store, e.householdId, u)
  {
    var n := |fired| - 1;
    var init, t := fired[..n], fired[n];
    var q := FireTemplates(p, init, e);
    NoThrow(p, init, e);
    NoThrow(p, fired, e);
    LastFire(p, fired, e);
    if u in init {
      AllSettled(p, ts, init, e, u);
      SettledAfterFire(q, t, e, e.householdId, u);
    } else {
      assert u == t;
      SuccessCompletes(q, ts, t, e);
    }
  }

  lemma LastFire(p: Progress, fired: seq<Template>, e: Env)
    requires fired != [] && !FireTemplates(p, fired[..|fired| - 1], e).threw
    ensures FireTemplates(p, fired, e) == FireTemplate(FireTemplates(p, fired[..|fired| - 1], e), fired[|fired| - 1], e)
  {
  }

  lemma {:induction false} NoThrow(p: Progress, fired: seq<Template>, e: Env)
    requires AllSucceed(e) && !p.threw
    ensures !FireTemplates(p, fired, e).threw
  {
    if fired != [] {
      NoThrow(p, fired[..|fired| - 1], e);
    }
  }

  /** A settled template is left alone: no task is created, nothing is triggered, and the store is unchanged. */
  lemma SettledIsLeftAlone(p: Progress, t: Template, e: Env)
    requires Settled(p.store, e.householdId, t)
    ensures FireTemplate(p, t, e).(skippedSteps := p.skippedSteps) == p
  {
    CompleteIff(p.store, e.householdId, t);
    NoTasks(t, e);
  }

  lemma {:induction false} AllLeftAlone(p: Progress, fired: seq<Template>, e: Env)
    requires forall t :: t in fired ==> Settled(p.store, e.householdId, t)
    ensures FireTemplates(p, fired, e).(skippedSteps := p.skippedSteps) == p
  {
    if fired != [] {
      var n := |fired| - 1;
      var q := FireTemplates(p, fired[..n], e);
      AllLeftAlone(p, fired[..n], e);
      assert q.store == q.(skippedSteps := p.skippedSteps).store;
      if !q.threw {
        assert fired[n] in fired;
        SettledIsLeftAlone(q, fired[n], e);
      }
    }
  }

  /**
   * Once a trigger has fired with every task accepted, firing it again for the same household, with any clock and any CRM
   * behaviour, creates nothing and triggers nothing, whatever else is on record.
   */
  lemma RefiringCreatesNothing(ts: seq<Template>, store: seq<CrmTask>, event: string, subject: Option<string>,
                               e: Env, later: Env)
    requires WellFormedAll(ts) && AllSucceed(e) && later.householdId == e.householdId
    ensures var fired := Matching(ts, event, subject);
            var once := FireTemplates(Start(store), fired, e);
            var again := FireTemplates(Start(once.store), fired, later);
            !once.threw && again.store == once.store && again.tasksCreated == 0 && again.triggered == [] && again.errors == 0 && !again.threw
  {
    var fired := Matching(ts, event, subject);
    var once := FireTemplates(Start(store), fired, e);
    NoThrow(Start(store), fired, e);
    forall t | t in fired
      ensures Settled(once.store, e.householdId, t)
    {
      AllSettled(Start(store), ts, fired, e, t);
    }
    AllLeftAlone(Start(once.store), fired, later);
    var again := FireTemplates(Start(once.store), fired, later);
    assert again.(skippedSteps := 0) == Start(once.store);
    assert again.store == again.(skippedSteps := 0).store && again.tasksCreated == again.(skippedSteps := 0).tasksCreated;
  }

  // ---- the templates that ship ----

  function OnboardingStep(i: nat): string
    requires i < 6
  {
    match i
    case 0 => "nco-1-welcome"
    case 1 => "nco-2-docusign"
    case 2 => "nco-3-compliance"
    case 3 => "nco-4-meeting"
    case 4 => "nco-5-funding-check"
    case _ => "nco-6-90day"
  }

  function ExpirationStep(i: nat): string
    requires i < 3
  {
    match i
    case 0 => "dex-1-60day"
    case 1 => "dex-2-30day"
    case _ => "dex-3-7day"
  }

  predicate IsOnboarding(t: Template) {
    t.id == "new-client-onboarding" && |t.steps| == 6 && forall i: nat :: i < 6 ==> t.steps[i].id == OnboardingStep(i)
  }

  predicate IsExpiration(t: Template) {
    t.id == "document-expiration" && |t.steps| == 3 && forall i: nat :: i < 3 ==> t.steps[i].id == ExpirationStep(i)
  }

  /** The two templates of the source, whatever their texts, are ones the engine can tell apart. */
  lemma ShippedTemplatesAreWellFormed(onboarding: Template, expiration: Template)
    requires IsOnboarding(onboarding) && IsExpiration(expiration)
    ensures WellFormedAll([onboarding, expiration])
  {
    NumberedStepsAreWellFormed(onboarding, 6);
    NumberedStepsAreWellFormed(expiration, 3);
    assert onboarding.id[0] == 'n' && expiration.id[0] == 'd';
  }

  lemma TemplateIds()
    ensures SpaceFree("new-client-onboarding") && SpaceFree("document-expiration")
    ensures 'S' !in "WORKFLOW_ID:" + "new-client-onboarding" && 'S' !in "WORKFLOW_ID:" + "document-expiration"
  {
  }

  lemma OnboardingId(i: nat)
    requires i < 6
    ensures SpaceFree(OnboardingStep(i)) && |OnboardingStep(i)| > 4 && OnboardingStep(i)[4] == '1' + i as char
  {
  }

  lemma ExpirationId(i: nat)
    requires i < 3
    ensures SpaceFree(ExpirationStep(i)) && |ExpirationStep(i)| > 4 && ExpirationStep(i)[4] == '1' + i as char
  {
  }

  /** The fifth character of a shipped step id is the number of the step. */
  lemma NumberedStepsAreWellFormed(t: Template, n: nat)
    requires (n == 6 && IsOnboarding(t)) || (n == 3 && IsExpiration(t))
    ensures WellFormed(t)
  {
    TemplateIds();
    NoStepIn("WORKFLOW_ID:" + t.id);
    forall i: nat | i < n
      ensures SpaceFree(t.steps[i].id) && |t.steps[i].id| > 4 && t.steps[i].id[4] == '1' + i as char
    {
      if n == 6 {
        OnboardingId(i);
      } else {
        ExpirationId(i);
      }
    }
  }

  lemma {:induction false} NoStepIn(s: string)
    requires 'S' !in s
    ensures !Includes(s, "STEP:")
  {
    if s != "" {
      assert s[0] in s;
      NoStepIn(s[1..]);
    }
  }
}
