/** Turns of the workflow loop that overlap: the query of the existing tasks and the sending of the batch are separate steps. */
module WorkflowOverlap {
  import opened Text
  import opened Workflows
  import opened WorkflowRuns

  // ---- steps ----

  /** One turn of the loop: a template fired for a household. */
  datatype Job = Job(template: Template, env: Env)

  /** A job looks at the tasks on record, and later sends the batch it decided on then. */
  datatype Event = Look(job: nat) | Send(job: nat)

  datatype State = State(store: seq<CrmTask>, views: map<nat, seq<CrmTask>>)

  /** What a job puts on record when it decides from a view. */
  function Sends(j: Job, view: seq<CrmTask>): seq<CrmTask> {
    if Continues(view, j.env.householdId, j.template) then [] else Created(Batch(view, j.template, j.env), j.env.copies)
  }

  function Next(jobs: nat -> Job, s: State, e: Event): State {
    match e
    case Look(j) => s.(views := s.views[j := s.store])
    case Send(j) => if j in s.views then State(s.store + Sends(jobs(j), s.views[j]), s.views - {j}) else s
  }

  function Run(jobs: nat -> Job, store: seq<CrmTask>, events: seq<Event>): State {
    if events == [] then State(store, map[])
    else Next(jobs, Run(jobs, store, events[..|events| - 1]), events[|events| - 1])
  }

  /** The turn of the loop is the look and the sending with nothing in between. */
  lemma TurnIsLookAndSend(p: Progress, j: Job)
    ensures FireTemplate(p, j.template, j.env).store == p.store + Sends(j, p.store)
  {
    ProcessedStore(p, j.template, j.env);
    assert p.store + [] == p.store;
  }

  // ---- the view a job sends from ----

  /** The last look of a job that it has not sent from since. */
  function LastLook(events: seq<Event>, job: nat): (l: Option<nat>)
    ensures l.Some? ==> l.value < |events| && events[l.value] == Look(job)
  {
    if events == [] then None else
    var n := |events| - 1;
    if events[n] == Look(job) then Some(n) else if events[n] == Send(job) then None else LastLook(events[..n], job)
  }

  lemma {:induction false} ViewIs(jobs: nat -> Job, store: seq<CrmTask>, events: seq<Event>, job: nat)
    ensures job in Run(jobs, store, events).views <==> LastLook(events, job).Some?
    ensures LastLook(events, job).Some? ==>
            Run(jobs, store, events).views[job] == Run(jobs, store, events[..LastLook(events, job).value]).store
  {
    if events != [] {
      var init := events[..|events| - 1];
      ViewIs(jobs, store, init, job);
      if LastLook(init, job).Some? {
        assert events[..LastLook(init, job).value] == init[..LastLook(init, job).value];
      }
    }
  }

  // ---- what an event adds for a step ----

  datatype Target = Target(hh: string, template: Template, sid: string)

  function CountOf(store: seq<CrmTask>, g: Target): nat {
    Count(store, g.hh, g.template, g.sid)
  }

  /** How many tasks for the step the last event adds. */
  function Gain(jobs: nat -> Job, store: seq<CrmTask>, events: seq<Event>, g: Target): nat
    requires events != []
  {
    var e, s := events[|events| - 1], Run(jobs, store, events[..|events| - 1]);
    if e.Send? && e.job in s.views
    then Added(s.views[e.job], jobs(e.job).template, jobs(e.job).env, g.hh, g.template, g.sid) else 0
  }

  ghost predicate FromTemplates(jobs: nat -> Job, ts: seq<Template>) {
    forall j :: jobs(j).template in ts
  }

  lemma CountOfSends(j: Job, ts: seq<Template>, view: seq<CrmTask>, g: Target)
    requires WellFormedAll(ts) && j.template in ts && g.template in ts
    ensures CountOf(Sends(j, view), g) == Added(view, j.template, j.env, g.hh, g.template, g.sid)
  {
    if !Continues(view, j.env.householdId, j.template) {
      CountInBatch(view, j.template, j.env, g.hh, g.template, g.sid);
    }
  }

  lemma CountAfterEvent(jobs: nat -> Job, ts: seq<Template>, store: seq<CrmTask>, events: seq<Event>, g: Target)
    requires WellFormedAll(ts) && FromTemplates(jobs, ts) && g.template in ts && events != []
    ensures CountOf(Run(jobs, store, events).store, g)
         == CountOf(Run(jobs, store, events[..|events| - 1]).store, g) + Gain(jobs, store, events, g)
  {
    var e, s := events[|events| - 1], Run(jobs, store, events[..|events| - 1]);
    if e.Send? && e.job in s.views {
      CountConcat(s.store, Sends(jobs(e.job), s.views[e.job]), g.hh, g.template, g.sid);
      CountOfSends(jobs(e.job), ts, s.views[e.job], g);
    }
  }

  lemma {:induction false} CountGrows(jobs: nat -> Job, ts: seq<Template>, store: seq<CrmTask>, events: seq<Event>, k: nat, g: Target)
    requires WellFormedAll(ts) && FromTemplates(jobs, ts) && g.template in ts && k <= |events|
    ensures CountOf(store, g) <= CountOf(Run(jobs, store, events[..k]).store, g) <= CountOf(Run(jobs, store, events).store, g)
    decreases |events|
  {
    if k == |events| {
      assert events[..k] == events;
    }
    if events != [] {
      var init := events[..|events| - 1];
      CountAfterEvent(jobs, ts, store, events, g);
      if k < |events| {
        assert init[..k] == events[..k];
        CountGrows(jobs, ts, store, init, k, g);
      } else {
        CountGrows(jobs, ts, store, init, 0, g);
      }
    }
  }

  // ---- when overlap duplicates ----

  /** The event at `k` adds a task for the step. */
  predicate Adds(jobs: nat -> Job, store: seq<CrmTask>, events: seq<Event>, k: nat, g: Target)
    requires k < |events|
  {
    Gain(jobs, store, events[..k + 1], g) > 0
  }

  /** A job adds only what was missing when it looked, so no earlier addition can precede its look. */
  lemma AddsMissing(jobs: nat -> Job, ts: seq<Template>, store: seq<CrmTask>, events: seq<Event>, k: nat, g: Target)
    requires WellFormedAll(ts) && FromTemplates(jobs, ts) && g.template in ts
    requires k < |events| && Adds(jobs, store, events, k, g)
    ensures events[k].Send? && LastLook(events[..k], events[k].job).Some?
    ensures CountOf(Run(jobs, store, events[..LastLook(events[..k], events[k].job).value]).store, g) == 0
  {
    assert events[..k + 1][..k] == events[..k] && events[..k + 1][k] == events[k];
    ViewIs(jobs, store, events[..k], events[k].job);
    var l := LastLook(events[..k], events[k].job);
    if l.Some? {
      assert events[..k][..l.value] == events[..l.value];
    }
  }

  /** Two additions of the same step, the second decided before the first was made. */
  predicate Overlap(jobs: nat -> Job, store: seq<CrmTask>, events: seq<Event>, a: nat, b: nat, g: Target)
    requires a < |events| && b < |events|
  {
    a < b && Adds(jobs, store, events, a, g) && Adds(jobs, store, events, b, g)
    && events[b].Send? && LastLook(events[..b], events[b].job).Some? && LastLook(events[..b], events[b].job).value < a
  }

  lemma AdditionIsSeen(jobs: nat -> Job, ts: seq<Template>, store: seq<CrmTask>, events: seq<Event>, a: nat, l: nat, g: Target)
    requires WellFormedAll(ts) && FromTemplates(jobs, ts) && g.template in ts
    requires a < l <= |events| && Adds(jobs, store, events, a, g)
    ensures CountOf(Run(jobs, store, events[..l]).store, g) > 0
  {
    assert events[..l][..a + 1] == events[..a + 1];
    CountAfterEvent(jobs, ts, store, events[..a + 1], g);
    CountGrows(jobs, ts, store, events[..l], a + 1, g);
  }

  lemma SecondLookedBefore(jobs: nat -> Job, ts: seq<Template>, store: seq<CrmTask>, events: seq<Event>, a: nat, b: nat, g: Target)
    requires WellFormedAll(ts) && FromTemplates(jobs, ts) && g.template in ts
    requires a < b < |events| && Adds(jobs, store, events, a, g) && Adds(jobs, store, events, b, g)
    ensures Overlap(jobs, store, events, a, b, g)
  {
    AddsMissing(jobs, ts, store, events, a, g);
    AddsMissing(jobs, ts, store, events, b, g);
    var l := LastLook(events[..b], events[b].job).value;
    if l > a {
      AdditionIsSeen(jobs, ts, store, events, a, l, g);
    }
    assert events[l] == events[..b][l];
  }

  ghost predicate MakeOne(jobs: nat -> Job) {
    forall j, task :: jobs(j).env.copies(task) <= 1
  }

  lemma {:induction false} AddedSomewhere(jobs: nat -> Job, ts: seq<Template>, store: seq<CrmTask>, events: seq<Event>, g: Target)
    returns (a: nat)
    requires WellFormedAll(ts) && FromTemplates(jobs, ts) && g.template in ts
    requires CountOf(Run(jobs, store, events).store, g) > CountOf(store, g)
    ensures a < |events| && Adds(jobs, store, events, a, g)
  {
    var n := |events| - 1;
    CountAfterEvent(jobs, ts, store, events, g);
    if Gain(jobs, store, events, g) > 0 {
      a := n;
      assert events[..n + 1] == events;
    } else {
      a := AddedSomewhere(jobs, ts, store, events[..n], g);
      assert events[..n][..a + 1] == events[..a + 1];
    }
  }

  lemma {:induction false} AddedTwice(jobs: nat -> Job, ts: seq<Template>, store: seq<CrmTask>, events: seq<Event>, g: Target)
    returns (a: nat, b: nat)
    requires WellFormedAll(ts) && FromTemplates(jobs, ts) && g.template in ts && MakeOne(jobs)
    requires CountOf(store, g) <= 1 && CountOf(Run(jobs, store, events).store, g) >= 2
    ensures a < b < |events| && Adds(jobs, store, events, a, g) && Adds(jobs, store, events, b, g)
  {
    var n := |events| - 1;
    var init := events[..n];
    CountAfterEvent(jobs, ts, store, events, g);
    if CountOf(Run(jobs, store, init).store, g) >= 2 {
      a, b := AddedTwice(jobs, ts, store, init, g);
      assert init[..a + 1] == events[..a + 1] && init[..b + 1] == events[..b + 1];
    } else {
      b := n;
      assert events[..n + 1] == events;
      AddsMissing(jobs, ts, store, events, n, g);
      CountGrows(jobs, ts, store, events[..LastLook(init, events[n].job).value], 0, g);
      a := AddedSomewhere(jobs, ts, store, init, g);
      assert init[..a + 1] == events[..a + 1];
    }
  }

  ghost predicate SomeOverlap(jobs: nat -> Job, store: seq<CrmTask>, events: seq<Event>, g: Target) {
    exists a, b :: 0 <= a < |events| && 0 <= b < |events| && Overlap(jobs, store, events, a, b, g)
  }

  lemma TwoAdditions(jobs: nat -> Job, ts: seq<Template>, store: seq<CrmTask>, events: seq<Event>, a: nat, b: nat, g: Target)
    requires WellFormedAll(ts) && FromTemplates(jobs, ts) && g.template in ts
    requires a < b < |events| && Adds(jobs, store, events, a, g) && Adds(jobs, store, events, b, g)
    ensures CountOf(Run(jobs, store, events).store, g) >= 2
  {
    AdditionIsSeen(jobs, ts, store, events, a, b, g);
    assert events[..b + 1][..b] == events[..b];
    CountAfterEvent(jobs, ts, store, events[..b + 1], g);
    CountGrows(jobs, ts, store, events, b + 1, g);
  }

  /**
   * For any interleaving of turns, when each input is created at most once: a step has two tasks in the end if and only if
   * two turns added it, the second of which had looked before the first one sent.
   */
  lemma DuplicateIffOverlap(jobs: nat -> Job, ts: seq<Template>, store: seq<CrmTask>, events: seq<Event>, g: Target)
    requires WellFormedAll(ts) && FromTemplates(jobs, ts) && g.template in ts && MakeOne(jobs) && CountOf(store, g) <= 1
    ensures CountOf(Run(jobs, store, events).store, g) >= 2 <==> SomeOverlap(jobs, store, events, g)
  {
    if CountOf(Run(jobs, store, events).store, g) >= 2 {
      var a, b := AddedTwice(jobs, ts, store, events, g);
      SecondLookedBefore(jobs, ts, store, events, a, b, g);
    }
    if SomeOverlap(jobs, store, events, g) {
      var a, b :| 0 <= a < |events| && 0 <= b < |events| && Overlap(jobs, store, events, a, b, g);
      TwoAdditions(jobs, ts, store, events, a, b, g);
    }
  }

  lemma LookedJustBefore(events: seq<Event>, b: nat)
    requires 0 < b < |events| && events[b].Send? && events[b - 1] == Look(events[b].job)
    ensures LastLook(events[..b], events[b].job) == Some(b - 1)
  {
    assert events[..b][b - 1] == events[b - 1];
  }

  /** When every turn sends right after its look, no step ever gets two tasks. */
  lemma NoOverlapNoDuplicate(jobs: nat -> Job, ts: seq<Template>, store: seq<CrmTask>, events: seq<Event>, g: Target)
    requires WellFormedAll(ts) && FromTemplates(jobs, ts) && g.template in ts && MakeOne(jobs) && CountOf(store, g) <= 1
    requires forall k :: 0 <= k < |events| && events[k].Send? ==> k > 0 && events[k - 1] == Look(events[k].job)
    ensures CountOf(Run(jobs, store, events).store, g) <= 1
  {
    DuplicateIffOverlap(jobs, ts, store, events, g);
    forall a, b | 0 <= a < |events| && 0 <= b < |events|
      ensures !Overlap(jobs, store, events, a, b, g)
    {
      if events[b].Send? {
        LookedJustBefore(events, b);
      }
    }
  }

  /** Every job is the same one. */
  function Again(j: Job): nat -> Job {
    (n: nat) => j
  }

  function TwoAtOnce(): seq<Event> {
    [Look(0), Look(1), Send(0), Send(1)]
  }

  lemma BothLooked(j: Job, store: seq<CrmTask>)
    ensures Run(Again(j), store, TwoAtOnce()[..2]) == State(store, map[0 := store, 1 := store])
  {
    var e := TwoAtOnce();
    assert e[..2][..1] == e[..1] && e[..1][..0] == [] && e[..2][1] == Look(1) && e[..1][0] == Look(0);
    assert Run(Again(j), store, e[..1]) == State(store, map[0 := store]);
  }

  /** Two triggers for the same household that both look before either sends: each missing step they share gets two tasks. */
  lemma BothSend(j: Job, ts: seq<Template>, store: seq<CrmTask>, g: Target)
    requires WellFormedAll(ts) && j.template in ts && g.template == j.template && g.hh == j.env.householdId
    requires StepNamed(j.template.steps, g.sid).Some? && CountOf(store, g) == 0
    requires !Continues(store, g.hh, g.template) && forall task :: j.env.copies(task) == 1
    ensures CountOf(Run(Again(j), store, TwoAtOnce()).store, g) == 2
  {
    var e := TwoAtOnce();
    BothLooked(j, store);
    assert e[..3][..2] == e[..2] && e[..3][2] == Send(0) && e[..4] == e;
    CountAfterEvent(Again(j), ts, store, e[..3], g);
    assert Run(Again(j), store, e[..3]).views == map[1 := store];
    CountAfterEvent(Again(j), ts, store, e, g);
  }
}
