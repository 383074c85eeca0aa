/** Which templates a trigger fires, and what each of them leaves on record. */
module WorkflowTriggers {
  import opened Text
  import opened Workflows
  import opened WorkflowRuns

  // ---- the selection ----

  lemma {:induction false} MatchingIs(ts: seq<Template>, event: string, subject: Option<string>, t: Template)
    ensures t in Matching(ts, event, subject) <==> t in ts && Matches(t, event, subject)
  {
    if ts != [] {
      MatchingIs(ts[1..], event, subject, t);
      assert ts == [ts[0]] + ts[1..];
    }
  }

  lemma {:induction false} MatchingConcat(a: seq<Template>, b: seq<Template>, event: string, subject: Option<string>)
    ensures Matching(a + b, event, subject) == Matching(a, event, subject) + Matching(b, event, subject)
  {
    if a == [] {
      assert a + b == b;
    } else {
      assert (a + b)[1..] == a[1..] + b;
      MatchingConcat(a[1..], b, event, subject);
    }
  }

  // ---- a turn of another template ----

  /** Nothing the engine prints for a template belongs to another. */
  lemma TaskIsForeign(t: Template, s: Step, e: Env, u: Template)
    requires WellFormed(t) && WellFormed(u) && t != u && !(u.id <= t.id)
    ensures !Belongs(TaskFor(t, s, e), u)
  {
    var task := TaskFor(t, s, e);
    var rest := task.description[|"WORKFLOW_ID:" + t.id + " STEP:" + s.id + "\n"|..];
    assert task.description == "WORKFLOW_ID:" + t.id + " STEP:" + s.id + "\n" + rest;
    DescriptionSplit(t.id, s.id, rest);
    BelongsOnlyToItsTemplate(t, u, e.householdId, task.subject, s.id + "\n" + rest);
    assert u.id != t.id;
  }

  predicate NoneBelongs(tasks: seq<CrmTask>, u: Template) {
    forall i :: 0 <= i < |tasks| ==> !Belongs(tasks[i], u)
  }

  lemma OneMoreForeign(task: CrmTask, tasks: seq<CrmTask>, u: Template)
    requires !Belongs(task, u) && NoneBelongs(tasks, u)
    ensures NoneBelongs([task] + tasks, u)
  {
  }

  lemma {:induction false} TasksForAreForeign(steps: seq<Step>, t: Template, e: Env, delayed: bool, u: Template)
    requires WellFormed(t) && WellFormed(u) && t != u && !(u.id <= t.id)
    ensures NoneBelongs(TasksFor(steps, t, e, delayed), u)
  {
    if steps != [] {
      TaskIsForeign(t, steps[0], e, u);
      TasksForAreForeign(steps[1..], t, e, delayed, u);
      OneMoreForeign(TaskFor(t, steps[0], e), TasksFor(steps[1..], t, e, delayed), u);
    }
  }

  lemma AllTasksAreForeign(steps: seq<Step>, t: Template, e: Env, u: Template)
    requires WellFormed(t) && WellFormed(u) && t != u && !(u.id <= t.id)
    ensures NoneBelongs(AllTasks(steps, t, e), u)
  {
    TasksForAreForeign(steps, t, e, false, u);
    TasksForAreForeign(steps, t, e, true, u);
  }

  lemma {:induction false} ForeignTasksOfNone(tasks: seq<CrmTask>, copies: CrmTask -> nat, hh: string, u: Template)
    requires NoneBelongs(tasks, u)
    ensures TemplateTasks(Created(tasks, copies), hh, u) == []
  {
    if tasks != [] {
      ForeignTasksOfNone(tasks[1..], copies, hh, u);
      RepeatedForeign(tasks[0], copies(tasks[0]), hh, u);
      TemplateTasksConcat(Repeated(tasks[0], copies(tasks[0])), Created(tasks[1..], copies), hh, u);
    }
  }

  lemma {:induction false} RepeatedForeign(task: CrmTask, n: nat, hh: string, u: Template)
    requires !Belongs(task, u)
    ensures TemplateTasks(Repeated(task, n), hh, u) == []
  {
    if n > 0 {
      assert Repeated(task, n)[1..] == Repeated(task, n - 1);
      RepeatedForeign(task, n - 1, hh, u);
    }
  }

  /** A turn leaves the tasks of every other template as they are. */
  lemma OtherTurn(p: Progress, t: Template, e: Env, hh: string, u: Template)
    requires WellFormed(t) && WellFormed(u) && t != u && !(u.id <= t.id)
    ensures TemplateTasks(FireTemplate(p, t, e).store, hh, u) == TemplateTasks(p.store, hh, u)
  {
    if !Continues(p.store, e.householdId, t) {
      var steps := Pending(t.steps, ExistingIds(p.store, e.householdId, t));
      AllTasksAreForeign(steps, t, e, u);
      ForeignTasksOfNone(Batch(p.store, t, e), e.copies, hh, u);
      ProcessedStore(p, t, e);
      TemplateTasksConcat(p.store, Created(Batch(p.store, t, e), e.copies), hh, u);
    }
  }

  lemma {:induction false} OtherTurns(p: Progress, ts: seq<Template>, fired: seq<Template>, e: Env, hh: string, u: Template)
    requires WellFormedAll(ts) && u in ts && u !in fired && forall t :: t in fired ==> t in ts
    ensures TemplateTasks(FireTemplates(p, fired, e).store, hh, u) == TemplateTasks(p.store, hh, u)
  {
    if fired != [] {
      var n := |fired| - 1;
      OtherTurns(p, ts, fired[..n], e, hh, u);
      if !FireTemplates(p, fired[..n], e).threw {
        assert fired[n] in fired;
        OtherTurn(FireTemplates(p, fired[..n], e), fired[n], e, hh, u);
      }
    }
  }

  /** What the engine decides for a template depends on its own tasks. */
  lemma {:induction false} CountByTasks(store: seq<CrmTask>, hh: string, t: Template, sid: string)
    ensures Count(store, hh, t, sid) == Count(TemplateTasks(store, hh, t), hh, t, sid)
  {
    if store != [] {
      CountByTasks(store[1..], hh, t, sid);
      if store[0].householdId == hh && Belongs(store[0], t) {
        assert ([store[0]] + TemplateTasks(store[1..], hh, t))[1..] == TemplateTasks(store[1..], hh, t);
      }
    }
  }

  lemma SameTasks(a: seq<CrmTask>, b: seq<CrmTask>, t: Template, e: Env, sid: string)
    requires TemplateTasks(a, e.householdId, t) == TemplateTasks(b, e.householdId, t)
    ensures Count(a, e.householdId, t, sid) == Count(b, e.householdId, t, sid)
    ensures Added(a, t, e, e.householdId, t, sid) == Added(b, t, e, e.householdId, t, sid)
  {
    CountByTasks(a, e.householdId, t, sid);
    CountByTasks(b, e.householdId, t, sid);
  }

  // ---- templates that are not selected ----

  lemma {:induction false} TriggeredAreFired(p: Progress, fired: seq<Template>, e: Env, name: string)
    requires name in FireTemplates(p, fired, e).triggered
    ensures name in p.triggered || exists t :: t in fired && t.name == name
  {
    if fired != [] {
      var n := |fired| - 1;
      assert fired[n] in fired;
      if name in FireTemplates(p, fired[..n], e).triggered {
        TriggeredAreFired(p, fired[..n], e, name);
      }
    }
  }

  /**
   * A template that is disabled, has another trigger, or filters by a text the subject does not contain gains no task in any
   * step of any household, and is not among the triggered, unless another template has its name.
   */
  lemma OthersUntouched(ts: seq<Template>, event: string, subject: Option<string>, store: seq<CrmTask>, e: Env, u: Template,
                        hh: string, sid: string)
    requires WellFormedAll(ts) && u in ts
    requires !u.enabled || u.trigger != event ||
             (u.subjectFilter.Some? && u.subjectFilter.value != "" && (subject.None? || !Includes(subject.value, u.subjectFilter.value)))
    ensures var p := Trigger(ts, event, subject, store, e);
            && Count(p.store, hh, u, sid) == Count(store, hh, u, sid)
            && (u.name in p.triggered ==> exists t :: t in ts && t != u && t.name == u.name)
  {
    var fired := Matching(ts, event, subject);
    var p := Trigger(ts, event, subject, store, e);
    MatchingIs(ts, event, subject, u);
    OtherTurns(Start(store), ts, fired, e, hh, u);
    CountByTasks(store, hh, u, sid);
    CountByTasks(p.store, hh, u, sid);
    if u.name in p.triggered {
      TriggeredAreFired(Start(store), fired, e, u.name);
    }
  }

  // ---- templates that are ----

  /** The early continue, once taken, is taken whatever is added. */
  lemma ContinueStays(store: seq<CrmTask>, more: seq<CrmTask>, hh: string, t: Template)
    requires Continues(store, hh, t)
    ensures Continues(store + more, hh, t)
  {
    TemplateTasksConcat(store, more, hh, t);
    forall sid | sid in ExistingIds(store, hh, t)
      ensures sid in ExistingIds(store + more, hh, t)
    {
      StepIdsConcat(TemplateTasks(store, hh, t), TemplateTasks(more, hh, t), sid);
    }
    SubsetSize(ExistingIds(store, hh, t), ExistingIds(store + more, hh, t));
  }

  /** What was added to a step is not added again. */
  lemma AddedOnce(store: seq<CrmTask>, more: seq<CrmTask>, t: Template, e: Env, sid: string)
    requires Count(store + more, e.householdId, t, sid) == Count(store, e.householdId, t, sid) + Added(store, t, e, e.householdId, t, sid)
    ensures Added(store + more, t, e, e.householdId, t, sid) == 0
  {
    if Continues(store, e.householdId, t) {
      ContinueStays(store, more, e.householdId, t);
    }
  }

  lemma {:induction false} FiringGrows(p: Progress, fired: seq<Template>, e: Env)
    ensures p.store <= FireTemplates(p, fired, e).store
  {
    if fired != [] {
      var n := |fired| - 1;
      FiringGrows(p, fired[..n], e);
      FireGrows(FireTemplates(p, fired[..n], e), fired[n], e);
    }
  }

  /** Firing one list after another, unless the first throws. */
  lemma {:induction false} FireConcat(p: Progress, a: seq<Template>, b: seq<Template>, e: Env)
    ensures var q := FireTemplates(p, a, e); FireTemplates(p, a + b, e) == if q.threw then q else FireTemplates(q, b, e)
  {
    if b == [] {
      assert a + b == a;
    } else {
      var n := |b| - 1;
      assert (a + b)[..|a + b| - 1] == a + b[..n];
      FireConcat(p, a, b[..n], e);
    }
  }

  /** The step has gained what one turn adds to it. */
  predicate Gained(before: seq<CrmTask>, after: seq<CrmTask>, u: Template, e: Env, sid: string) {
    Count(after, e.householdId, u, sid) == Count(before, e.householdId, u, sid) + Added(before, u, e, e.householdId, u, sid)
  }

  lemma FirstTurn(p: Progress, ts: seq<Template>, earlier: seq<Template>, u: Template, e: Env, sid: string)
    requires WellFormedAll(ts) && u in ts && u !in earlier && forall t :: t in earlier ==> t in ts
    ensures Gained(p.store, FireTemplate(FireTemplates(p, earlier, e), u, e).store, u, e, sid)
  {
    var q := FireTemplates(p, earlier, e);
    OtherTurns(p, ts, earlier, e, e.householdId, u);
    SameTasks(q.store, p.store, u, e, sid);
    CountAfterFire(q, ts, u, e, e.householdId, u, sid);
  }

  /** No later turn sends it again. */
  lemma LaterTurn(store: seq<CrmTask>, q: Progress, ts: seq<Template>, t: Template, u: Template, e: Env, sid: string)
    requires WellFormedAll(ts) && t in ts && u in ts && store <= q.store && Gained(store, q.store, u, e, sid)
    ensures Gained(store, FireTemplate(q, t, e).store, u, e, sid)
  {
    CountAfterFire(q, ts, t, e, e.householdId, u, sid);
    assert q.store == store + q.store[|store|..];
    AddedOnce(store, q.store[|store|..], u, e, sid);
  }

  lemma {:induction false} LaterTurns(store: seq<CrmTask>, q: Progress, ts: seq<Template>, later: seq<Template>, u: Template, e: Env,
                                      sid: string)
    requires WellFormedAll(ts) && u in ts && store <= q.store && Gained(store, q.store, u, e, sid)
    requires forall t :: t in later ==> t in ts
    ensures Gained(store, FireTemplates(q, later, e).store, u, e, sid)
  {
    if later != [] {
      var n := |later| - 1;
      LaterTurns(store, q, ts, later[..n], u, e, sid);
      FiringGrows(q, later[..n], e);
      assert later[n] in later;
      LaterTurn(store, FireTemplates(q, later[..n], e), ts, later[n], u, e, sid);
    }
  }

  lemma FireThen(q: Progress, u: Template, later: seq<Template>, e: Env)
    requires !q.threw
    ensures var r := FireTemplate(q, u, e); FireTemplates(q, [u] + later, e) == if r.threw then r else FireTemplates(r, later, e)
  {
    assert [u][..0] == [];
    assert FireTemplates(q, [u], e) == FireTemplate(q, u, e);
    FireConcat(q, [u], later, e);
  }

  /** A template that gets its turn has each of its missing steps sent once, whatever is fired before and after it. */
  lemma TurnAdds(p: Progress, ts: seq<Template>, earlier: seq<Template>, u: Template, later: seq<Template>, e: Env, sid: string)
    requires WellFormedAll(ts) && u in ts && u !in earlier && !FireTemplates(p, earlier, e).threw
    requires (forall t :: t in earlier ==> t in ts) && (forall t :: t in later ==> t in ts)
    ensures Gained(p.store, FireTemplates(p, earlier + ([u] + later), e).store, u, e, sid)
  {
    var q := FireTemplates(p, earlier, e);
    var r := FireTemplate(q, u, e);
    FirstTurn(p, ts, earlier, u, e, sid);
    FireConcat(p, earlier, [u] + later, e);
    FireThen(q, u, later, e);
    FiringGrows(p, earlier, e);
    FireGrows(q, u, e);
    LaterTurns(p.store, r, ts, later, u, e, sid);
  }

  lemma {:induction false} NoneThrows(p: Progress, fired: seq<Template>, e: Env)
    requires !p.threw && forall t :: t in fired ==> !e.throws(t.id)
    ensures !FireTemplates(p, fired, e).threw
  {
    if fired != [] {
      var n := |fired| - 1;
      NoneThrows(p, fired[..n], e);
      assert fired[n] in fired;
    }
  }

  /** The place of a selected template among the selected: only templates listed before it are fired before it. */
  lemma TurnOf(ts: seq<Template>, i: nat, event: string, subject: Option<string>)
    returns (earlier: seq<Template>, later: seq<Template>)
    requires i < |ts| && Matches(ts[i], event, subject)
    ensures Matching(ts, event, subject) == earlier + ([ts[i]] + later) && ts[i] !in earlier
    ensures (forall t :: t in earlier ==> t in ts[..i]) && (forall t :: t in later ==> t in ts)
  {
    var k := FirstPlace(ts, i);
    var rest := Matching(ts[k + 1..], event, subject);
    assert ts == ts[..k] + ([ts[k]] + ts[k + 1..]);
    assert ([ts[k]] + ts[k + 1..])[1..] == ts[k + 1..];
    MatchingConcat(ts[..k], [ts[k]] + ts[k + 1..], event, subject);
    earlier, later := Matching(ts[..k], event, subject), rest;
  }

  lemma {:induction false} FirstPlace(xs: seq<Template>, k: nat) returns (f: nat)
    requires k < |xs|
    ensures f <= k && xs[f] == xs[k] && xs[f] !in xs[..f]
  {
    if j :| 0 <= j < k && xs[j] == xs[k] {
      f := FirstPlace(xs, j);
    } else {
      f := k;
    }
  }

  /**
   * A template that is enabled, has this trigger and meets its filter gets its turn, unless a template listed before it
   * throws: each of its missing steps has as many tasks more as the CRM makes of its input.
   */
  lemma SelectedGetsTurn(ts: seq<Template>, event: string, subject: Option<string>, store: seq<CrmTask>, e: Env, i: nat, sid: string)
    requires WellFormedAll(ts) && i < |ts|
    requires ts[i].enabled && ts[i].trigger == event
    requires ts[i].subjectFilter.None? || ts[i].subjectFilter.value == "" ||
             (subject.Some? && Includes(subject.value, ts[i].subjectFilter.value))
    requires !Trigger(ts, event, subject, store, e).threw || forall j :: 0 <= j < i ==> !e.throws(ts[j].id)
    ensures var u, hh := ts[i], e.householdId;
            Count(Trigger(ts, event, subject, store, e).store, hh, u, sid) == Count(store, hh, u, sid) + Added(store, u, e, hh, u, sid)
  {
    var earlier, later := TurnOf(ts, i, event, subject);
    if FireTemplates(Start(store), earlier, e).threw {
      FireConcat(Start(store), earlier, [ts[i]] + later, e);
      NoneThrows(Start(store), earlier, e);
    }
    TurnAdds(Start(store), ts, earlier, ts[i], later, e, sid);
  }

  /**
   * After a trigger whose inputs were all created and that did not throw, such a template has a task for each of its steps if
   * and only if its early continue drops none.
   */
  lemma SelectedIsCompleted(ts: seq<Template>, event: string, subject: Option<string>, store: seq<CrmTask>, e: Env, i: nat)
    requires WellFormedAll(ts) && i < |ts|
    requires ts[i].enabled && ts[i].trigger == event
    requires ts[i].subjectFilter.None? || ts[i].subjectFilter.value == "" ||
             (subject.Some? && Includes(subject.value, ts[i].subjectFilter.value))
    requires !Trigger(ts, event, subject, store, e).threw && forall task :: e.copies(task) >= 1
    ensures (forall k :: 0 <= k < |ts[i].steps| ==>
               Count(Trigger(ts, event, subject, store, e).store, e.householdId, ts[i], ts[i].steps[k].id) >= 1)
       <==> !Drops(store, e.householdId, ts[i])
  {
    var u, after := ts[i], Trigger(ts, event, subject, store, e).store;
    CompleteIff(store, e.householdId, u);
    forall k | 0 <= k < |u.steps|
      ensures Count(after, e.householdId, u, u.steps[k].id) >= 1 <==>
              Count(store, e.householdId, u, u.steps[k].id) >= 1 || !Continues(store, e.householdId, u)
    {
      SelectedGetsTurn(ts, event, subject, store, e, i, u.steps[k].id);
      StepIsNamed(u.steps, k);
    }
    assert Complete(after, e.householdId, u) <==> Complete(store, e.householdId, u) || !Continues(store, e.householdId, u);
  }

  // ---- what is sent ----

  lemma {:induction false} StepOfTask(steps: seq<Step>, t: Template, e: Env, delayed: bool, i: nat) returns (k: nat)
    requires i < |TasksFor(steps, t, e, delayed)|
    ensures k < |steps| && TasksFor(steps, t, e, delayed)[i] == TaskFor(t, steps[k], e)
  {
    if (steps[0].delayDays > 0) == delayed {
      if i == 0 {
        k := 0;
      } else {
        var j := StepOfTask(steps[1..], t, e, delayed, i - 1);
        k := j + 1;
      }
    } else {
      var j := StepOfTask(steps[1..], t, e, delayed, i);
      k := j + 1;
    }
  }

  /** An input for the step: its subject with the household's name, the household, and the step id where the engine looks for it. */
  predicate IsInputFor(task: CrmTask, s: Step, e: Env) {
    && task.subject == s.taskSubject + " — " + e.householdName
    && task.householdId == e.householdId
    && FindStep(task.description) == Some(s.id)
  }

  lemma TaskReadsBack(t: Template, s: Step, e: Env)
    requires SpaceFree(s.id) && !Includes("WORKFLOW_ID:" + t.id, "STEP:")
    ensures IsInputFor(TaskFor(t, s, e), s, e)
  {
    var d := TaskFor(t, s, e).description;
    var rest := d[|"WORKFLOW_ID:" + t.id + " STEP:" + s.id + "\n"|..];
    assert d == "WORKFLOW_ID:" + t.id + " STEP:" + s.id + "\n" + rest;
    StepRoundTrip(t.id, s.id, rest);
  }

  /** Every input sent is for a step of the template that is missing on the record looked at. */
  lemma SentIsMissing(view: seq<CrmTask>, t: Template, e: Env, i: nat) returns (s: Step)
    requires WellFormed(t) && i < |Batch(view, t, e)|
    ensures s in t.steps && Count(view, e.householdId, t, s.id) == 0 && IsInputFor(Batch(view, t, e)[i], s, e)
  {
    var ids := ExistingIds(view, e.householdId, t);
    var steps := Pending(t.steps, ids);
    var now := TasksFor(steps, t, e, false);
    var k: nat;
    if i < |now| {
      k := StepOfTask(steps, t, e, false, i);
    } else {
      k := StepOfTask(steps, t, e, true, i - |now|);
    }
    s := steps[k];
    ExistingIffCounted(view, e.householdId, t, s.id);
    TaskReadsBack(t, s, e);
  }

  // ---- what a trigger reports ----

  /** The templates at these places, in order. */
  predicate PlacesOf(ts: seq<Template>, at: seq<nat>, picked: seq<Template>) {
    |at| == |picked| && Increasing(at) && forall j :: 0 <= j < |at| ==> at[j] < |ts| && ts[at[j]] == picked[j]
  }

  lemma {:induction false} MatchingPlaces(ts: seq<Template>, event: string, subject: Option<string>) returns (at: seq<nat>)
    ensures PlacesOf(ts, at, Matching(ts, event, subject))
  {
    at := [];
    if ts != [] {
      var n := |ts| - 1;
      assert ts == ts[..n] + [ts[n]];
      MatchingConcat(ts[..n], [ts[n]], event, subject);
      assert [ts[n]][1..] == [];
      at := MatchingPlaces(ts[..n], event, subject);
      if Matches(ts[n], event, subject) {
        at := at + [n];
      }
    }
  }

  /** The names of the templates at these places, in order. */
  predicate NamesAt(ts: seq<Template>, at: seq<nat>, names: seq<string>) {
    |at| == |names| && Increasing(at) && forall j :: 0 <= j < |at| ==> at[j] < |ts| && ts[at[j]].name == names[j]
  }

  lemma OneMoreName(ts: seq<Template>, at: seq<nat>, names: seq<string>, t: Template)
    requires NamesAt(ts, at, names)
    ensures NamesAt(ts + [t], at, names) && NamesAt(ts + [t], at + [|ts|], names + [t.name])
  {
  }

  lemma {:induction false} TriggeredPlaces(store: seq<CrmTask>, fired: seq<Template>, e: Env) returns (at: seq<nat>)
    ensures NamesAt(fired, at, FireTemplates(Start(store), fired, e).triggered)
  {
    at := [];
    if fired != [] {
      var n := |fired| - 1;
      var q := FireTemplates(Start(store), fired[..n], e);
      assert fired == fired[..n] + [fired[n]];
      at := TriggeredPlaces(store, fired[..n], e);
      OneMoreName(fired[..n], at, q.triggered, fired[n]);
      if FireTemplates(Start(store), fired, e).triggered != q.triggered {
        at := at + [n];
      }
    }
  }

  lemma NamesOfPlaces(ts: seq<Template>, picked: seq<Template>, places: seq<nat>, inner: seq<nat>, names: seq<string>)
    requires PlacesOf(ts, places, picked) && NamesAt(picked, inner, names)
    ensures var at := seq(|inner|, j requires 0 <= j < |inner| => places[inner[j]]);
            NamesAt(ts, at, names) && forall j :: 0 <= j < |at| ==> ts[at[j]] in picked
  {
  }

  /** The names reported are those of selected templates, in the order of the list, each at most once for its place. */
  lemma TriggeredInOrder(ts: seq<Template>, event: string, subject: Option<string>, store: seq<CrmTask>, e: Env)
    returns (at: seq<nat>)
    ensures NamesAt(ts, at, Trigger(ts, event, subject, store, e).triggered)
    ensures forall j :: 0 <= j < |at| ==>
              var t := ts[at[j]];
              t.enabled && t.trigger == event &&
              (t.subjectFilter.None? || t.subjectFilter.value == "" || (subject.Some? && Includes(subject.value, t.subjectFilter.value)))
  {
    var fired := Matching(ts, event, subject);
    var places := MatchingPlaces(ts, event, subject);
    var inner := TriggeredPlaces(store, fired, e);
    NamesOfPlaces(ts, fired, places, inner, Trigger(ts, event, subject, store, e).triggered);
    at := seq(|inner|, j requires 0 <= j < |inner| => places[inner[j]]);
    forall j | 0 <= j < |at|
      ensures Matches(ts[at[j]], event, subject)
    {
      MatchingIs(ts, event, subject, ts[at[j]]);
    }
  }

  lemma {:induction false} ReportedAllOrNone(tasks: seq<CrmTask>, reports: CrmTask -> bool)
    ensures (forall task :: reports(task)) ==> Reported(tasks, reports) == |tasks|
    ensures (forall task :: !reports(task)) ==> Reported(tasks, reports) == 0
  {
    if tasks != [] {
      ReportedAllOrNone(tasks[1..], reports);
    }
  }

  /**
   * What one turn reports. When it does not throw, every step of the template is counted once, as created, as an error or as
   * skipped, unless the early continue is taken: no error when the CRM reports every input, nothing created when it reports
   * none. The template is reported as triggered exactly when a step was missing.
   * It throws only when its batch does, and then some step was missing.
   */
  lemma TurnReports(p: Progress, t: Template, e: Env)
    requires !p.threw
    ensures var q, stopped, complete := FireTemplate(p, t, e), Continues(p.store, e.householdId, t), Complete(p.store, e.householdId, t);
            && q.threw == (e.throws(t.id) && !stopped && !complete)
            && (!q.threw ==>
                  && q.tasksCreated + q.errors + q.skippedSteps
                     == p.tasksCreated + p.errors + p.skippedSteps + (if stopped then 0 else |t.steps|)
                  && q.tasksCreated >= p.tasksCreated && q.errors >= p.errors
                  && ((forall task :: e.reports(task)) ==> q.errors == p.errors)
                  && ((forall task :: !e.reports(task)) ==> q.tasksCreated == p.tasksCreated)
                  && q.triggered == if stopped || complete then p.triggered else p.triggered + [t.name])
            && (q.threw ==> q.tasksCreated == p.tasksCreated && q.errors == p.errors && q.triggered == p.triggered)
  {
    var pending := Pending(t.steps, ExistingIds(p.store, e.householdId, t));
    CompleteIff(p.store, e.householdId, t);
    TasksForSizes(pending, t, e);
    ReportedAllOrNone(AllTasks(pending, t, e), e.reports);
  }
}
