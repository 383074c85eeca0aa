/** The workflow engine: step-level idempotency over a CRM task store, under arbitrary partial failures. */
module Workflows {
  import opened Text

  // ---- templates and tasks ----

  datatype Step = Step(id: string, caption: string, taskSubject: string, taskDescription: string, delayDays: nat)

  datatype Template = Template(
    id: string,
    name: string,
    trigger: string,
    subjectFilter: Option<string>,
    steps: seq<Step>,
    enabled: bool)

  datatype CrmTask = CrmTask(subject: string, householdId: string, description: string)

  // ---- the description printed, and what is read back from it ----

  function Describe(t: Template, s: Step, due: string, stamp: string): string {
    "WORKFLOW_ID:" + t.id + " STEP:" + s.id + "\n"
    + (s.taskDescription + "\n\nWorkflow: " + t.name + "\nStep: " + s.caption
       + (if s.delayDays > 0 then "\nDue: " + due else "") + "\nTriggered: " + stamp)
  }

  /** `description.startsWith("WORKFLOW_ID:" + id)` */
  predicate Belongs(task: CrmTask, t: Template) {
    "WORKFLOW_ID:" + t.id <= task.description
  }

  /** `\s` */
  predicate IsSpace(c: char) {
    c == ' ' || '\t' <= c <= '\r' || c == '\U{A0}' || c == '\U{1680}' || '\U{2000}' <= c <= '\U{200A}'
    || c == '\U{2028}' || c == '\U{2029}' || c == '\U{202F}' || c == '\U{205F}' || c == '\U{3000}' || c == '\U{FEFF}'
  }

  function NonSpaceRun(s: string): string {
    if s == "" || IsSpace(s[0]) then "" else [s[0]] + NonSpaceRun(s[1..])
  }

  /** `description.match(/STEP:(\S+)/)` */
  function FindStep(s: string): Option<string> {
    if StepAt(s) then Some(NonSpaceRun(s[5..]))
    else if s == "" then None
    else FindStep(s[1..])
  }

  predicate StepAt(s: string) {
    "STEP:" <= s && |s| > 5 && !IsSpace(s[5])
  }

  predicate SpaceFree(s: string) {
    s != "" && forall i :: 0 <= i < |s| ==> !IsSpace(s[i])
  }

  lemma {:induction false} FindStepFrom(s: string, k: nat)
    requires k <= |s| && forall j :: 0 <= j < k ==> !StepAt(s[j..])
    ensures FindStep(s) == FindStep(s[k..])
  {
    assert s[0..] == s;
    if k > 0 {
      assert forall j :: 0 <= j < k - 1 ==> s[1..][j..] == s[j + 1..];
      FindStepFrom(s[1..], k - 1);
      assert s[1..][k - 1..] == s[k..];
    }
  }

  lemma {:induction false} RunIs(w: string, rest: string)
    requires w == "" || SpaceFree(w)
    requires rest != "" && IsSpace(rest[0])
    ensures NonSpaceRun(w + rest) == w
  {
    if w == "" {
      assert w + rest == rest;
    } else {
      assert (w + rest)[1..] == w[1..] + rest;
      RunIs(w[1..], rest);
    }
  }

  /** The step id is recovered from any description that begins the way the engine prints it. */
  lemma StepRoundTrip(tid: string, sid: string, rest: string)
    requires SpaceFree(sid) && !Includes("WORKFLOW_ID:" + tid, "STEP:")
    ensures FindStep("WORKFLOW_ID:" + tid + " STEP:" + sid + "\n" + rest) == Some(sid)
  {
    var p := "WORKFLOW_ID:" + tid;
    var u := sid + ("\n" + rest);
    var s := p + (" " + ("STEP:" + u));
    assert "WORKFLOW_ID:" + tid + " STEP:" + sid + "\n" + rest == s by {
      assert " STEP:" == " " + "STEP:";
    }
    NoEarlierStep(p, "STEP:" + u);
    FindStepFrom(s, |p| + 1);
    assert s[|p| + 1..] == "STEP:" + u;
    assert ("STEP:" + u)[5..] == u && u[0] == sid[0];
    RunIs(sid, "\n" + rest);
  }

  lemma NoEarlierStep(p: string, t: string)
    requires !Includes(p, "STEP:")
    ensures var s := p + (" " + t); forall j :: 0 <= j < |p| + 1 ==> !StepAt(s[j..])
  {
    var s := p + (" " + t);
    forall j | 0 <= j < |p| + 1
      ensures !("STEP:" <= s[j..])
    {
      if j + 5 > |p| {
        assert s[j..][|p| - j] == ' ';
      } else if "STEP:" <= s[j..] {
        assert p[j..][..5] == s[j..][..5];
        IncludesAt(p, "STEP:", j);
      }
    }
  }

  /** A description names the template it was printed for and no other, when ids have no spaces and none is a prefix of another. */
  lemma BelongsOnlyToItsTemplate(t: Template, u: Template, hh: string, subject: string, rest: string)
    requires SpaceFree(t.id) && SpaceFree(u.id) && (t.id == u.id || !(u.id <= t.id))
    ensures Belongs(CrmTask(subject, hh, "WORKFLOW_ID:" + t.id + " STEP:" + rest), u) <==> u.id == t.id
  {
    var d := "WORKFLOW_ID:" + t.id + " STEP:" + rest;
    var p, n := "WORKFLOW_ID:", |"WORKFLOW_ID:"|;
    assert d == p + (t.id + (" STEP:" + rest));
    assert d[n..] == t.id + (" STEP:" + rest);
    assert (p + u.id)[n..] == u.id;
    if |u.id| > |t.id| {
      assert d[n..][|t.id|] == ' ' && (p + u.id)[n + |t.id|] == u.id[|t.id|] && d[n + |t.id|] == ' ';
    } else if p + u.id <= d {
      assert u.id == d[n..][..|u.id|];
      assert u.id == t.id[..|u.id|];
    }
    if u.id == t.id {
      assert d == (p + u.id) + (" STEP:" + rest);
    }
  }

  // ---- one template ----

  function TemplateTasks(store: seq<CrmTask>, hh: string, t: Template): (r: seq<CrmTask>)
    ensures forall i :: 0 <= i < |r| ==> r[i] in store && r[i].householdId == hh && Belongs(r[i], t)
  {
    if store == [] then []
    else if store[0].householdId == hh && Belongs(store[0], t) then [store[0]] + TemplateTasks(store[1..], hh, t)
    else TemplateTasks(store[1..], hh, t)
  }

  function StepIds(tasks: seq<CrmTask>): set<string> {
    set i | 0 <= i < |tasks| && FindStep(tasks[i].description).Some? :: FindStep(tasks[i].description).value
  }

  /** The step ids already present for a household and template. */
  function ExistingIds(store: seq<CrmTask>, hh: string, t: Template): set<string> {
    StepIds(TemplateTasks(store, hh, t))
  }

  function Pending(steps: seq<Step>, ids: set<string>): (r: seq<Step>)
    ensures |r| <= |steps|
    ensures forall i :: 0 <= i < |r| ==> r[i] in steps && r[i].id !in ids
  {
    if steps == [] then []
    else if steps[0].id !in ids then [steps[0]] + Pending(steps[1..], ids)
    else Pending(steps[1..], ids)
  }

  /**
   * What a run of the trigger is given: the household, the clock texts, how many copies of each input the CRM ends up with,
   * which inputs it reports as created, and which templates' batches throw. The first two answers are independent: an answer
   * can be lost after the task was created, and an input can be sent again.
   */
  datatype Env = Env(
    householdId: string,
    householdName: string,
    due: nat -> string,
    stamp: string,
    copies: CrmTask -> nat,
    reports: CrmTask -> bool,
    throws: string -> bool)

  function TaskFor(t: Template, s: Step, e: Env): CrmTask {
    CrmTask(s.taskSubject + " — " + e.householdName, e.householdId, Describe(t, s, e.due(s.delayDays), e.stamp))
  }

  /** `steps.filter(...).map(...)`, for the immediate or for the delayed steps. */
  function TasksFor(steps: seq<Step>, t: Template, e: Env, delayed: bool): seq<CrmTask> {
    if steps == [] then []
    else if (steps[0].delayDays > 0) == delayed then [TaskFor(t, steps[0], e)] + TasksFor(steps[1..], t, e, delayed)
    else TasksFor(steps[1..], t, e, delayed)
  }

  function AllTasks(steps: seq<Step>, t: Template, e: Env): seq<CrmTask> {
    TasksFor(steps, t, e, false) + TasksFor(steps, t, e, true)
  }

  function Repeated(task: CrmTask, n: nat): seq<CrmTask> {
    seq(n, _ => task)
  }

  /** What the store gains from a batch. */
  function Created(tasks: seq<CrmTask>, copies: CrmTask -> nat): seq<CrmTask> {
    if tasks == [] then [] else Repeated(tasks[0], copies(tasks[0])) + Created(tasks[1..], copies)
  }

  /** How many inputs of a batch are reported as created. */
  function Reported(tasks: seq<CrmTask>, reports: CrmTask -> bool): (n: nat)
    ensures n <= |tasks|
  {
    if tasks == [] then 0 else Bit(reports(tasks[0])) + Reported(tasks[1..], reports)
  }

  datatype Progress = Progress(
    store: seq<CrmTask>,
    triggered: seq<string>,
    tasksCreated: nat,
    skippedSteps: nat,
    errors: nat,
    threw: bool)

  predicate AllDone(store: seq<CrmTask>, hh: string, t: Template) {
    |TemplateTasks(store, hh, t)| > 0 && |ExistingIds(store, hh, t)| >= |t.steps|
  }

  /** Sending the tasks of one template to the CRM: nothing is sent when there are none, and a throw ends the run. */
  function SendBatch(q: Progress, t: Template, tasks: seq<CrmTask>, e: Env): Progress {
    if tasks == [] then q
    else
      var store := q.store + Created(tasks, e.copies);
      if e.throws(t.id) then q.(store := store, threw := true)
      else q.(store := store,
              tasksCreated := q.tasksCreated + Reported(tasks, e.reports),
              errors := q.errors + (|tasks| - Reported(tasks, e.reports)),
              triggered := q.triggered + [t.name])
  }

  /** The body of the loop when the early `continue` is not taken. */
  function ProcessTemplate(p: Progress, t: Template, e: Env): Progress {
    var pending := Pending(t.steps, ExistingIds(p.store, e.householdId, t));
    SendBatch(p.(skippedSteps := p.skippedSteps + (|t.steps| - |pending|)), t, AllTasks(pending, t, e), e)
  }

  function FireTemplate(p: Progress, t: Template, e: Env): Progress {
    if AllDone(p.store, e.householdId, t) && t.id != "document-expiration" then p else ProcessTemplate(p, t, e)
  }

  function FireTemplates(p: Progress, ts: seq<Template>, e: Env): Progress {
    if ts == [] then p else
    var q := FireTemplates(p, ts[..|ts| - 1], e);
    if q.threw then q else FireTemplate(q, ts[|ts| - 1], e)
  }

  predicate Matches(t: Template, event: string, subject: Option<string>) {
    t.enabled && t.trigger == event
    && (!Truthy(t.subjectFilter) || (subject.Some? && Includes(subject.value, t.subjectFilter.value)))
  }

  function Matching(ts: seq<Template>, event: string, subject: Option<string>): (r: seq<Template>)
    ensures forall i :: 0 <= i < |r| ==> r[i] in ts
  {
    if ts == [] then []
    else if Matches(ts[0], event, subject) then [ts[0]] + Matching(ts[1..], event, subject)
    else Matching(ts[1..], event, subject)
  }

  function Start(store: seq<CrmTask>): Progress {
    Progress(store, [], 0, 0, 0, false)
  }

  method SendTasks(q: Progress, t: Template, tasks: seq<CrmTask>, e: Env) returns (p: Progress)
    ensures p == SendBatch(q, t, tasks, e)
  {
    p := q;
    if |tasks| > 0 {
      p := p.(store := p.store + Created(tasks, e.copies));
      if e.throws(t.id) {
        p := p.(threw := true);
        return;
      }
      var reported := Reported(tasks, e.reports);
      p := p.(tasksCreated := p.tasksCreated + reported);
      p := p.(errors := p.errors + (|tasks| - reported));
      p := p.(triggered := p.triggered + [t.name]);
    }
  }

  /** One turn of the loop, with its early continue. */
  method FireOne(p0: Progress, t: Template, e: Env) returns (p: Progress)
    ensures p == FireTemplate(p0, t, e)
  {
    var templateTasks := TemplateTasks(p0.store, e.householdId, t);
    var existing := StepIds(templateTasks);
    if |templateTasks| > 0 && |existing| >= |t.steps| && t.id != "document-expiration" {
      return p0;
    }
    var pending := Pending(t.steps, existing);
    var immediateTasks := TasksFor(pending, t, e, false);
    var scheduledTasks := TasksFor(pending, t, e, true);
    p := SendTasks(p0.(skippedSteps := p0.skippedSteps + (|t.steps| - |pending|)), t, immediateTasks + scheduledTasks, e);
  }

  /** The loop over the templates, stopped by a batch that throws. */
  method FireAll(ts: seq<Template>, store: seq<CrmTask>, e: Env) returns (p: Progress)
    ensures p == FireTemplates(Start(store), ts, e)
  {
    p := Start(store);
    for i := 0 to |ts|
      invariant p == FireTemplates(Start(store), ts[..i], e) && !p.threw
    {
      assert ts[..i + 1][..i] == ts[..i];
      p := FireOne(p, ts[i], e);
      if p.threw {
        StoppedRun(ts, i + 1, store, e, p);
        return;
      }
    }
    assert ts[..|ts|] == ts;
  }

  /** A whole trigger for a household. */
  function Trigger(templates: seq<Template>, event: string, subject: Option<string>, store: seq<CrmTask>, e: Env): Progress {
    FireTemplates(Start(store), Matching(templates, event, subject), e)
  }

  method FireWorkflowTrigger(templates: seq<Template>, event: string, subject: Option<string>, store: seq<CrmTask>, e: Env)
    returns (p: Progress)
    ensures p == Trigger(templates, event, subject, store, e)
  {
    p := FireAll(Matching(templates, event, subject), store, e);
  }

  lemma {:induction false} StoppedRun(ts: seq<Template>, i: nat, store: seq<CrmTask>, e: Env, p: Progress)
    requires i <= |ts| && p == FireTemplates(Start(store), ts[..i], e) && p.threw
    ensures p == FireTemplates(Start(store), ts, e)
    decreases |ts| - i
  {
    if i == |ts| {
      assert ts[..i] == ts;
    } else {
      assert ts[..i + 1][..i] == ts[..i];
      StoppedRun(ts, i + 1, store, e, p);
    }
  }

  // ---- counting the tasks of a step ----

  predicate IsTaskOf(task: CrmTask, hh: string, t: Template, sid: string) {
    task.householdId == hh && Belongs(task, t) && FindStep(task.description) == Some(sid)
  }

  /** The number of tasks in the store for a household, a template and a step. */
  function Count(store: seq<CrmTask>, hh: string, t: Template, sid: string): nat {
    if store == [] then 0 else (if IsTaskOf(store[0], hh, t, sid) then 1 else 0) + Count(store[1..], hh, t, sid)
  }

  lemma {:induction false} CountConcat(a: seq<CrmTask>, b: seq<CrmTask>, hh: string, t: Template, sid: string)
    ensures Count(a + b, hh, t, sid) == Count(a, hh, t, sid) + Count(b, hh, t, sid)
  {
    if a == [] {
      assert a + b == b;
    } else {
      assert (a + b)[1..] == a[1..] + b;
      CountConcat(a[1..], b, hh, t, sid);
    }
  }

  lemma {:induction false} ExistingIffCounted(store: seq<CrmTask>, hh: string, t: Template, sid: string)
    ensures sid in ExistingIds(store, hh, t) <==> Count(store, hh, t, sid) > 0
  {
    if store != [] {
      ExistingIffCounted(store[1..], hh, t, sid);
      if store[0].householdId == hh && Belongs(store[0], t) {
        StepIdsConcat([store[0]], TemplateTasks(store[1..], hh, t), sid);
        assert [store[0]][0] == store[0];
      }
    }
  }

  lemma StepIdsConcat(a: seq<CrmTask>, b: seq<CrmTask>, sid: string)
    ensures sid in StepIds(a + b) <==> sid in StepIds(a) || sid in StepIds(b)
  {
    var all := a + b;
    if i :| 0 <= i < |a| && FindStep(a[i].description) == Some(sid) {
      assert all[i] == a[i];
    }
    if i :| 0 <= i < |b| && FindStep(b[i].description) == Some(sid) {
      assert all[|a| + i] == b[i];
    }
    if i :| 0 <= i < |all| && FindStep(all[i].description) == Some(sid) {
      assert all[i] == if i < |a| then a[i] else b[i - |a|];
    }
  }
}
