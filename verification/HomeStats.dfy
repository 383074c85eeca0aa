/** Home screen statistics: the stalest household, the triage queue, and what filtering by advisor conserves. */
module HomeStats {
  import opened Text
  import opened PracticeTypes
  import StableSort

  // ---- the stalest household ----

  /** An insertion-ordered map from household id to the time of its last activity. */
  datatype Activity = Activity(order: seq<string>, last: map<string, int>)

  function Put(a: Activity, id: string, time: int): Activity {
    Activity(if id in a.last then a.order else a.order + [id], a.last[id := time])
  }

  /** `map.get(id) || 0` */
  function LastOr0(a: Activity, id: string): int {
    if id in a.last then a.last[id] else 0
  }

  function Max(a: int, b: int): int {
    if a < b then b else a
  }

  /** The later of a starting time and the last task of a household. */
  function LatestTask(tasks: seq<Task>, id: string, start: int): int {
    if tasks == [] then start else
    var t := tasks[|tasks| - 1];
    var before := LatestTask(tasks[..|tasks| - 1], id, start);
    if t.householdId == id then Max(before, t.createdAt) else before
  }

  function CreatedAt(hs: seq<Household>, id: string): Option<int> {
    if hs == [] then None
    else if hs[|hs| - 1].id == id then Some(hs[|hs| - 1].createdAt)
    else CreatedAt(hs[..|hs| - 1], id)
  }

  /** A household is tracked when it is listed, or when a task dated after the epoch names it. */
  predicate Tracked(hs: seq<Household>, tasks: seq<Task>, id: string) {
    CreatedAt(hs, id).Some? || (id != "" && LatestTask(tasks, id, 0) > 0)
  }

  /** The later of creation and last task; tasks without a household id belong to nobody. */
  function LastActivity(hs: seq<Household>, tasks: seq<Task>, id: string): int {
    var created := CreatedAt(hs, id);
    var start := if created.Some? then created.value else 0;
    if id == "" then start else LatestTask(tasks, id, start)
  }

  ghost predicate ActivityIs(a: Activity, hs: seq<Household>, tasks: seq<Task>) {
    (forall id :: id in a.last <==> id in a.order)
    && (forall id :: id in a.last <==> Tracked(hs, tasks, id))
    && (forall id :: id in a.last ==> a.last[id] == LastActivity(hs, tasks, id))
  }

  method CollectActivity(hs: seq<Household>, tasks: seq<Task>) returns (a: Activity)
    ensures ActivityIs(a, hs, tasks)
  {
    a := Activity([], map[]);
    for i := 0 to |hs|
      invariant ActivityIs(a, hs[..i], [])
    {
      assert hs[..i + 1][..i] == hs[..i];
      a := Put(a, hs[i].id, hs[i].createdAt);
    }
    assert hs[..|hs|] == hs;
    for i := 0 to |tasks|
      invariant ActivityIs(a, hs, tasks[..i])
    {
      assert tasks[..i + 1] == tasks[..i] + [tasks[i]];
      a := NoteTask(a, hs, tasks[..i], tasks[i]);
    }
    assert tasks[..|tasks|] == tasks;
  }

  /** A task moves the last activity of its household forward, and starts tracking a household that is not listed. */
  method NoteTask(a0: Activity, ghost hs: seq<Household>, ghost before: seq<Task>, t: Task) returns (a: Activity)
    requires ActivityIs(a0, hs, before)
    ensures ActivityIs(a, hs, before + [t])
  {
    a := a0;
    assert (before + [t])[..|before|] == before;
    if t.householdId != "" {
      UntrackedIsZero(a0, hs, before, t.householdId);
      if t.createdAt > LastOr0(a, t.householdId) {
        a := Put(a, t.householdId, t.createdAt);
      }
    }
  }

  lemma UntrackedIsZero(a: Activity, hs: seq<Household>, tasks: seq<Task>, id: string)
    requires ActivityIs(a, hs, tasks) && id != ""
    ensures id !in a.last ==> CreatedAt(hs, id).None? && LatestTask(tasks, id, 0) == 0
  {
    LatestIsAtLeastStart(tasks, id, 0);
  }

  lemma {:induction false} LatestIsAtLeastStart(tasks: seq<Task>, id: string, start: int)
    ensures LatestTask(tasks, id, start) >= start
  {
    if tasks != [] {
      LatestIsAtLeastStart(tasks[..|tasks| - 1], id, start);
    }
  }

  /** The last activity is the latest of the creation and the household's tasks: none is later, and it is one of them. */
  lemma {:induction false} LastActivityIsLatest(hs: seq<Household>, tasks: seq<Task>, id: string)
    requires id != ""
    ensures var last, created := LastActivity(hs, tasks, id), CreatedAt(hs, id);
            (created.Some? ==> last >= created.value) &&
            (forall i :: 0 <= i < |tasks| && tasks[i].householdId == id ==> last >= tasks[i].createdAt) &&
            (last == (if created.Some? then created.value else 0)
             || exists i :: 0 <= i < |tasks| && tasks[i].householdId == id && tasks[i].createdAt == last)
  {
    LatestTaskIsMax(tasks, id, if CreatedAt(hs, id).Some? then CreatedAt(hs, id).value else 0);
  }

  lemma {:induction false} LatestTaskIsMax(tasks: seq<Task>, id: string, start: int)
    ensures var last := LatestTask(tasks, id, start);
            last >= start &&
            (forall i :: 0 <= i < |tasks| && tasks[i].householdId == id ==> last >= tasks[i].createdAt) &&
            (last == start || exists i :: 0 <= i < |tasks| && tasks[i].householdId == id && tasks[i].createdAt == last)
  {
    if tasks != [] {
      var init := tasks[..|tasks| - 1];
      LatestTaskIsMax(init, id, start);
      assert forall i :: 0 <= i < |init| ==> init[i] == tasks[i];
    }
  }

  function DaysStale(last: int, now: int): int {
    (now - last) / MS_DAY
  }

  /** Two passes: collect the last activity of each household, then take the longest silence. */
  method StalestHousehold(hs: seq<Household>, tasks: seq<Task>, now: int) returns (stalestId: string, stalestDays: int)
    ensures stalestDays >= 0
    ensures forall id :: Tracked(hs, tasks, id) ==> DaysStale(LastActivity(hs, tasks, id), now) <= stalestDays
    ensures stalestDays > 0 ==> Tracked(hs, tasks, stalestId) && DaysStale(LastActivity(hs, tasks, stalestId), now) == stalestDays
    ensures stalestDays == 0 ==> stalestId == ""
  {
    var a := CollectActivity(hs, tasks);
    stalestId, stalestDays := "", 0;
    for i := 0 to |a.order|
      invariant stalestDays >= 0
      invariant forall j :: 0 <= j < i ==> DaysStale(a.last[a.order[j]], now) <= stalestDays
      invariant stalestDays > 0 ==> stalestId in a.last && DaysStale(a.last[stalestId], now) == stalestDays
      invariant stalestDays == 0 ==> stalestId == ""
    {
      var d := DaysStale(a.last[a.order[i]], now);
      if d > stalestDays {
        stalestDays, stalestId := d, a.order[i];
      }
    }
    forall id | Tracked(hs, tasks, id)
      ensures DaysStale(LastActivity(hs, tasks, id), now) <= stalestDays
    {
      assert id in a.order;
      var j :| 0 <= j < |a.order| && a.order[j] == id;
      assert DaysStale(a.last[a.order[j]], now) <= stalestDays;
    }
  }

  // ---- the triage queue ----

  datatype Config = Config(unsignedDocuSignDays: int, dueSoonDays: int, complianceUnreviewedDays: int, triageCap: nat)

  datatype Urgency = Now | Today | ThisWeek

  datatype Category = Overdue | Unsigned | FollowUp | ComplianceGap

  datatype TriageItem = TriageItem(urgency: Urgency, category: Category, subjectId: string)

  function Rank(): TriageItem -> int {
    (i: TriageItem) => match i.urgency case Now => 0 case Today => 1 case ThisWeek => 2
  }

  function DaysSince(date: int, now: int): int {
    Max(1, (now - date) / MS_DAY)
  }

  predicate IsOpen(t: Task) {
    !Completed(t)
  }

  predicate IsOverdue(t: Task, now: int) {
    IsOpen(t) && t.due.Some? && t.due.value < now
  }

  predicate IsUnsigned(t: Task) {
    t.status == "Not Started" && (Includes(t.subject, "SEND DOCU") || Includes(t.subject, "DocuSign"))
  }

  predicate IsUpcomingMeeting(t: Task, now: int) {
    Includes(t.subject, "MEETING NOTE") && now - t.createdAt <= 7 * MS_DAY
  }

  predicate IsDueSoon(t: Task, cfg: Config, now: int) {
    IsOpen(t) && t.due.Some? && 0 <= t.due.value - now <= cfg.dueSoonDays * MS_DAY
  }

  predicate IsReviewed(tasks: seq<Task>, name: string) {
    exists i :: 0 <= i < |tasks| && Includes(tasks[i].subject, "COMPLIANCE REVIEW") && tasks[i].householdName == name && name != ""
  }

  function Select<T>(xs: seq<T>, p: T -> bool): (r: seq<T>)
    ensures forall i :: 0 <= i < |r| ==> r[i] in xs && p(r[i])
  {
    if xs == [] then [] else if p(xs[0]) then [xs[0]] + Select(xs[1..], p) else Select(xs[1..], p)
  }

  /** `xs.slice(0, n)` */
  function Take<T>(xs: seq<T>, n: nat): seq<T> {
    if n <= |xs| then xs[..n] else xs
  }

  function TaskItems(tasks: seq<Task>, u: Urgency, c: Category): (r: seq<TriageItem>)
    ensures |r| == |tasks| && forall i :: 0 <= i < |r| ==> r[i] == TriageItem(u, c, tasks[i].id)
  {
    seq(|tasks|, i requires 0 <= i < |tasks| => TriageItem(u, c, tasks[i].id))
  }

  function HouseholdItems(hs: seq<Household>): (r: seq<TriageItem>)
    ensures |r| == |hs| && forall i :: 0 <= i < |r| ==> r[i] == TriageItem(ThisWeek, ComplianceGap, hs[i].id)
  {
    seq(|hs|, i requires 0 <= i < |hs| => TriageItem(ThisWeek, ComplianceGap, hs[i].id))
  }

  function Urgent(tasks: seq<Task>, cfg: Config, now: int): seq<TriageItem> {
    TaskItems(Take(Select(tasks, (t: Task) => IsOverdue(t, now) && t.highPriority), 3), Now, Overdue)
    + TaskItems(Take(Select(tasks, (t: Task) => IsUnsigned(t) && DaysSince(t.createdAt, now) >= cfg.unsignedDocuSignDays), 2), Now, Unsigned)
  }

  function ForToday(tasks: seq<Task>, cfg: Config, now: int): seq<TriageItem> {
    TaskItems(Take(Select(tasks, (t: Task) => IsOverdue(t, now) && !t.highPriority), 3), Today, Overdue)
    + TaskItems(Take(Select(tasks, (t: Task) => IsDueSoon(t, cfg, now)), 2), Today, FollowUp)
  }

  /** The two oldest households never reviewed, if they have been clients long enough. */
  function ForThisWeek(hs: seq<Household>, tasks: seq<Task>, cfg: Config, now: int): seq<TriageItem> {
    var unreviewed := Select(hs, (h: Household) => !IsReviewed(tasks, h.name));
    var oldest := Take(StableSort.Sort(unreviewed, (h: Household) => h.createdAt), 2);
    HouseholdItems(Select(oldest, (h: Household) => (now - h.createdAt) / MS_DAY >= cfg.complianceUnreviewedDays))
  }

  function Queue(hs: seq<Household>, tasks: seq<Task>, cfg: Config, now: int): seq<TriageItem> {
    Urgent(tasks, cfg, now) + ForToday(tasks, cfg, now) + ForThisWeek(hs, tasks, cfg, now)
  }

  method PushItems(before: seq<TriageItem>, tasks: seq<Task>, u: Urgency, c: Category) returns (triage: seq<TriageItem>)
    ensures triage == before + TaskItems(tasks, u, c)
  {
    triage := before;
    for i := 0 to |tasks|
      invariant triage == before + TaskItems(tasks, u, c)[..i]
    {
      triage := triage + [TriageItem(u, c, tasks[i].id)];
    }
  }

  /** The two most urgent groups. */
  method PushUrgent(tasks: seq<Task>, cfg: Config, now: int) returns (triage: seq<TriageItem>)
    ensures triage == Urgent(tasks, cfg, now)
  {
    triage := PushItems([], Take(Select(tasks, (t: Task) => IsOverdue(t, now) && t.highPriority), 3), Now, Overdue);
    triage := PushItems(triage, Take(Select(tasks, (t: Task) => IsUnsigned(t) && DaysSince(t.createdAt, now) >= cfg.unsignedDocuSignDays), 2), Now, Unsigned);
  }

  /** The groups for today. */
  method PushToday(before: seq<TriageItem>, tasks: seq<Task>, cfg: Config, now: int) returns (triage: seq<TriageItem>)
    ensures triage == before + ForToday(tasks, cfg, now)
  {
    triage := PushItems(before, Take(Select(tasks, (t: Task) => IsOverdue(t, now) && !t.highPriority), 3), Today, Overdue);
    triage := PushItems(triage, Take(Select(tasks, (t: Task) => IsDueSoon(t, cfg, now)), 2), Today, FollowUp);
  }

  /** The queue as built, sorted and capped: the sort moves nothing. */
  method BuildTriage(hs: seq<Household>, tasks: seq<Task>, cfg: Config, now: int) returns (topTriage: seq<TriageItem>)
    ensures topTriage == Take(Queue(hs, tasks, cfg, now), cfg.triageCap)
  {
    var triage := PushUrgent(tasks, cfg, now);
    triage := PushToday(triage, tasks, cfg, now);
    triage := PushHouseholds(triage, hs, tasks, cfg, now);
    QueueIsInOrder(hs, tasks, cfg, now);
    StableSort.SortedIsFixed(triage, Rank());
    triage := StableSort.Sort(triage, Rank());
    topTriage := Take(triage, cfg.triageCap);
  }

  method PushHouseholds(before: seq<TriageItem>, hs: seq<Household>, tasks: seq<Task>, cfg: Config,
                        now: int) returns (triage: seq<TriageItem>)
    ensures triage == before + ForThisWeek(hs, tasks, cfg, now)
  {
    var unreviewed := Select(hs, (h: Household) => !IsReviewed(tasks, h.name));
    var oldest := Take(StableSort.Sort(unreviewed, (h: Household) => h.createdAt), 2);
    var longEnough := (h: Household) => (now - h.createdAt) / MS_DAY >= cfg.complianceUnreviewedDays;
    triage := before;
    for i := 0 to |oldest|
      invariant triage == before + HouseholdItems(Select(oldest[..i], longEnough))
    {
      SelectStep(oldest, i, longEnough);
      if longEnough(oldest[i]) {
        triage := triage + [TriageItem(ThisWeek, ComplianceGap, oldest[i].id)];
      }
    }
    assert oldest[..|oldest|] == oldest;
  }

  lemma {:induction false} SelectConcat<T>(a: seq<T>, b: seq<T>, p: T -> bool)
    ensures Select(a + b, p) == Select(a, p) + Select(b, p)
  {
    if a == [] {
      assert a + b == b;
    } else {
      assert (a + b)[1..] == a[1..] + b;
      SelectConcat(a[1..], b, p);
    }
  }

  lemma SelectStep<T>(xs: seq<T>, i: nat, p: T -> bool)
    requires i < |xs|
    ensures Select(xs[..i + 1], p) == Select(xs[..i], p) + if p(xs[i]) then [xs[i]] else []
  {
    assert xs[..i + 1] == xs[..i] + [xs[i]];
    SelectConcat(xs[..i], [xs[i]], p);
    assert [xs[i]][1..] == [];
  }

  /** The queue is built in urgency order. */
  lemma QueueIsInOrder(hs: seq<Household>, tasks: seq<Task>, cfg: Config, now: int)
    ensures StableSort.Sorted(Queue(hs, tasks, cfg, now), Rank())
  {
    Levels(hs, tasks, cfg, now);
    ThreeLevels(Urgent(tasks, cfg, now), ForToday(tasks, cfg, now), ForThisWeek(hs, tasks, cfg, now));
  }

  lemma Levels(hs: seq<Household>, tasks: seq<Task>, cfg: Config, now: int)
    ensures forall i :: 0 <= i < |Urgent(tasks, cfg, now)| ==> Urgent(tasks, cfg, now)[i].urgency == Now
    ensures forall i :: 0 <= i < |ForToday(tasks, cfg, now)| ==> ForToday(tasks, cfg, now)[i].urgency == Today
    ensures forall i :: 0 <= i < |ForThisWeek(hs, tasks, cfg, now)| ==> ForThisWeek(hs, tasks, cfg, now)[i].urgency == ThisWeek
  {
  }

  lemma ThreeLevels(a: seq<TriageItem>, b: seq<TriageItem>, c: seq<TriageItem>)
    requires forall i :: 0 <= i < |a| ==> a[i].urgency == Now
    requires forall i :: 0 <= i < |b| ==> b[i].urgency == Today
    requires forall i :: 0 <= i < |c| ==> c[i].urgency == ThisWeek
    ensures StableSort.Sorted(a + b + c, Rank())
  {
  }

  /** The cap never drops an item in favour of a less urgent one. */
  lemma CapKeepsTheMostUrgent(hs: seq<Household>, tasks: seq<Task>, cfg: Config, now: int, i: nat, j: nat)
    requires i < |Take(Queue(hs, tasks, cfg, now), cfg.triageCap)| <= j < |Queue(hs, tasks, cfg, now)|
    ensures Rank()(Take(Queue(hs, tasks, cfg, now), cfg.triageCap)[i]) <= Rank()(Queue(hs, tasks, cfg, now)[j])
  {
    QueueIsInOrder(hs, tasks, cfg, now);
  }

  // ---- filtering by advisor ----

  /** The ids of the households of an advisor. */
  function BookIds(hs: seq<Household>, advisor: string): set<string> {
    set i | 0 <= i < |hs| && hs[i].labelled == Some(advisor) :: hs[i].id
  }

  /** The tasks counted when the screen is filtered by an advisor. */
  function Filtered(hs: seq<Household>, tasks: seq<Task>, advisor: string): seq<Task> {
    Select(tasks, (t: Task) => t.householdId != "" && t.householdId in BookIds(hs, advisor))
  }

  function CountWhere(tasks: seq<Task>, p: Task -> bool): nat {
    |Select(tasks, p)|
  }

  function SumFiltered(advisors: seq<string>, hs: seq<Household>, tasks: seq<Task>, p: Task -> bool): nat {
    if advisors == [] then 0 else CountWhere(Filtered(hs, tasks, advisors[0]), p) + SumFiltered(advisors[1..], hs, tasks, p)
  }

  /** A task whose household is listed under one of the advisors. */
  predicate Attributed(advisors: seq<string>, hs: seq<Household>, t: Task) {
    t.householdId != "" && exists i :: 0 <= i < |hs| && hs[i].id == t.householdId && hs[i].labelled.Some? && hs[i].labelled.value in advisors
  }

  function Unattributed(advisors: seq<string>, hs: seq<Household>, tasks: seq<Task>): seq<Task> {
    Select(tasks, (t: Task) => !Attributed(advisors, hs, t))
  }

  lemma {:induction false} SumHead(advisors: seq<string>, hs: seq<Household>, tasks: seq<Task>, p: Task -> bool)
    requires tasks != [] && UniqueIds(hs)
    requires forall i, j :: 0 <= i < j < |advisors| ==> advisors[i] != advisors[j]
    ensures SumFiltered(advisors, hs, tasks, p) == Bit(Attributed(advisors, hs, tasks[0]) && p(tasks[0])) + SumFiltered(advisors, hs, tasks[1..], p)
  {
    if advisors != [] {
      var t := tasks[0];
      SumHead(advisors[1..], hs, tasks, p);
      AttributedSplit(advisors, hs, t);
    }
  }

  /** With unique ids a task is under the first advisor or under one of the others, never both. */
  lemma AttributedSplit(advisors: seq<string>, hs: seq<Household>, t: Task)
    requires advisors != [] && UniqueIds(hs)
    requires forall i, j :: 0 <= i < j < |advisors| ==> advisors[i] != advisors[j]
    ensures var first := t.householdId != "" && t.householdId in BookIds(hs, advisors[0]);
            Bit(Attributed(advisors, hs, t)) == Bit(first) + Bit(Attributed(advisors[1..], hs, t))
  {
    var rest := advisors[1..];
    assert forall a :: a in advisors <==> a == advisors[0] || a in rest by {
      assert advisors == [advisors[0]] + rest;
    }
    assert advisors[0] !in rest;
    if t.householdId != "" && t.householdId in BookIds(hs, advisors[0]) {
      var i :| 0 <= i < |hs| && hs[i].labelled == Some(advisors[0]) && hs[i].id == t.householdId;
      assert hs[i].labelled.value in advisors;
    }
    if Attributed(rest, hs, t) {
      var j :| 0 <= j < |hs| && hs[j].id == t.householdId && hs[j].labelled.Some? && hs[j].labelled.value in rest;
      assert hs[j].labelled.value in advisors;
    }
  }

  /**
   * For any kind of task: the counts of all advisors, each seen through its own filter, and the unattributed tasks
   * add up to the firm's count.
   */
  lemma {:induction false} CountsConserved(advisors: seq<string>, hs: seq<Household>, tasks: seq<Task>, p: Task -> bool)
    requires UniqueIds(hs) && forall i, j :: 0 <= i < j < |advisors| ==> advisors[i] != advisors[j]
    ensures SumFiltered(advisors, hs, tasks, p) + CountWhere(Unattributed(advisors, hs, tasks), p) == CountWhere(tasks, p)
  {
    if tasks == [] {
      NothingToSum(advisors, hs, p);
    } else {
      CountsConserved(advisors, hs, tasks[1..], p);
      SumHead(advisors, hs, tasks, p);
    }
  }

  lemma {:induction false} NothingToSum(advisors: seq<string>, hs: seq<Household>, p: Task -> bool)
    ensures SumFiltered(advisors, hs, [], p) == 0
  {
    if advisors != [] {
      NothingToSum(advisors[1..], hs, p);
    }
  }

  // ---- the four figures ----

  datatype Figure = OverdueTasks | OpenTasks | UnsignedEnvelopes | UpcomingMeetings

  function Counts(f: Figure, now: int): Task -> bool {
    (t: Task) => match f
      case OverdueTasks => IsOverdue(t, now)
      case OpenTasks => IsOpen(t)
      case UnsignedEnvelopes => IsUnsigned(t)
      case UpcomingMeetings => IsUpcomingMeeting(t, now)
  }

  /** A figure of the screen, for the whole firm when no advisor name is given. */
  function HomeFigure(f: Figure, hs: seq<Household>, tasks: seq<Task>, filterAdvisor: string, now: int): nat {
    CountWhere(if filterAdvisor != "" then Filtered(hs, tasks, filterAdvisor) else tasks, Counts(f, now))
  }

  function SumOfFigures(f: Figure, advisors: seq<string>, hs: seq<Household>, tasks: seq<Task>, now: int): nat {
    if advisors == [] then 0 else HomeFigure(f, hs, tasks, advisors[0], now) + SumOfFigures(f, advisors[1..], hs, tasks, now)
  }

  lemma {:induction false} FiguresAreFiltered(f: Figure, advisors: seq<string>, hs: seq<Household>, tasks: seq<Task>,
                                              now: int)
    requires "" !in advisors
    ensures SumOfFigures(f, advisors, hs, tasks, now) == SumFiltered(advisors, hs, tasks, Counts(f, now))
  {
    if advisors != [] {
      assert advisors[0] in advisors;
      FiguresAreFiltered(f, advisors[1..], hs, tasks, now);
    }
  }

  /**
   * Overdue, open, unsigned and upcoming: each figure, summed over any distinct non-empty advisor names, plus the
   * tasks attributed to none of them, is the firm-wide figure.
   */
  lemma HomeFiguresConserved(f: Figure, advisors: seq<string>, hs: seq<Household>, tasks: seq<Task>, now: int)
    requires UniqueIds(hs) && "" !in advisors
    requires forall i, j :: 0 <= i < j < |advisors| ==> advisors[i] != advisors[j]
    ensures SumOfFigures(f, advisors, hs, tasks, now) + CountWhere(Unattributed(advisors, hs, tasks), Counts(f, now))
         == HomeFigure(f, hs, tasks, "", now)
  {
    FiguresAreFiltered(f, advisors, hs, tasks, now);
    CountsConserved(advisors, hs, tasks, Counts(f, now));
  }
}
