/** What the home screen counts and shows first, told from the fields of the tasks and households. */
module HomeFigures {
  import opened Text
  import opened PracticeTypes
  import opened HomeStats
  import StableSort

  // ---- which households are tracked ----

  lemma {:induction false} CreatedIffListed(hs: seq<Household>, id: string)
    ensures CreatedAt(hs, id).Some? <==> exists i :: 0 <= i < |hs| && hs[i].id == id
  {
    if hs != [] {
      var n := |hs| - 1;
      CreatedIffListed(hs[..n], id);
      if i :| 0 <= i < n && hs[..n][i].id == id {
        assert hs[i].id == id;
      }
      if i :| 0 <= i < n && hs[i].id == id {
        assert hs[..n][i].id == id;
      }
    }
  }

  /** A household is tracked if and only if it is listed, or a task dated after the epoch carries its id. */
  lemma TrackedIff(hs: seq<Household>, tasks: seq<Task>, id: string)
    ensures Tracked(hs, tasks, id) <==>
            (exists i :: 0 <= i < |hs| && hs[i].id == id) ||
            (id != "" && exists i :: 0 <= i < |tasks| && tasks[i].householdId == id && tasks[i].createdAt > 0)
  {
    CreatedIffListed(hs, id);
    LatestTaskIsMax(tasks, id, 0);
  }

  /** Silence is counted in whole days of the clock. */
  lemma SilenceIsWholeDays(last: int, now: int)
    ensures DaysStale(last, now) * 86_400_000 <= now - last < (DaysStale(last, now) + 1) * 86_400_000
  {
  }

  // ---- what is selected ----

  lemma {:induction false} SelectCount<T>(xs: seq<T>, p: T -> bool)
    ensures |Select(xs, p)| == HowMany(xs, p)
  {
    if xs != [] {
      var n := |xs| - 1;
      SelectCount(xs[..n], p);
      OneMorePlace(xs, p);
      SelectStep(xs, n, p);
      assert xs[..n + 1] == xs;
    }
  }

  /** An element is selected at the place given by the number of such elements before it. */
  lemma SelectAt<T>(xs: seq<T>, p: T -> bool, i: nat)
    requires i < |xs| && p(xs[i])
    ensures HowMany(xs[..i], p) < |Select(xs, p)| && Select(xs, p)[HowMany(xs[..i], p)] == xs[i]
  {
    assert xs == xs[..i] + ([xs[i]] + xs[i + 1..]);
    SelectConcat(xs[..i], [xs[i]] + xs[i + 1..], p);
    SelectCount(xs[..i], p);
    assert ([xs[i]] + xs[i + 1..])[0] == xs[i];
  }

  // ---- the four figures ----

  predicate InBook(hs: seq<Household>, advisor: string, t: Task) {
    advisor == "" || (t.householdId != "" && exists j :: 0 <= j < |hs| && hs[j].id == t.householdId && hs[j].labelled == Some(advisor))
  }

  function LateIn(hs: seq<Household>, advisor: string, now: int): Task -> bool {
    (t: Task) => InBook(hs, advisor, t) && t.status != "Completed" && t.due.Some? && t.due.value < now
  }

  function OpenIn(hs: seq<Household>, advisor: string): Task -> bool {
    (t: Task) => InBook(hs, advisor, t) && t.status != "Completed"
  }

  function UnsignedIn(hs: seq<Household>, advisor: string): Task -> bool {
    (t: Task) => InBook(hs, advisor, t) && t.status == "Not Started" && (Includes(t.subject, "SEND DOCU") || Includes(t.subject, "DocuSign"))
  }

  /** Created at most seven days ago. */
  function RecentMeetingIn(hs: seq<Household>, advisor: string, now: int): Task -> bool {
    (t: Task) => InBook(hs, advisor, t) && Includes(t.subject, "MEETING NOTE") && now - t.createdAt <= 604_800_000
  }

  lemma {:induction false} FilteredCount(hs: seq<Household>, tasks: seq<Task>, advisor: string, p: Task -> bool, q: Task -> bool)
    requires forall t :: q(t) <==> t.householdId != "" && t.householdId in BookIds(hs, advisor) && p(t)
    ensures CountWhere(Filtered(hs, tasks, advisor), p) == HowMany(tasks, q)
  {
    if tasks != [] {
      var n := |tasks| - 1;
      FilteredCount(hs, tasks[..n], advisor, p, q);
      OneMorePlace(tasks, q);
      var inBook := (t: Task) => t.householdId != "" && t.householdId in BookIds(hs, advisor);
      SelectStep(tasks, n, inBook);
      assert tasks[..n + 1] == tasks;
      OneMoreSelected(Select(tasks[..n], inBook), tasks[n], p);
    }
  }

  lemma OneMoreSelected(xs: seq<Task>, t: Task, p: Task -> bool)
    ensures CountWhere(xs + [t], p) == CountWhere(xs, p) + Bit(p(t))
    ensures CountWhere(xs + [], p) == CountWhere(xs, p)
  {
    SelectConcat(xs, [t], p);
    assert [t][1..] == [];
    assert xs + [] == xs;
  }

  /** A figure counts the tasks with its property, those of an advisor's own households when filtered by the advisor. */
  lemma FigureCounts(f: Figure, hs: seq<Household>, tasks: seq<Task>, advisor: string, now: int, q: Task -> bool)
    requires forall t :: q(t) <==> InBook(hs, advisor, t) && Counts(f, now)(t)
    ensures HomeFigure(f, hs, tasks, advisor, now) == HowMany(tasks, q)
  {
    if advisor == "" {
      SelectCount(tasks, Counts(f, now));
      assert Places(tasks, Counts(f, now)) == Places(tasks, q);
    } else {
      forall t: Task
        ensures q(t) <==> t.householdId != "" && t.householdId in BookIds(hs, advisor) && Counts(f, now)(t)
      {
      }
      FilteredCount(hs, tasks, advisor, Counts(f, now), q);
    }
  }

  /** The four figures, for the firm or for one advisor. */
  lemma FiguresAre(hs: seq<Household>, tasks: seq<Task>, advisor: string, now: int)
    ensures HomeFigure(OverdueTasks, hs, tasks, advisor, now) == HowMany(tasks, LateIn(hs, advisor, now))
    ensures HomeFigure(OpenTasks, hs, tasks, advisor, now) == HowMany(tasks, OpenIn(hs, advisor))
    ensures HomeFigure(UnsignedEnvelopes, hs, tasks, advisor, now) == HowMany(tasks, UnsignedIn(hs, advisor))
    ensures HomeFigure(UpcomingMeetings, hs, tasks, advisor, now) == HowMany(tasks, RecentMeetingIn(hs, advisor, now))
  {
    FigureCounts(OverdueTasks, hs, tasks, advisor, now, LateIn(hs, advisor, now));
    FigureCounts(OpenTasks, hs, tasks, advisor, now, OpenIn(hs, advisor));
    FigureCounts(UnsignedEnvelopes, hs, tasks, advisor, now, UnsignedIn(hs, advisor));
    FigureCounts(UpcomingMeetings, hs, tasks, advisor, now, RecentMeetingIn(hs, advisor, now));
  }

  // ---- the triage queue ----

  /** The items are those of the first `n` tasks with the property, in order. */
  ghost predicate FirstOf(items: seq<TriageItem>, tasks: seq<Task>, p: Task -> bool, n: nat, u: Urgency, c: Category) {
    && |items| == (if HowMany(tasks, p) < n then HowMany(tasks, p) else n)
    && forall i :: 0 <= i < |tasks| && p(tasks[i]) && HowMany(tasks[..i], p) < n ==> IsItemAt(items, HowMany(tasks[..i], p), u, c, tasks[i].id)
  }

  predicate IsItemAt(items: seq<TriageItem>, k: nat, u: Urgency, c: Category, id: string) {
    k < |items| && items[k] == TriageItem(u, c, id)
  }

  lemma FirstItems(tasks: seq<Task>, p: Task -> bool, n: nat, u: Urgency, c: Category)
    ensures FirstOf(TaskItems(Take(Select(tasks, p), n), u, c), tasks, p, n, u, c)
  {
    SelectCount(tasks, p);
    forall i | 0 <= i < |tasks| && p(tasks[i]) && HowMany(tasks[..i], p) < n
      ensures IsItemAt(TaskItems(Take(Select(tasks, p), n), u, c), HowMany(tasks[..i], p), u, c, tasks[i].id)
    {
      SelectAt(tasks, p, i);
    }
  }

  function OverdueWith(high: bool, now: int): Task -> bool {
    (t: Task) => t.status != "Completed" && t.due.Some? && t.due.value < now && t.highPriority == high
  }

  /** Not started, and created at least so many whole days ago, a day being the least that is counted. */
  function LongUnsigned(days: int, now: int): Task -> bool {
    (t: Task) => t.status == "Not Started" && (Includes(t.subject, "SEND DOCU") || Includes(t.subject, "DocuSign"))
                 && (days <= 1 || (now - t.createdAt) / 86_400_000 >= days)
  }

  function DueWithin(days: int, now: int): Task -> bool {
    (t: Task) => t.status != "Completed" && t.due.Some? && now <= t.due.value <= now + days * 86_400_000
  }

  lemma FirstItemsOf(tasks: seq<Task>, p: Task -> bool, q: Task -> bool, n: nat, u: Urgency, c: Category)
    requires forall t :: p(t) <==> q(t)
    ensures FirstOf(TaskItems(Take(Select(tasks, p), n), u, c), tasks, q, n, u, c)
  {
    SameSelection(tasks, p, q);
    FirstItems(tasks, q, n, u, c);
  }

  lemma {:induction false} SameSelection(tasks: seq<Task>, p: Task -> bool, q: Task -> bool)
    requires forall t :: p(t) <==> q(t)
    ensures Select(tasks, p) == Select(tasks, q)
  {
    if tasks != [] {
      SameSelection(tasks[1..], p, q);
    }
  }

  /** The queue starts with these four groups: three urgent overdue tasks, two old envelopes, three other overdue tasks, two due soon. */
  lemma QueueStarts(hs: seq<Household>, tasks: seq<Task>, cfg: Config, now: int)
    returns (a: seq<TriageItem>, b: seq<TriageItem>, c: seq<TriageItem>, d: seq<TriageItem>)
    ensures Queue(hs, tasks, cfg, now) == a + b + (c + d) + ForThisWeek(hs, tasks, cfg, now)
    ensures FirstOf(a, tasks, OverdueWith(true, now), 3, Now, Overdue)
    ensures FirstOf(b, tasks, LongUnsigned(cfg.unsignedDocuSignDays, now), 2, Now, Unsigned)
    ensures FirstOf(c, tasks, OverdueWith(false, now), 3, Today, Overdue)
    ensures FirstOf(d, tasks, DueWithin(cfg.dueSoonDays, now), 2, Today, FollowUp)
  {
    var p := (t: Task) => IsOverdue(t, now) && t.highPriority;
    var q := (t: Task) => IsUnsigned(t) && DaysSince(t.createdAt, now) >= cfg.unsignedDocuSignDays;
    var r := (t: Task) => IsOverdue(t, now) && !t.highPriority;
    var s := (t: Task) => IsDueSoon(t, cfg, now);
    a := TaskItems(Take(Select(tasks, p), 3), Now, Overdue);
    b := TaskItems(Take(Select(tasks, q), 2), Now, Unsigned);
    c := TaskItems(Take(Select(tasks, r), 3), Today, Overdue);
    d := TaskItems(Take(Select(tasks, s), 2), Today, FollowUp);
    FirstItemsOf(tasks, p, OverdueWith(true, now), 3, Now, Overdue);
    FirstItemsOf(tasks, q, LongUnsigned(cfg.unsignedDocuSignDays, now), 2, Now, Unsigned);
    FirstItemsOf(tasks, r, OverdueWith(false, now), 3, Today, Overdue);
    FirstItemsOf(tasks, s, DueWithin(cfg.dueSoonDays, now), 2, Today, FollowUp);
  }

  // ---- households never reviewed ----

  predicate NeverReviewed(tasks: seq<Task>, h: Household) {
    forall i :: 0 <= i < |tasks| ==>
      !(Includes(tasks[i].subject, "COMPLIANCE REVIEW") && tasks[i].householdName == h.name && h.name != "")
  }

  predicate LongUnreviewed(tasks: seq<Task>, h: Household, days: int, now: int) {
    NeverReviewed(tasks, h) && (now - h.createdAt) / 86_400_000 >= days
  }

  lemma {:induction false} SelectHas<T>(xs: seq<T>, p: T -> bool, x: T)
    ensures x in Select(xs, p) <==> x in xs && p(x)
  {
    if xs != [] {
      SelectHas(xs[1..], p, x);
      assert xs == [xs[0]] + xs[1..];
    }
  }

  lemma SortHas(xs: seq<Household>, key: Household -> int, h: Household)
    ensures h in StableSort.Sort(xs, key) <==> h in xs
  {
    StableSort.SortIsPermutation(xs, key);
    assert h in xs <==> h in multiset(xs);
    assert h in StableSort.Sort(xs, key) <==> h in multiset(StableSort.Sort(xs, key));
  }

  lemma {:induction false} SelectAll<T>(xs: seq<T>, p: T -> bool)
    requires forall i :: 0 <= i < |xs| ==> p(xs[i])
    ensures Select(xs, p) == xs
  {
    if xs != [] {
      SelectAll(xs[1..], p);
      assert xs == [xs[0]] + xs[1..];
    }
  }

  /** Of a list sorted by age, the first two and then those old enough: either two, or all that are old enough. */
  lemma OldestTwo(sorted: seq<Household>, longEnough: Household -> bool, h: Household)
    requires forall i, j :: 0 <= i < j < |sorted| && longEnough(sorted[j]) ==> longEnough(sorted[i])
    requires h in sorted && longEnough(h)
    ensures var kept := Select(Take(sorted, 2), longEnough); |kept| == 2 || h in kept
  {
    var i :| 0 <= i < |sorted| && sorted[i] == h;
    if i < 2 {
      SelectHas(Take(sorted, 2), longEnough, h);
      assert h == Take(sorted, 2)[i];
    } else {
      SelectAll(Take(sorted, 2), longEnough);
    }
  }

  predicate IsGapItem(tasks: seq<Task>, days: int, now: int, h: Household, item: TriageItem) {
    LongUnreviewed(tasks, h, days, now) && item == TriageItem(ThisWeek, ComplianceGap, h.id)
  }

  lemma KeptSize(hs: seq<Household>, p: Household -> bool)
    ensures |Select(Take(hs, 2), p)| <= 2
  {
    SelectCount(Take(hs, 2), p);
    SetOfPlaces(Take(hs, 2), p);
  }

  lemma SetOfPlaces(hs: seq<Household>, p: Household -> bool)
    requires |hs| <= 2
    ensures HowMany(hs, p) <= 2
  {
    assert Places(hs, p) <= {0, 1};
    SmallSubset(Places(hs, p), {0, 1});
  }

  lemma SmallSubset(a: set<int>, b: set<int>)
    requires a <= b
    ensures |a| <= |b|
  {
    assert b == a + (b - a);
  }

  /**
   * The rest of the queue: at most two households that were never reviewed and are clients for long enough; and when there are
   * fewer than two, all of them.
   */
  lemma QueueEnds(hs: seq<Household>, tasks: seq<Task>, cfg: Config, now: int)
    ensures var items := ForThisWeek(hs, tasks, cfg, now);
            && |items| <= 2
            && (forall k :: 0 <= k < |items| ==> exists h :: h in hs && IsGapItem(tasks, cfg.complianceUnreviewedDays, now, h, items[k]))
            && (|items| < 2 ==> forall h :: h in hs && LongUnreviewed(tasks, h, cfg.complianceUnreviewedDays, now) ==>
                                  TriageItem(ThisWeek, ComplianceGap, h.id) in items)
  {
    var unreviewed := (h: Household) => !IsReviewed(tasks, h.name);
    var byAge := (h: Household) => h.createdAt;
    var longEnough := (h: Household) => (now - h.createdAt) / MS_DAY >= cfg.complianceUnreviewedDays;
    var sorted := StableSort.Sort(Select(hs, unreviewed), byAge);
    var kept := Select(Take(sorted, 2), longEnough);
    assert ForThisWeek(hs, tasks, cfg, now) == HouseholdItems(kept);
    KeptSize(sorted, longEnough);
    forall k | 0 <= k < |kept|
      ensures kept[k] in hs && LongUnreviewed(tasks, kept[k], cfg.complianceUnreviewedDays, now)
    {
      KeptIs(hs, tasks, sorted, unreviewed, byAge, longEnough, kept[k]);
    }
    SortedByAge(Select(hs, unreviewed), byAge, longEnough, sorted, cfg.complianceUnreviewedDays, now);
    forall h | |kept| < 2 && h in hs && LongUnreviewed(tasks, h, cfg.complianceUnreviewedDays, now)
      ensures TriageItem(ThisWeek, ComplianceGap, h.id) in HouseholdItems(kept)
    {
      SelectHas(hs, unreviewed, h);
      SortHas(Select(hs, unreviewed), byAge, h);
      OldestTwo(sorted, longEnough, h);
      var k :| 0 <= k < |kept| && kept[k] == h;
      assert HouseholdItems(kept)[k] == TriageItem(ThisWeek, ComplianceGap, h.id);
    }
  }

  lemma KeptIs(hs: seq<Household>, tasks: seq<Task>, sorted: seq<Household>, unreviewed: Household -> bool, byAge: Household -> int,
               longEnough: Household -> bool, h: Household)
    requires sorted == StableSort.Sort(Select(hs, unreviewed), byAge) && h in Select(Take(sorted, 2), longEnough)
    ensures h in hs && unreviewed(h) && longEnough(h)
  {
    SelectHas(Take(sorted, 2), longEnough, h);
    assert h in sorted;
    SortHas(Select(hs, unreviewed), byAge, h);
    SelectHas(hs, unreviewed, h);
  }

  lemma SortedByAge(xs: seq<Household>, byAge: Household -> int, longEnough: Household -> bool, sorted: seq<Household>, days: int, now: int)
    requires sorted == StableSort.Sort(xs, byAge)
    requires forall h :: byAge(h) == h.createdAt
    requires forall h :: longEnough(h) <==> (now - h.createdAt) / MS_DAY >= days
    ensures forall i, j :: 0 <= i < j < |sorted| && longEnough(sorted[j]) ==> longEnough(sorted[i])
  {
    StableSort.SortIsSorted(xs, byAge);
    forall i, j | 0 <= i < j < |sorted| && longEnough(sorted[j])
      ensures longEnough(sorted[i])
    {
      assert byAge(sorted[i]) <= byAge(sorted[j]);
      OlderIsLonger(sorted[i].createdAt, sorted[j].createdAt, now);
    }
  }

  lemma OlderIsLonger(a: int, b: int, now: int)
    requires a <= b
    ensures (now - b) / MS_DAY <= (now - a) / MS_DAY
  {
  }
}
