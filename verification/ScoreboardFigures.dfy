/** Where the figures of the advisor scoreboard come from: who is assigned to whom, what is counted, and what a score weighs. */
module ScoreboardFigures {
  import opened Text
  import opened PracticeTypes
  import opened AdvisorScoreboard

  // ---- assignment ----

  /** Two households name different advisors as their owners. */
  predicate TwoOwners(hs: seq<Household>) {
    exists i, j :: 0 <= i < |hs| && 0 <= j < |hs| && Truthy(hs[i].advisorName) && Truthy(hs[j].advisorName)
                   && hs[i].advisorName != hs[j].advisorName
  }

  lemma OwnersDiffer(hs: seq<Household>)
    ensures |Owners(hs)| > 1 <==> TwoOwners(hs)
  {
    if TwoOwners(hs) {
      var i, j :| 0 <= i < |hs| && 0 <= j < |hs| && Truthy(hs[i].advisorName) && Truthy(hs[j].advisorName)
                  && hs[i].advisorName != hs[j].advisorName;
      SubsetCount({hs[i].advisorName.value, hs[j].advisorName.value}, Owners(hs));
    }
    if |Owners(hs)| > 1 {
      var a :| a in Owners(hs);
      OneLess(Owners(hs), a);
      var b :| b in Owners(hs) - {a};
      var i :| 0 <= i < |hs| && Truthy(hs[i].advisorName) && hs[i].advisorName.value == a;
      var j :| 0 <= j < |hs| && Truthy(hs[j].advisorName) && hs[j].advisorName.value == b;
    }
  }

  lemma OneLess(s: set<string>, a: string)
    requires a in s && |s| > 1
    ensures s - {a} != {}
  {
    assert s == (s - {a}) + {a};
  }

  /** A household whose advisor has to be made up: no owner that counts, and none in its description. */
  function IsMadeUp(owned: bool): Household -> bool {
    (h: Household) => !(owned && Truthy(h.advisorName)) && h.described == ""
  }

  lemma {:induction false} RoundRobinIs(hs: seq<Household>, owned: bool)
    ensures Assigned(hs, owned).roundRobin == HowMany(hs, IsMadeUp(owned))
  {
    if hs != [] {
      RoundRobinIs(hs[..|hs| - 1], owned);
      OneMorePlace(hs, IsMadeUp(owned));
    }
  }

  lemma {:induction false} LastOfName(hs: seq<Household>, owned: bool, k: nat)
    requires k < |hs| && forall j :: k < j < |hs| ==> hs[j].name != hs[k].name
    ensures var a, b := Assigned(hs, owned).of, Assigned(hs[..k + 1], owned).of;
            hs[k].name in a && hs[k].name in b && a[hs[k].name] == b[hs[k].name]
  {
    var n := |hs| - 1;
    if k == n {
      assert hs[..k + 1] == hs;
    } else {
      LastOfName(hs[..n], owned, k);
      assert hs[..n][..k + 1] == hs[..k + 1];
    }
  }

  function KnownAdvisor(i: nat): string
    requires i < 7
  {
    match i
    case 0 => "Jon Cambras"
    case 1 => "Marcus Rivera"
    case 2 => "Diane Rivera"
    case 3 => "James Wilder"
    case 4 => "Amy Sato"
    case 5 => "Kevin Trịnh"
    case _ => "Michelle Osei"
  }

  /** The owner, when owners count; or else the advisor in the description; or else the known advisor whose turn it is. */
  predicate IsAdvisorOf(name: string, h: Household, owned: bool, turn: nat) {
    name == if owned && Truthy(h.advisorName) then h.advisorName.value
            else if h.described != "" then h.described
            else KnownAdvisor(turn % 7)
  }

  lemma ChosenAdvisor(a: Assignment, h: Household, owned: bool)
    ensures h.name in AssignOne(a, h, owned).of && IsAdvisorOf(AssignOne(a, h, owned).of[h.name], h, owned, a.roundRobin)
  {
  }

  lemma AssignedStep(hs: seq<Household>, owned: bool, k: nat)
    requires k < |hs|
    ensures Assigned(hs[..k + 1], owned) == AssignOne(Assigned(hs[..k], owned), hs[k], owned)
  {
    assert hs[..k + 1][..k] == hs[..k];
  }

  /**
   * The advisor of a household name is chosen by the last household with that name. Owners count when two different ones occur;
   * the seven known advisors take turns, one turn for each household before it that needed one.
   */
  lemma AdvisorAssigned(hs: seq<Household>, k: nat)
    requires k < |hs| && forall j :: k < j < |hs| ==> hs[j].name != hs[k].name
    ensures var owned, assign := TwoOwners(hs), Assigned(hs, |Owners(hs)| > 1).of;
            && hs[k].name in assign
            && IsAdvisorOf(assign[hs[k].name], hs[k], owned, HowMany(hs[..k], IsMadeUp(owned)))
  {
    OwnersDiffer(hs);
    var owned := TwoOwners(hs);
    LastOfName(hs, owned, k);
    RoundRobinIs(hs[..k], owned);
    AssignedStep(hs, owned, k);
    ChosenAdvisor(Assigned(hs[..k], owned), hs[k], owned);
  }

  // ---- what is counted ----

  /** The advisor a task is credited to. */
  predicate CreditedTo(t: Task, assign: map<string, string>, a: string) {
    t.householdName != "" && a == if t.householdName in assign then assign[t.householdName] else "Unassigned"
  }

  function OpenFor(assign: map<string, string>, a: string): Task -> bool {
    (t: Task) => CreditedTo(t, assign, a) && t.status != "Completed"
  }

  function OverdueFor(assign: map<string, string>, a: string, now: int): Task -> bool {
    (t: Task) => CreditedTo(t, assign, a) && t.status != "Completed" && t.due.Some? && t.due.value < now
  }

  function UnsignedFor(assign: map<string, string>, a: string): Task -> bool {
    (t: Task) => CreditedTo(t, assign, a) && t.status != "Completed"
                 && (Includes(t.subject, "SEND DOCU") || Includes(t.subject, "DocuSign"))
  }

  /** Open tasks, overdue tasks and unsigned envelopes are counted for the advisor they are credited to. */
  lemma {:induction false} TalliedCounts(tasks: seq<Task>, assign: map<string, string>, a: string, now: int)
    ensures var d := Tallied(tasks, assign, a, now);
            && d.openTasks == HowMany(tasks, OpenFor(assign, a))
            && d.overdue == HowMany(tasks, OverdueFor(assign, a, now))
            && d.unsigned == HowMany(tasks, UnsignedFor(assign, a))
  {
    if tasks != [] {
      TalliedCounts(tasks[..|tasks| - 1], assign, a, now);
      OneMorePlace(tasks, OpenFor(assign, a));
      OneMorePlace(tasks, OverdueFor(assign, a, now));
      OneMorePlace(tasks, UnsignedFor(assign, a));
    }
  }

  /** The household has a review, or a meeting in the last ninety days, credited to the advisor. */
  predicate ReviewedBy(tasks: seq<Task>, assign: map<string, string>, a: string, name: string) {
    exists i :: 0 <= i < |tasks| && CreditedTo(tasks[i], assign, a) && tasks[i].householdName == name
                && Includes(tasks[i].subject, "COMPLIANCE REVIEW")
  }

  predicate MetBy(tasks: seq<Task>, assign: map<string, string>, a: string, now: int, name: string) {
    exists i :: 0 <= i < |tasks| && CreditedTo(tasks[i], assign, a) && tasks[i].householdName == name
                && Includes(tasks[i].subject, "MEETING NOTE") && (now - tasks[i].createdAt) / 86_400_000 <= 90
  }

  lemma OneMoreReviewed(tasks: seq<Task>, assign: map<string, string>, a: string, name: string)
    requires tasks != []
    ensures var n := |tasks| - 1;
            ReviewedBy(tasks, assign, a, name) <==>
            ReviewedBy(tasks[..n], assign, a, name) ||
            (CreditedTo(tasks[n], assign, a) && tasks[n].householdName == name && Includes(tasks[n].subject, "COMPLIANCE REVIEW"))
  {
    assert forall i :: 0 <= i < |tasks| - 1 ==> tasks[..|tasks| - 1][i] == tasks[i];
  }

  lemma OneMoreMet(tasks: seq<Task>, assign: map<string, string>, a: string, now: int, name: string)
    requires tasks != []
    ensures var n := |tasks| - 1;
            MetBy(tasks, assign, a, now, name) <==>
            MetBy(tasks[..n], assign, a, now, name) ||
            (CreditedTo(tasks[n], assign, a) && tasks[n].householdName == name
             && Includes(tasks[n].subject, "MEETING NOTE") && (now - tasks[n].createdAt) / 86_400_000 <= 90)
  {
    assert forall i :: 0 <= i < |tasks| - 1 ==> tasks[..|tasks| - 1][i] == tasks[i];
  }

  /** The names reviewed, and those met in the last ninety days, are those of the tasks credited to the advisor. */
  lemma {:induction false} TalliedNames(tasks: seq<Task>, assign: map<string, string>, a: string, now: int, name: string)
    ensures var d := Tallied(tasks, assign, a, now);
            && (name in d.reviewed <==> ReviewedBy(tasks, assign, a, name))
            && (name in d.meetings90 <==> MetBy(tasks, assign, a, now, name))
  {
    if tasks != [] {
      TalliedNames(tasks[..|tasks| - 1], assign, a, now, name);
      OneMoreReviewed(tasks, assign, a, name);
      OneMoreMet(tasks, assign, a, now, name);
    }
  }

  // ---- what a score weighs ----

  lemma RoundExact(q: int, den: int)
    requires den > 0
    ensures Round(q * den, den) == q
  {
    RoundBounds(q * den, den, q, q);
  }

  /** What is left of the points for overdue tasks, six lost for each, and for unsigned envelopes, three lost for each. */
  function OverduePoints(n: nat): nat {
    if n < 5 then 30 - 6 * n else 0
  }

  function UnsignedPoints(n: nat): nat {
    if n < 7 then 20 - 3 * n else 0
  }

  lemma Weighing(w: int, q: int, m: int, hh: int)
    requires w == 10 * (q - 20 * m)
    ensures w * hh + 200 * (hh * m) == q * (10 * hh)
  {
    calc {
      w * hh + 200 * (hh * m);
      (10 * q - 200 * m) * hh + 200 * (m * hh);
      10 * q * hh - 200 * m * hh + 200 * m * hh;
      q * (10 * hh);
    }
  }

  lemma PartsAre(overdue: nat, unsigned: nat)
    ensures 3 * Floor0(100 - 20 * overdue) == 10 * OverduePoints(overdue)
    ensures 2 * Floor0(100 - 15 * unsigned) == 10 * UnsignedPoints(unsigned)
  {
  }

  /** A score when every household was reviewed or none, and every household was met or none. */
  lemma ScoreOf(d: AdvisorData, reviewed: bool, met: bool)
    requires var hh := |d.households|; hh > 0 && |d.reviewed| == hh * Bit(reviewed) && |d.meetings90| == hh * Bit(met)
    ensures Score(d) == 30 * Bit(reviewed) + OverduePoints(d.overdue) + UnsignedPoints(d.unsigned) + 20 * Bit(met)
  {
    var hh := |d.households|;
    var w := 3 * CompliancePct(d) + 3 * Floor0(100 - 20 * d.overdue) + 2 * Floor0(100 - 15 * d.unsigned);
    var q := 30 * Bit(reviewed) + OverduePoints(d.overdue) + UnsignedPoints(d.unsigned) + 20 * Bit(met);
    RoundExact(100 * Bit(reviewed), hh);
    assert CompliancePct(d) == 100 * Bit(reviewed);
    PartsAre(d.overdue, d.unsigned);
    Weighing(w, q, Bit(met), hh);
    RoundExact(q, 10 * hh);
  }
}
