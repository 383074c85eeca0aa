/** Advisor assignment and the advisor scoreboard of the practice dashboard. */
module AdvisorScoreboard {
  import opened Text
  import opened PracticeTypes

  const KNOWN_ADVISORS: seq<string> := [
    "Jon Cambras", "Marcus Rivera", "Diane Rivera", "James Wilder", "Amy Sato", "Kevin Trịnh", "Michelle Osei"]

  const UNASSIGNED := "Unassigned"

  // ---- assignment ----

  function Owners(households: seq<Household>): set<string> {
    set i | 0 <= i < |households| && Truthy(households[i].advisorName) :: households[i].advisorName.value
  }

  datatype Assignment = Assignment(of: map<string, string>, roundRobin: nat)

  /** The choice for one household, with the round-robin counter moving only when it is used. */
  function AssignOne(a: Assignment, h: Household, hasRealOwnership: bool): Assignment {
    if hasRealOwnership && Truthy(h.advisorName) then a.(of := a.of[h.name := h.advisorName.value])
    else if h.described != "" then a.(of := a.of[h.name := h.described])
    else Assignment(a.of[h.name := KNOWN_ADVISORS[a.roundRobin % 7]], a.roundRobin + 1)
  }

  function Assigned(households: seq<Household>, hasRealOwnership: bool): Assignment {
    if households == [] then Assignment(map[], 0)
    else AssignOne(Assigned(households[..|households| - 1], hasRealOwnership), households[|households| - 1], hasRealOwnership)
  }

  method AssignDemoAdvisors(households: seq<Household>) returns (assignments: map<string, string>)
    ensures assignments == Assigned(households, |Owners(households)| > 1).of
  {
    var hasRealOwnership := |Owners(households)| > 1;
    assignments := map[];
    var rrIdx := 0;
    for i := 0 to |households|
      invariant Assignment(assignments, rrIdx) == Assigned(households[..i], hasRealOwnership)
    {
      assert households[..i + 1][..i] == households[..i];
      var h := households[i];
      if hasRealOwnership && Truthy(h.advisorName) {
        assignments := assignments[h.name := h.advisorName.value];
        continue;
      }
      if h.described != "" {
        assignments := assignments[h.name := h.described];
      } else {
        assignments := assignments[h.name := KNOWN_ADVISORS[rrIdx % 7]];
        rrIdx := rrIdx + 1;
      }
    }
    assert households[..|households|] == households;
  }

  /** Every household is assigned, and nothing else is. */
  lemma {:induction false} EveryHouseholdAssigned(households: seq<Household>, owned: bool)
    ensures forall name :: name in Assigned(households, owned).of <==> exists i :: 0 <= i < |households| && households[i].name == name
  {
    if households != [] {
      var n := |households| - 1;
      EveryHouseholdAssigned(households[..n], owned);
      forall name
        ensures name in Assigned(households, owned).of <==> exists i :: 0 <= i < |households| && households[i].name == name
      {
        if i :| 0 <= i < |households| && households[i].name == name {
          if i < n {
            assert households[..n][i].name == name;
          }
        }
        if i :| 0 <= i < n && households[..n][i].name == name {
          assert households[i].name == name;
        }
      }
    }
  }

  /** No household is assigned to nobody: the fallback in the code for an empty name is never needed. */
  lemma {:induction false} AssignedIsNotEmpty(households: seq<Household>, owned: bool, name: string)
    requires name in Assigned(households, owned).of
    ensures Assigned(households, owned).of[name] != ""
  {
    var n := |households| - 1;
    if name != households[n].name {
      AssignedIsNotEmpty(households[..n], owned, name);
    }
  }

  // ---- the scoreboard ----

  datatype AdvisorData = AdvisorData(
    households: set<string>,
    openTasks: nat,
    overdue: nat,
    unsigned: nat,
    reviewed: set<string>,
    meetings90: set<string>)

  const EMPTY := AdvisorData({}, 0, 0, 0, {}, {})

  predicate IsOverdue(t: Task, now: int) {
    t.due.Some? && t.due.value < now
  }

  predicate IsRecentMeeting(t: Task, now: int) {
    IsMeeting(t) && (now - t.createdAt) / MS_DAY <= 90
  }

  /** What one task adds to the record of its advisor. */
  function Tally(d: AdvisorData, t: Task, now: int): AdvisorData {
    AdvisorData(
      d.households,
      d.openTasks + Bit(!Completed(t)),
      d.overdue + Bit(!Completed(t) && IsOverdue(t, now)),
      d.unsigned + Bit(!Completed(t) && IsDocuSign(t)),
      if IsReview(t) then d.reviewed + {t.householdName} else d.reviewed,
      if IsRecentMeeting(t, now) then d.meetings90 + {t.householdName} else d.meetings90)
  }

  /** The direct lookup: the advisor a household name is assigned to. */
  function AdvisorOf(assign: map<string, string>, hhName: string): string {
    if hhName in assign then assign[hhName] else UNASSIGNED
  }

  function Book(assign: map<string, string>, advisor: string): set<string> {
    set name | name in assign && assign[name] == advisor
  }

  /** The record of an advisor after some tasks, each credited by the direct lookup. */
  function Tallied(tasks: seq<Task>, assign: map<string, string>, advisor: string, now: int): AdvisorData {
    if tasks == [] then EMPTY.(households := Book(assign, advisor)) else
    var t := tasks[|tasks| - 1];
    var before := Tallied(tasks[..|tasks| - 1], assign, advisor, now);
    if t.householdName != "" && AdvisorOf(assign, t.householdName) == advisor then Tally(before, t, now) else before
  }

  /** An insertion-ordered map of advisor records. */
  datatype Board = Board(order: seq<string>, data: map<string, AdvisorData>)

  ghost predicate ValidBoard(b: Board) {
    Distinct(b.order) && forall name :: name in b.data <==> name in b.order
  }

  function Ensure(b: Board, name: string): Board {
    if name in b.data then b else Board(b.order + [name], b.data[name := EMPTY])
  }

  /** Every advisor's households are the ones assigned so far. */
  predicate BooksAre(b: Board, assign: map<string, string>, names: set<string>) {
    (forall a :: a in b.data ==> b.data[a] == EMPTY.(households := set name | name in names && name in assign && assign[name] == a))
    && (forall name :: name in names && name in assign ==> assign[name] in b.data)
  }

  function EmptyBoard(order: seq<string>): (b: Board)
    ensures b.order == order && forall name :: name in b.data <==> name in order
    ensures forall name :: name in b.data ==> b.data[name] == EMPTY
  {
    Board(order, map name | name in order :: EMPTY)
  }

  lemma KnownAdvisorsDistinct()
    ensures Distinct(KNOWN_ADVISORS)
  {
    assert forall i :: 0 <= i < 7 ==> KNOWN_ADVISORS[i][..4] == ["Jon ", "Marc", "Dian", "Jame", "Amy ", "Kevi", "Mich"][i];
  }

  method FillBooks(households: seq<Household>, assign: map<string, string>) returns (b: Board)
    requires forall i :: 0 <= i < |households| ==> households[i].name in assign
    ensures ValidBoard(b) && BooksAre(b, assign, set i | 0 <= i < |households| :: households[i].name)
    ensures KNOWN_ADVISORS <= b.order
  {
    b := EmptyBoard(KNOWN_ADVISORS);
    KnownAdvisorsDistinct();
    for i := 0 to |households|
      invariant ValidBoard(b) && KNOWN_ADVISORS <= b.order
      invariant BooksAre(b, assign, set j | 0 <= j < i :: households[j].name)
    {
      b := AddHousehold(b, assign, households, i);
    }
  }

  method AddHousehold(b0: Board, assign: map<string, string>, households: seq<Household>, i: nat) returns (b: Board)
    requires i < |households| && households[i].name in assign
    requires ValidBoard(b0) && BooksAre(b0, assign, set j | 0 <= j < i :: households[j].name)
    ensures ValidBoard(b) && BooksAre(b, assign, set j | 0 <= j < i + 1 :: households[j].name)
    ensures b0.order <= b.order
  {
    var name := households[i].name;
    var adv := assign[name];
    b := Ensure(b0, adv);
    ghost var names := set j | 0 <= j < i :: households[j].name;
    assert (set j | 0 <= j < i + 1 :: households[j].name) == names + {name};
    if adv !in b0.data {
      assert (set n | n in names && n in assign && assign[n] == adv) == {};
    }
    b := b.(data := b.data[adv := b.data[adv].(households := b.data[adv].households + {name})]);
  }

  /** The scan over the map for the first advisor holding a household is the direct lookup. */
  method FindAdvisor(b: Board, assign: map<string, string>, hhName: string) returns (advName: string)
    requires ValidBoard(b) && forall a :: a in b.data ==> b.data[a].households == Book(assign, a)
    requires hhName in assign ==> assign[hhName] in b.data
    ensures advName == AdvisorOf(assign, hhName)
  {
    advName := UNASSIGNED;
    for i := 0 to |b.order|
      invariant forall j :: 0 <= j < i ==> hhName !in b.data[b.order[j]].households
    {
      if hhName in b.data[b.order[i]].households {
        return b.order[i];
      }
    }
  }

  /** Every record of the board is the tally of the tasks seen so far, and every advisor credited is on the board. */
  predicate TalliesAre(b: Board, tasks: seq<Task>, assign: map<string, string>, now: int) {
    (forall a :: a in b.data ==> b.data[a] == Tallied(tasks, assign, a, now))
    && (forall name :: name in assign ==> assign[name] in b.data)
    && (forall i :: 0 <= i < |tasks| && tasks[i].householdName != "" ==> AdvisorOf(assign, tasks[i].householdName) in b.data)
  }

  method TallyTasks(b0: Board, tasks: seq<Task>, assign: map<string, string>, now: int) returns (b: Board)
    requires ValidBoard(b0) && BooksAre(b0, assign, assign.Keys)
    ensures ValidBoard(b) && TalliesAre(b, tasks, assign, now)
    ensures b0.order <= b.order
  {
    b := b0;
    BooksAreTallies(b, assign, now);
    for i := 0 to |tasks|
      invariant ValidBoard(b) && TalliesAre(b, tasks[..i], assign, now) && b0.order <= b.order
    {
      assert tasks[..i + 1] == tasks[..i] + [tasks[i]];
      if tasks[i].householdName == "" {
        UnnamedTask(b, tasks[..i], tasks[i], assign, now);
        continue;
      }
      b := CreditTask(b, tasks[..i], tasks[i], assign, now);
    }
    assert tasks[..|tasks|] == tasks;
  }

  /** Books alone are the tallies of no tasks. */
  lemma BooksAreTallies(b: Board, assign: map<string, string>, now: int)
    requires ValidBoard(b) && BooksAre(b, assign, assign.Keys)
    ensures TalliesAre(b, [], assign, now)
  {
    forall a | a in b.data
      ensures b.data[a] == Tallied([], assign, a, now)
    {
      assert (set name | name in assign.Keys && name in assign && assign[name] == a) == Book(assign, a);
    }
  }

  lemma UnnamedTask(b: Board, before: seq<Task>, t: Task, assign: map<string, string>, now: int)
    requires TalliesAre(b, before, assign, now) && t.householdName == ""
    ensures TalliesAre(b, before + [t], assign, now)
  {
    assert (before + [t])[..|before|] == before;
  }

  /** Crediting one task to the advisor the scan finds. */
  method CreditTask(b0: Board, ghost before: seq<Task>, t: Task, assign: map<string, string>, now: int) returns (b: Board)
    requires ValidBoard(b0) && TalliesAre(b0, before, assign, now) && t.householdName != ""
    ensures ValidBoard(b) && TalliesAre(b, before + [t], assign, now) && b0.order <= b.order
  {
    BooksFromTallies(b0, before, assign, now);
    var advName := FindAdvisor(b0, assign, t.householdName);
    EnsureKeepsTallies(b0, before, assign, now, advName);
    var b1 := Ensure(b0, advName);
    b := b1.(data := b1.data[advName := Tally(b1.data[advName], t, now)]);
    CreditKeepsTallies(b1, before, t, assign, now);
  }

  lemma EnsureKeepsTallies(b: Board, tasks: seq<Task>, assign: map<string, string>, now: int, a: string)
    requires ValidBoard(b) && TalliesAre(b, tasks, assign, now)
    ensures ValidBoard(Ensure(b, a)) && TalliesAre(Ensure(b, a), tasks, assign, now)
    ensures b.order <= Ensure(b, a).order && a in Ensure(b, a).data
  {
    NewAdvisorIsFresh(b, tasks, assign, now, a);
  }

  lemma CreditKeepsTallies(b: Board, before: seq<Task>, t: Task, assign: map<string, string>, now: int)
    requires ValidBoard(b) && TalliesAre(b, before, assign, now) && t.householdName != ""
    requires AdvisorOf(assign, t.householdName) in b.data
    ensures var a := AdvisorOf(assign, t.householdName);
            TalliesAre(b.(data := b.data[a := Tally(b.data[a], t, now)]), before + [t], assign, now)
  {
    assert (before + [t])[..|before|] == before;
  }

  lemma {:induction false} TalliedBook(tasks: seq<Task>, assign: map<string, string>, a: string, now: int)
    ensures Tallied(tasks, assign, a, now).households == Book(assign, a)
  {
    if tasks != [] {
      TalliedBook(tasks[..|tasks| - 1], assign, a, now);
    }
  }

  lemma BooksFromTallies(b: Board, tasks: seq<Task>, assign: map<string, string>, now: int)
    requires TalliesAre(b, tasks, assign, now)
    ensures forall a :: a in b.data ==> b.data[a].households == Book(assign, a)
  {
    forall a | a in b.data
      ensures b.data[a].households == Book(assign, a)
    {
      TalliedBook(tasks, assign, a, now);
    }
  }

  /** An advisor not on the board yet has been credited with nothing and holds no household. */
  lemma NewAdvisorIsFresh(b: Board, tasks: seq<Task>, assign: map<string, string>, now: int, a: string)
    requires TalliesAre(b, tasks, assign, now)
    ensures a !in b.data ==> Tallied(tasks, assign, a, now) == EMPTY
  {
    if a !in b.data {
      assert Book(assign, a) == {};
      NothingCredited(tasks, assign, now, a);
    }
  }

  lemma {:induction false} NothingCredited(tasks: seq<Task>, assign: map<string, string>, now: int, a: string)
    requires forall i :: 0 <= i < |tasks| && tasks[i].householdName != "" ==> AdvisorOf(assign, tasks[i].householdName) != a
    ensures Tallied(tasks, assign, a, now) == EMPTY.(households := Book(assign, a))
  {
    if tasks != [] {
      NothingCredited(tasks[..|tasks| - 1], assign, now, a);
    }
  }

  /** The whole construction: assignment, books, tallies. */
  method BuildScoreboard(households: seq<Household>, tasks: seq<Task>, now: int) returns (b: Board)
    ensures ValidBoard(b) && TalliesAre(b, tasks, Assigned(households, |Owners(households)| > 1).of, now)
    ensures KNOWN_ADVISORS <= b.order
  {
    var assign := AssignDemoAdvisors(households);
    EveryHouseholdAssigned(households, |Owners(households)| > 1);
    b := FillBooks(households, assign);
    assert (set i | 0 <= i < |households| :: households[i].name) == assign.Keys;
    b := TallyTasks(b, tasks, assign, now);
  }

  // ---- conservation ----

  function HeldOnBoard(order: seq<string>, data: map<string, AdvisorData>): nat
    requires forall i :: 0 <= i < |order| ==> order[i] in data
  {
    if order == [] then 0 else |data[order[0]].households| + HeldOnBoard(order[1..], data)
  }

  /** The assigned households whose advisor is one of these. */
  function HeldBy(assign: map<string, string>, order: seq<string>): set<string> {
    set name | name in assign && assign[name] in order
  }

  lemma {:induction false} HeldCount(order: seq<string>, data: map<string, AdvisorData>, assign: map<string, string>)
    requires Distinct(order)
    requires forall i :: 0 <= i < |order| ==> order[i] in data && data[order[i]].households == Book(assign, order[i])
    ensures HeldOnBoard(order, data) == |HeldBy(assign, order)|
  {
    if order == [] {
      assert HeldBy(assign, order) == {};
    } else {
      assert order[0] in data && forall i :: 0 < i < |order| ==> order[i] == order[1..][i - 1];
      HeldCount(order[1..], data, assign);
      assert HeldBy(assign, order) == Book(assign, order[0]) + HeldBy(assign, order[1..]);
    }
  }

  /**
   * On the finished board every assigned household is held by its advisor and by no other, nothing else is held, and the
   * sizes of the books add up to the number of households.
   */
  lemma BooksPartition(b: Board, tasks: seq<Task>, assign: map<string, string>, now: int)
    requires ValidBoard(b) && TalliesAre(b, tasks, assign, now)
    ensures forall name, a :: a in b.data ==> (name in b.data[a].households <==> name in assign && assign[name] == a)
    ensures forall name :: name in assign ==> assign[name] in b.data
    ensures HeldOnBoard(b.order, b.data) == |assign|
  {
    BooksFromTallies(b, tasks, assign, now);
    HeldCount(b.order, b.data, assign);
    assert HeldBy(assign, b.order) == assign.Keys;
  }

  function OpenOnBoard(order: seq<string>, data: map<string, AdvisorData>): nat
    requires forall i :: 0 <= i < |order| ==> order[i] in data
  {
    if order == [] then 0 else data[order[0]].openTasks + OpenOnBoard(order[1..], data)
  }

  function OpenTallied(order: seq<string>, tasks: seq<Task>, assign: map<string, string>, now: int): nat {
    if order == [] then 0 else Tallied(tasks, assign, order[0], now).openTasks + OpenTallied(order[1..], tasks, assign, now)
  }

  function OpenNamed(tasks: seq<Task>): nat {
    if tasks == [] then 0 else
    var t := tasks[|tasks| - 1];
    OpenNamed(tasks[..|tasks| - 1]) + Bit(t.householdName != "" && !Completed(t))
  }

  lemma {:induction false} OneMoreOpen(order: seq<string>, tasks: seq<Task>, assign: map<string, string>, now: int)
    requires tasks != [] && Distinct(order)
    ensures var t := tasks[|tasks| - 1];
            OpenTallied(order, tasks, assign, now)
            == OpenTallied(order, tasks[..|tasks| - 1], assign, now)
               + Bit(t.householdName != "" && AdvisorOf(assign, t.householdName) in order && !Completed(t))
  {
    if order != [] {
      OneMoreOpen(order[1..], tasks, assign, now);
      assert forall i :: 0 < i < |order| ==> order[i] == order[1..][i - 1];
    }
  }

  lemma {:induction false} OpenTalliedSum(order: seq<string>, tasks: seq<Task>, assign: map<string, string>, now: int)
    requires Distinct(order)
    requires forall i :: 0 <= i < |tasks| && tasks[i].householdName != "" ==> AdvisorOf(assign, tasks[i].householdName) in order
    ensures OpenTallied(order, tasks, assign, now) == OpenNamed(tasks)
  {
    if tasks == [] {
      NoOpenInitially(order, assign, now);
    } else {
      OpenTalliedSum(order, tasks[..|tasks| - 1], assign, now);
      OneMoreOpen(order, tasks, assign, now);
    }
  }

  lemma {:induction false} NoOpenInitially(order: seq<string>, assign: map<string, string>, now: int)
    ensures OpenTallied(order, [], assign, now) == 0
  {
    if order != [] {
      NoOpenInitially(order[1..], assign, now);
    }
  }

  lemma {:induction false} BoardIsTallied(b: Board, order: seq<string>, tasks: seq<Task>, assign: map<string,
                                          string>, now: int)
    requires TalliesAre(b, tasks, assign, now) && forall i :: 0 <= i < |order| ==> order[i] in b.data
    ensures OpenOnBoard(order, b.data) == OpenTallied(order, tasks, assign, now)
  {
    if order != [] {
      assert order[0] in b.data;
      BoardIsTallied(b, order[1..], tasks, assign, now);
    }
  }

  /** No open task of a household is lost or counted twice: the advisors' counts add up to all of them. */
  lemma OpenTasksConserved(b: Board, tasks: seq<Task>, assign: map<string, string>, now: int)
    requires ValidBoard(b) && TalliesAre(b, tasks, assign, now)
    ensures OpenOnBoard(b.order, b.data) == OpenNamed(tasks)
  {
    BoardIsTallied(b, b.order, tasks, assign, now);
    OpenTalliedSum(b.order, tasks, assign, now);
  }

  // ---- scores ----

  function CompliancePct(d: AdvisorData): int {
    if |d.households| > 0 then Round(100 * |d.reviewed|, |d.households|) else 100
  }

  function Floor0(n: int): int {
    if n < 0 then 0 else n
  }

  /** The weighted score as an exact fraction: thirds of ten for compliance and overdue, fifths for the rest. */
  function Score(d: AdvisorData): int {
    var hh := if |d.households| > 0 then |d.households| else 1;
    var met := if |d.households| > 0 then |d.meetings90| else 1;
    var s := Round((3 * CompliancePct(d) + 3 * Floor0(100 - 20 * d.overdue) + 2 * Floor0(100 - 15 * d.unsigned)) * hh + 200 * met, 10 * hh);
    if s > 100 then 100 else s
  }

  lemma {:induction false} CreditedAreHeld(tasks: seq<Task>, assign: map<string, string>, a: string, now: int)
    requires a != UNASSIGNED
    ensures Tallied(tasks, assign, a, now).reviewed <= Book(assign, a)
    ensures Tallied(tasks, assign, a, now).meetings90 <= Book(assign, a)
  {
    if tasks != [] {
      CreditedAreHeld(tasks[..|tasks| - 1], assign, a, now);
    }
  }

  lemma SubsetCount(a: set<string>, b: set<string>)
    requires a <= b
    ensures |a| <= |b|
  {
    assert b == a + (b - a);
  }

  function AtLeastOne(n: nat): nat {
    if n > 0 then n else 1
  }

  /** The score is capped at 100 and none of its parts is negative, whatever the record. */
  lemma ScoreInRange(d: AdvisorData)
    ensures 0 <= Score(d) <= 100
  {
    var hh, met := AtLeastOne(|d.households|), if |d.households| > 0 then |d.meetings90| else 1;
    PercentageInRangeIff(d);
    var w := 3 * CompliancePct(d) + 3 * Floor0(100 - 20 * d.overdue) + 2 * Floor0(100 - 15 * d.unsigned);
    MulMono(0, w, hh);
    RoundNonNegative(w * hh + 200 * met, 10 * hh);
  }

  lemma RoundNonNegative(num: int, den: int)
    requires num >= 0 && den > 0
    ensures Round(num, den) >= 0
  {
  }

  lemma AtMostHundredIff(r: nat, h: nat)
    requires h > 0
    ensures Round(100 * r, h) >= 0
    ensures Round(100 * r, h) <= 100 <==> 200 * r < 201 * h
  {
    var q := Round(100 * r, h);
    RoundIs(100 * r, h);
    if q <= 100 {
      MulMono(q + 1, 101, 2 * h);
    } else {
      MulMono(101, q, 2 * h);
    }
  }

  lemma PercentageInRangeIff(d: AdvisorData)
    ensures CompliancePct(d) >= 0
    ensures CompliancePct(d) <= 100 <==> |d.households| == 0 || 200 * |d.reviewed| < 201 * |d.households|
  {
    if |d.households| > 0 {
      AtMostHundredIff(|d.reviewed|, |d.households|);
    }
  }

  /** The names of the reviewed tasks that the direct lookup credits to an advisor. */
  function ReviewedFor(tasks: seq<Task>, assign: map<string, string>, a: string): set<string> {
    set i | 0 <= i < |tasks| && IsReview(tasks[i]) && tasks[i].householdName != "" && AdvisorOf(assign, tasks[i].householdName) == a
          :: tasks[i].householdName
  }

  lemma {:induction false} TalliedReviews(tasks: seq<Task>, assign: map<string, string>, a: string, now: int)
    ensures Tallied(tasks, assign, a, now).reviewed == ReviewedFor(tasks, assign, a)
  {
    if tasks != [] {
      var n := |tasks| - 1;
      TalliedReviews(tasks[..n], assign, a, now);
      var one := if IsReview(tasks[n]) && tasks[n].householdName != "" && AdvisorOf(assign, tasks[n].householdName) == a
                 then {tasks[n].householdName} else {};
      assert ReviewedFor(tasks, assign, a) == ReviewedFor(tasks[..n], assign, a) + one by {
        assert forall i :: 0 <= i < n ==> tasks[..n][i] == tasks[i];
      }
    }
  }

  /**
   * The compliance percentage of an advisor lies in 0..100 if and only if the advisor has no households or the distinct
   * names of the reviews credited to it are fewer than 1.005 times its households.
   */
  lemma PercentageIff(tasks: seq<Task>, assign: map<string, string>, a: string, now: int)
    ensures 0 <= CompliancePct(Tallied(tasks, assign, a, now)) <= 100 <==>
            Book(assign, a) == {} || 200 * |ReviewedFor(tasks, assign, a)| < 201 * |Book(assign, a)|
  {
    TalliedBook(tasks, assign, a, now);
    TalliedReviews(tasks, assign, a, now);
    PercentageInRangeIff(Tallied(tasks, assign, a, now));
    assert |Book(assign, a)| == 0 <==> Book(assign, a) == {};
  }

  /** Every score lies in 0..100, and so does the percentage of every advisor but "Unassigned". */
  lemma ScoresInRange(tasks: seq<Task>, assign: map<string, string>, a: string, now: int)
    ensures 0 <= Score(Tallied(tasks, assign, a, now)) <= 100
    ensures a != UNASSIGNED ==> 0 <= CompliancePct(Tallied(tasks, assign, a, now)) <= 100
  {
    ScoreInRange(Tallied(tasks, assign, a, now));
    if a != UNASSIGNED {
      TalliedReviews(tasks, assign, a, now);
      CreditedAreHeld(tasks, assign, a, now);
      SubsetCount(ReviewedFor(tasks, assign, a), Book(assign, a));
      PercentageIff(tasks, assign, a, now);
    }
  }

  lemma OneAssigned(h: Household)
    requires h.advisorName.None? && h.described != ""
    ensures Assigned([h], false).of == map[h.name := h.described]
  {
    assert [h][..0] == [];
    assert Assigned([], false) == Assignment(map[], 0);
  }

  /**
   * One household whose description names the advisor "Unassigned", and the reviews of it and of a name that is no
   * household: the percentage passes 100.
   */
  lemma UnassignedCanExceed(review: string, id: string, now: int)
    requires Includes(review, "COMPLIANCE REVIEW")
    ensures var households := [Household(id, "A", None, UNASSIGNED, None, 0)];
            var tasks := [Task(id, review, "Completed", false, 0, None, "A", ""), Task(id, review, "Completed", false, 0, None, "B", "")];
            var assign := Assigned(households, |Owners(households)| > 1).of;
            CompliancePct(Tallied(tasks, assign, UNASSIGNED, now)) > 100
  {
    var households := [Household(id, "A", None, UNASSIGNED, None, 0)];
    var tasks := [Task(id, review, "Completed", false, 0, None, "A", ""), Task(id, review, "Completed", false, 0, None, "B", "")];
    assert Owners(households) == {};
    OneAssigned(households[0]);
    var assign := map["A" := UNASSIGNED];
    assert Book(assign, UNASSIGNED) == {"A"};
    assert tasks[0].householdName in ReviewedFor(tasks, assign, UNASSIGNED);
    assert tasks[1].householdName in ReviewedFor(tasks, assign, UNASSIGNED);
    SubsetCount({"A", "B"}, ReviewedFor(tasks, assign, UNASSIGNED));
    PercentageIff(tasks, assign, UNASSIGNED, now);
    PercentageInRangeIff(Tallied(tasks, assign, UNASSIGNED, now));
  }
}
