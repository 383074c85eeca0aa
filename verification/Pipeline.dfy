/** The onboarding pipeline: every household in one stage, stages that only move forward, and conversion rates. */
module Pipeline {
  import opened Text
  import opened PracticeTypes

  // ---- what the tasks say about a household ----

  datatype Flags = Flags(hasCompliance: bool, hasDocuSent: bool, hasDocuSigned: bool, hasMeeting: bool)

  const NO_FLAGS := Flags(false, false, false, false)

  predicate Concerns(t: Task, name: string) {
    t.householdName == name && name != ""
  }

  function Evidence(t: Task): Flags {
    Flags(IsReview(t), IsDocuSign(t), IsDocuSign(t) && Completed(t), IsMeeting(t))
  }

  function Either(a: Flags, b: Flags): Flags {
    Flags(a.hasCompliance || b.hasCompliance, a.hasDocuSent || b.hasDocuSent, a.hasDocuSigned || b.hasDocuSigned,
          a.hasMeeting || b.hasMeeting)
  }

  /** The evidence of all tasks that concern a household, in any order. */
  function FlagsOf(tasks: seq<Task>, name: string): Flags {
    Flags(
      exists i :: 0 <= i < |tasks| && Concerns(tasks[i], name) && Evidence(tasks[i]).hasCompliance,
      exists i :: 0 <= i < |tasks| && Concerns(tasks[i], name) && Evidence(tasks[i]).hasDocuSent,
      exists i :: 0 <= i < |tasks| && Concerns(tasks[i], name) && Evidence(tasks[i]).hasDocuSigned,
      exists i :: 0 <= i < |tasks| && Concerns(tasks[i], name) && Evidence(tasks[i]).hasMeeting)
  }

  function StageOf(f: Flags): (k: nat)
    ensures k < 5
  {
    if f.hasCompliance && f.hasDocuSigned && f.hasMeeting then 4
    else if f.hasCompliance then 3
    else if f.hasDocuSigned then 2
    else if f.hasDocuSent then 1
    else 0
  }

  function Stage(tasks: seq<Task>, name: string): nat {
    StageOf(FlagsOf(tasks, name))
  }

  // ---- the loops ----

  function Names(households: seq<Household>): seq<string> {
    if households == [] then [] else
    var n := |households| - 1;
    var init := Names(households[..n]);
    if households[n].name in init then init else init + [households[n].name]
  }

  lemma {:induction false} NamesAreDistinct(households: seq<Household>)
    ensures Distinct(Names(households))
  {
    if households != [] {
      NamesAreDistinct(households[..|households| - 1]);
    }
  }

  lemma {:induction false} NamesAreAll(households: seq<Household>, name: string)
    ensures name in Names(households) <==> exists i :: 0 <= i < |households| && households[i].name == name
  {
    if households != [] {
      var n := |households| - 1;
      NamesAreAll(households[..n], name);
      assert households[n].name == name ==> name in Names(households);
      if i :| 0 <= i < n && households[i].name == name {
        assert households[..n][i].name == name;
      }
      if i :| 0 <= i < n && households[..n][i].name == name {
        assert households[i].name == name;
      }
    }
  }

  method CollectFlags(names: seq<string>, tasks: seq<Task>) returns (flags: map<string, Flags>)
    ensures flags.Keys == (set i | 0 <= i < |names| :: names[i])
    ensures forall name :: name in flags ==> flags[name] == FlagsOf(tasks, name)
  {
    flags := map i | 0 <= i < |names| :: names[i] := NO_FLAGS;
    for i := 0 to |tasks|
      invariant flags.Keys == (set i | 0 <= i < |names| :: names[i])
      invariant forall name :: name in flags ==> flags[name] == FlagsOf(tasks[..i], name)
    {
      var t := tasks[i];
      ghost var before := flags;
      if t.householdName != "" && t.householdName in flags {
        flags := flags[t.householdName := Either(flags[t.householdName], Evidence(t))];
      }
      forall name | name in flags
        ensures flags[name] == FlagsOf(tasks[..i + 1], name)
      {
        OneMoreTask(tasks, i, name);
        assert flags[name] == if Concerns(t, name) then Either(before[name], Evidence(t)) else before[name];
      }
    }
    assert tasks[..|tasks|] == tasks;
  }

  lemma OneMoreTask(tasks: seq<Task>, i: nat, name: string)
    requires i < |tasks|
    ensures FlagsOf(tasks[..i + 1], name)
         == if Concerns(tasks[i], name) then Either(FlagsOf(tasks[..i], name), Evidence(tasks[i])) else FlagsOf(tasks[..i], name)
  {
    var a, b := tasks[..i], tasks[..i + 1];
    assert b == a + [tasks[i]];
    assert forall j :: 0 <= j < i ==> b[j] == a[j];
    assert b[i] == tasks[i];
  }

  function AtStage(names: seq<string>, tasks: seq<Task>, k: nat): seq<string> {
    if names == [] then [] else
    var n := |names| - 1;
    if Stage(tasks, names[n]) == k then AtStage(names[..n], tasks, k) + [names[n]] else AtStage(names[..n], tasks, k)
  }

  ghost predicate StagesAre(stages: seq<seq<string>>, names: seq<string>, tasks: seq<Task>) {
    |stages| == 5 && forall k :: 0 <= k < 5 ==> stages[k] == AtStage(names, tasks, k)
  }

  lemma OneMoreName(stages: seq<seq<string>>, names: seq<string>, tasks: seq<Task>, name: string)
    requires StagesAre(stages, names, tasks)
    ensures var s := Stage(tasks, name); StagesAre(stages[s := stages[s] + [name]], names + [name], tasks)
  {
    assert (names + [name])[..|names|] == names;
  }

  /** The stages as lists of household names, in the order the households were first seen. */
  method BuildStages(households: seq<Household>, tasks: seq<Task>) returns (stages: seq<seq<string>>)
    ensures |stages| == 5 && forall k :: 0 <= k < 5 ==> stages[k] == AtStage(Names(households), tasks, k)
  {
    var names := Names(households);
    var flags := CollectFlags(names, tasks);
    stages := [[], [], [], [], []];
    for i := 0 to |names|
      invariant StagesAre(stages, names[..i], tasks)
    {
      assert names[..i + 1] == names[..i] + [names[i]];
      stages := PlaceName(stages, names[..i], tasks, names[i], flags[names[i]]);
    }
    assert names[..|names|] == names;
  }

  /** One turn of the loop: the name goes to the end of the list of its stage. */
  method PlaceName(stages0: seq<seq<string>>, ghost names: seq<string>, ghost tasks: seq<Task>, name: string, f: Flags)
    returns (stages: seq<seq<string>>)
    requires StagesAre(stages0, names, tasks) && StageOf(f) == Stage(tasks, name)
    ensures StagesAre(stages, names + [name], tasks)
  {
    OneMoreName(stages0, names, tasks, name);
    var s := StageOf(f);
    stages := stages0[s := stages0[s] + [name]];
  }

  function Total(names: seq<string>): nat {
    if |names| == 0 then 1 else |names|
  }

  /** How many households are past stage `k`. */
  function Beyond(names: seq<string>, tasks: seq<Task>, k: nat): nat
    decreases 4 - k
  {
    if k >= 4 then 0 else |AtStage(names, tasks, k + 1)| + Beyond(names, tasks, k + 1)
  }

  function Rate(names: seq<string>, tasks: seq<Task>, k: nat): int {
    Round(100 * Beyond(names, tasks, k), Total(names))
  }

  method ConversionRates(households: seq<Household>, tasks: seq<Task>) returns (rates: seq<int>)
    ensures |rates| == 4 && forall k :: 0 <= k < 4 ==> rates[k] == Rate(Names(households), tasks, k)
  {
    var stages := BuildStages(households, tasks);
    var totalHH := Total(Names(households));
    var beyond3 := |stages[4]|;
    var beyond2 := |stages[3]| + beyond3;
    var beyond1 := |stages[2]| + beyond2;
    var beyond0 := |stages[1]| + beyond1;
    rates := RatesOf([beyond0, beyond1, beyond2, beyond3], totalHH);
  }

  method RatesOf(beyond: seq<nat>, totalHH: nat) returns (rates: seq<int>)
    requires totalHH > 0
    ensures |rates| == |beyond| && forall k :: 0 <= k < |beyond| ==> rates[k] == Round(100 * beyond[k], totalHH)
  {
    rates := seq(|beyond|, k requires 0 <= k < |beyond| => Round(100 * beyond[k], totalHH));
  }

  // ---- what the stages mean ----

  /** Some task of the household has this text in its subject. */
  predicate HasTaskSaying(tasks: seq<Task>, name: string, text: string) {
    exists i :: 0 <= i < |tasks| && name != "" && tasks[i].householdName == name && Includes(tasks[i].subject, text)
  }

  /** An envelope was sent, or, when it has to be completed, signed. */
  predicate HasEnvelope(tasks: seq<Task>, name: string, signed: bool) {
    exists i :: 0 <= i < |tasks| && name != "" && tasks[i].householdName == name
                && (Includes(tasks[i].subject, "SEND DOCU") || Includes(tasks[i].subject, "DocuSign"))
                && (signed ==> tasks[i].status == "Completed")
  }

  /**
   * The stage of a household, told from the subjects and states of its tasks: reviewed, signed and met; or only reviewed; or
   * only signed; or only sent; or none of these.
   */
  lemma StageMeans(tasks: seq<Task>, name: string)
    ensures var reviewed, met := HasTaskSaying(tasks, name, "COMPLIANCE REVIEW"), HasTaskSaying(tasks, name, "MEETING NOTE");
            var sent, signed := HasEnvelope(tasks, name, false), HasEnvelope(tasks, name, true);
            && (Stage(tasks, name) == 4 <==> reviewed && signed && met)
            && (Stage(tasks, name) == 3 <==> reviewed && !(signed && met))
            && (Stage(tasks, name) == 2 <==> !reviewed && signed)
            && (Stage(tasks, name) == 1 <==> !reviewed && !signed && sent)
            && (Stage(tasks, name) == 0 <==> !reviewed && !sent)
  {
    FlagMeans(tasks, name);
  }

  lemma FlagMeans(tasks: seq<Task>, name: string)
    ensures FlagsOf(tasks, name) ==
            Flags(HasTaskSaying(tasks, name, "COMPLIANCE REVIEW"), HasEnvelope(tasks, name, false), HasEnvelope(tasks, name, true),
                  HasTaskSaying(tasks, name, "MEETING NOTE"))
  {
  }

  lemma {:induction false} BeyondStep(names: seq<string>, tasks: seq<Task>, k: nat)
    requires names != [] && k <= 4
    ensures Beyond(names, tasks, k) == Beyond(names[..|names| - 1], tasks, k) + Bit(Stage(tasks, names[|names| - 1]) > k)
    decreases 4 - k
  {
    if k < 4 {
      BeyondStep(names, tasks, k + 1);
    }
  }

  /** A conversion rate is the share of the names that are past the stage. */
  lemma {:induction false} BeyondIs(names: seq<string>, tasks: seq<Task>, k: nat)
    requires k <= 4
    ensures Beyond(names, tasks, k) == HowMany(names, (name: string) => Stage(tasks, name) > k)
  {
    if names == [] {
      NobodyBeyond(tasks, k);
    } else {
      BeyondIs(names[..|names| - 1], tasks, k);
      BeyondStep(names, tasks, k);
      OneMorePlace(names, (name: string) => Stage(tasks, name) > k);
    }
  }

  lemma {:induction false} NobodyBeyond(tasks: seq<Task>, k: nat)
    requires k <= 4
    ensures Beyond([], tasks, k) == 0
    decreases 4 - k
  {
    if k < 4 {
      NobodyBeyond(tasks, k + 1);
    }
  }

  /** A conversion rate is the whole percentage nearest to the share of the names past the stage, halves going up. */
  lemma RateIs(names: seq<string>, tasks: seq<Task>, k: nat)
    requires names != [] && k < 4
    ensures var r, past := Rate(names, tasks, k), HowMany(names, (name: string) => Stage(tasks, name) > k);
            (2 * r - 1) * |names| <= 200 * past < (2 * r + 1) * |names|
  {
    BeyondIs(names, tasks, k);
    NearestPercent(Beyond(names, tasks, k), |names|);
  }

  lemma NearestPercent(part: nat, whole: nat)
    requires whole > 0
    ensures var r := Round(100 * part, whole); (2 * r - 1) * whole <= 200 * part < (2 * r + 1) * whole
  {
    var r := Round(100 * part, whole);
    RoundIs(100 * part, whole);
    assert r * (2 * whole) == 2 * r * whole && (r + 1) * (2 * whole) == 2 * r * whole + 2 * whole;
  }

  // ---- properties ----

  lemma {:induction false} InExactlyOneStage(names: seq<string>, tasks: seq<Task>, name: string, k: nat)
    ensures name in AtStage(names, tasks, k) <==> name in names && Stage(tasks, name) == k
  {
    if names != [] {
      var n := |names| - 1;
      InExactlyOneStage(names[..n], tasks, name, k);
      assert names == names[..n] + [names[n]];
    }
  }

  lemma {:induction false} StageCountsSum(names: seq<string>, tasks: seq<Task>)
    ensures |AtStage(names, tasks, 0)| + Beyond(names, tasks, 0) == |names|
  {
    if names != [] {
      StageCountsSum(names[..|names| - 1], tasks);
    }
  }

  lemma {:induction false} StageIsDistinct(names: seq<string>, tasks: seq<Task>, k: nat)
    requires Distinct(names)
    ensures Distinct(AtStage(names, tasks, k))
  {
    if names != [] {
      var n := |names| - 1;
      StageIsDistinct(names[..n], tasks, k);
      InExactlyOneStage(names[..n], tasks, names[n], k);
      assert names[n] !in names[..n];
    }
  }

  /** The list holds each household name once and nothing else. */
  ghost predicate ListsHouseholds(ns: seq<string>, households: seq<Household>) {
    && Distinct(ns)
    && (forall name :: name in ns <==> exists i :: 0 <= i < |households| && households[i].name == name)
  }

  /** Each name is in the list of its own stage, once, and in no other; the stage counts add up to the number of names. */
  ghost predicate StagesPartition(ns: seq<string>, tasks: seq<Task>) {
    && (forall name, k: nat :: name in AtStage(ns, tasks, k) <==> name in ns && Stage(tasks, name) == k)
    && (forall k: nat :: Distinct(AtStage(ns, tasks, k)))
    && |AtStage(ns, tasks, 0)| + |AtStage(ns, tasks, 1)| + |AtStage(ns, tasks, 2)| + |AtStage(ns, tasks, 3)|
       + |AtStage(ns, tasks, 4)| == |ns|
  }

  predicate RatesFallInRange(ns: seq<string>, tasks: seq<Task>) {
    100 >= Rate(ns, tasks, 0) >= Rate(ns, tasks, 1) >= Rate(ns, tasks, 2) >= Rate(ns, tasks, 3) >= 0
  }

  /**
   * Whatever the households and tasks: each household name, and nothing else, is in the list of its own stage, once, and
   * in no other; the stage counts add up to the number of names; the conversion rates fall within 0 and 100.
   */
  lemma PipelineIsPartition(households: seq<Household>, tasks: seq<Task>)
    ensures ListsHouseholds(Names(households), households)
    ensures StagesPartition(Names(households), tasks)
    ensures RatesFallInRange(Names(households), tasks)
  {
    NamesAreThose(households);
    StagesHold(Names(households), tasks);
    RatesOfStages(Names(households), tasks);
  }

  lemma NamesAreThose(households: seq<Household>)
    ensures ListsHouseholds(Names(households), households)
  {
    NamesAreDistinct(households);
    forall name
      ensures name in Names(households) <==> exists i :: 0 <= i < |households| && households[i].name == name
    {
      NamesAreAll(households, name);
    }
  }

  lemma StagesHold(ns: seq<string>, tasks: seq<Task>)
    requires Distinct(ns)
    ensures StagesPartition(ns, tasks)
  {
    forall name, k: nat
      ensures name in AtStage(ns, tasks, k) <==> name in ns && Stage(tasks, name) == k
    {
      InExactlyOneStage(ns, tasks, name, k);
    }
    forall k: nat
      ensures Distinct(AtStage(ns, tasks, k))
    {
      StageIsDistinct(ns, tasks, k);
    }
    StageCountsSum(ns, tasks);
  }

  lemma RatesOfStages(ns: seq<string>, tasks: seq<Task>)
    ensures RatesFallInRange(ns, tasks)
  {
    StageCountsSum(ns, tasks);
    RatesFall(Beyond(ns, tasks, 0), Beyond(ns, tasks, 1), Beyond(ns, tasks, 2), Beyond(ns, tasks, 3), Total(ns));
  }

  lemma RatesFall(b0: nat, b1: nat, b2: nat, b3: nat, total: nat)
    requires total >= 1 && total >= b0 >= b1 >= b2 >= b3
    ensures 100 >= Round(100 * b0, total) >= Round(100 * b1, total) >= Round(100 * b2, total) >= Round(100 * b3, total) >= 0
  {
    RoundBounds(100 * b0, total, 0, 100);
    RoundBounds(100 * b3, total, 0, 100);
    RoundIsMonotone(100 * b1, 100 * b0, total);
    RoundIsMonotone(100 * b2, 100 * b1, total);
    RoundIsMonotone(100 * b3, 100 * b2, total);
  }

  /** `t'` is `t`, possibly completed since. */
  predicate CompletedSince(t: Task, t': Task) {
    t' == t || t' == t.(status := "Completed")
  }

  /** Every task of before is still there after, in any position, possibly completed; further tasks may have arrived. */
  ghost predicate Progressed(before: seq<Task>, after: seq<Task>) {
    forall i :: 0 <= i < |before| ==> HasSuccessor(before[i], after)
  }

  ghost predicate HasSuccessor(t: Task, after: seq<Task>) {
    exists j :: 0 <= j < |after| && CompletedSince(t, after[j])
  }

  /** Adding, completing and reordering tasks never moves a household back. */
  lemma NeverBackwards(before: seq<Task>, after: seq<Task>, name: string)
    requires Progressed(before, after)
    ensures Stage(before, name) <= Stage(after, name)
  {
    var f, g := FlagsOf(before, name), FlagsOf(after, name);
    forall i | 0 <= i < |before| && Concerns(before[i], name)
      ensures exists j :: 0 <= j < |after| && Concerns(after[j], name) && Covers(Evidence(after[j]), Evidence(before[i]))
    {
      assert HasSuccessor(before[i], after);
      var j :| 0 <= j < |after| && CompletedSince(before[i], after[j]);
      assert Concerns(after[j], name) && Covers(Evidence(after[j]), Evidence(before[i]));
    }
    assert Covers(g, f);
  }

  predicate Covers(a: Flags, b: Flags) {
    (b.hasCompliance ==> a.hasCompliance) && (b.hasDocuSent ==> a.hasDocuSent)
    && (b.hasDocuSigned ==> a.hasDocuSigned) && (b.hasMeeting ==> a.hasMeeting)
  }

  /** The staging does not depend on the order of the tasks. */
  lemma OrderDoesNotMatter(tasks: seq<Task>, shuffled: seq<Task>, name: string)
    requires multiset(tasks) == multiset(shuffled)
    ensures Stage(tasks, name) == Stage(shuffled, name)
  {
    ShuffledIsProgress(tasks, shuffled);
    ShuffledIsProgress(shuffled, tasks);
    NeverBackwards(tasks, shuffled, name);
    NeverBackwards(shuffled, tasks, name);
  }

  lemma ShuffledIsProgress(a: seq<Task>, b: seq<Task>)
    requires multiset(a) == multiset(b)
    ensures Progressed(a, b)
  {
    forall i | 0 <= i < |a|
      ensures HasSuccessor(a[i], b)
    {
      assert a[i] in multiset(b);
      var j :| 0 <= j < |b| && b[j] == a[i];
      assert CompletedSince(a[i], b[j]);
    }
  }
}
