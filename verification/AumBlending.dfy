/** Blending of reported balances with estimates: weights, coverage, and per-advisor assets. */
module AumBlending {
  import opened PracticeTypes

  /** One account total per household id; amounts are whole units of money. */
  datatype Balance = Balance(householdId: string, amount: int)

  predicate DistinctIds(bs: seq<Balance>) {
    forall i, j :: 0 <= i < j < |bs| ==> bs[i].householdId != bs[j].householdId
  }

  function AmountOf(bs: seq<Balance>, id: string): int {
    if bs == [] then 0 else if bs[0].householdId == id then bs[0].amount else AmountOf(bs[1..], id)
  }

  // ---- the coverage figures, as the code accumulates them ----

  datatype Coverage = Coverage(actualAum: int, householdsWithFsc: nat, householdsWithoutFsc: nat, estimatedGapAum: int, blendedAum: int)

  function PositiveSum(bs: seq<Balance>): int {
    if bs == [] then 0 else
    var n := |bs| - 1;
    PositiveSum(bs[..n]) + if bs[n].amount > 0 then bs[n].amount else 0
  }

  function WithFsc(hs: seq<Household>, bs: seq<Balance>): nat {
    if hs == [] then 0 else
    var n := |hs| - 1;
    WithFsc(hs[..n], bs) + if AmountOf(bs, hs[n].id) > 0 then 1 else 0
  }

  function CoverageOf(hs: seq<Household>, bs: seq<Balance>, avgAum: int): Coverage {
    var gap := (|hs| - WithFsc(hs, bs)) * avgAum;
    WithFscBound(hs, bs);
    Coverage(PositiveSum(bs), WithFsc(hs, bs), |hs| - WithFsc(hs, bs), gap, PositiveSum(bs) + gap)
  }

  lemma {:induction false} WithFscBound(hs: seq<Household>, bs: seq<Balance>)
    ensures WithFsc(hs, bs) <= |hs|
  {
    if hs != [] {
      WithFscBound(hs[..|hs| - 1], bs);
    }
  }

  lemma {:induction false} AmountInIds(bs: seq<Balance>, id: string)
    requires DistinctIds(bs)
    ensures (exists i :: 0 <= i < |bs| && bs[i].householdId == id && bs[i].amount > 0) <==> AmountOf(bs, id) > 0
  {
    if bs != [] {
      AmountInIds(bs[1..], id);
      assert forall i :: 0 < i < |bs| ==> bs[i] == bs[1..][i - 1];
    }
  }

  method BlendAum(hs: seq<Household>, bs: seq<Balance>, avgAum: int) returns (c: Coverage)
    requires DistinctIds(bs)
    ensures c == CoverageOf(hs, bs, avgAum)
  {
    var hhIdsWithFsc := set i | 0 <= i < |bs| && bs[i].amount > 0 :: bs[i].householdId;
    var householdsWithFsc := 0;
    for i := 0 to |hs|
      invariant householdsWithFsc == WithFsc(hs[..i], bs) <= i
    {
      assert hs[..i + 1][..i] == hs[..i];
      AmountInIds(bs, hs[i].id);
      if hs[i].id in hhIdsWithFsc {
        householdsWithFsc := householdsWithFsc + 1;
      }
    }
    assert hs[..|hs|] == hs;
    var actualAum := 0;
    for i := 0 to |bs|
      invariant actualAum == PositiveSum(bs[..i])
    {
      assert bs[..i + 1][..i] == bs[..i];
      if bs[i].amount > 0 {
        actualAum := actualAum + bs[i].amount;
      }
    }
    assert bs[..|bs|] == bs;
    var householdsWithoutFsc := |hs| - householdsWithFsc;
    var estimatedGapAum := householdsWithoutFsc * avgAum;
    c := Coverage(actualAum, householdsWithFsc, householdsWithoutFsc, estimatedGapAum, actualAum + estimatedGapAum);
  }

  lemma {:induction false} WithFscIs(hs: seq<Household>, bs: seq<Balance>)
    ensures WithFsc(hs, bs) == HowMany(hs, (h: Household) => AmountOf(bs, h.id) > 0)
  {
    if hs != [] {
      WithFscIs(hs[..|hs| - 1], bs);
      OneMorePlace(hs, (h: Household) => AmountOf(bs, h.id) > 0);
    }
  }

  /**
   * The figures of the blend: the households with a positive balance and those without, the assets reported, and the average
   * for each household without.
   */
  lemma CoverageIs(hs: seq<Household>, bs: seq<Balance>, avgAum: int)
    ensures var c := CoverageOf(hs, bs, avgAum);
            && c.householdsWithFsc == HowMany(hs, (h: Household) => AmountOf(bs, h.id) > 0)
            && c.householdsWithFsc + c.householdsWithoutFsc == |hs|
            && c.estimatedGapAum == c.householdsWithoutFsc * avgAum
            && c.blendedAum == c.actualAum + c.estimatedGapAum
            && c.actualAum == PositiveSum(bs)
  {
    WithFscIs(hs, bs);
  }

  // ---- weights against coverage ----

  /** `aumByHousehold[h.id] || avgAum` */
  function Weight(h: Household, bs: seq<Balance>, avgAum: int): int {
    if AmountOf(bs, h.id) != 0 then AmountOf(bs, h.id) else avgAum
  }

  function TotalWeight(hs: seq<Household>, bs: seq<Balance>, avgAum: int): int {
    if hs == [] then 0 else TotalWeight(hs[..|hs| - 1], bs, avgAum) + Weight(hs[|hs| - 1], bs, avgAum)
  }

  /** What a household contributes to the blended figure: its balance if positive, else the estimate. */
  function Share(h: Household, bs: seq<Balance>, avgAum: int): int {
    if AmountOf(bs, h.id) > 0 then AmountOf(bs, h.id) else avgAum
  }

  function TotalShare(hs: seq<Household>, bs: seq<Balance>, avgAum: int): int {
    if hs == [] then 0 else TotalShare(hs[..|hs| - 1], bs, avgAum) + Share(hs[|hs| - 1], bs, avgAum)
  }

  predicate IsListed(hs: seq<Household>, id: string) {
    exists i :: 0 <= i < |hs| && hs[i].id == id
  }

  /** Positive balances reported for households that are not listed. */
  function Orphans(hs: seq<Household>, bs: seq<Balance>): nat {
    if bs == [] then 0 else
    Orphans(hs, bs[1..]) + if bs[0].amount > 0 && !IsListed(hs, bs[0].householdId) then bs[0].amount else 0
  }

  /** Negative balances are used as weights but estimated in the blend. */
  function Deficit(h: Household, bs: seq<Balance>, avgAum: int): int {
    if AmountOf(bs, h.id) < 0 then avgAum - AmountOf(bs, h.id) else 0
  }

  function Deficits(hs: seq<Household>, bs: seq<Balance>, avgAum: int): int {
    if hs == [] then 0 else Deficits(hs[..|hs| - 1], bs, avgAum) + Deficit(hs[|hs| - 1], bs, avgAum)
  }

  function ListedPositive(hs: seq<Household>, bs: seq<Balance>): int {
    if hs == [] then 0 else
    var n := |hs| - 1;
    ListedPositive(hs[..n], bs) + if AmountOf(bs, hs[n].id) > 0 then AmountOf(bs, hs[n].id) else 0
  }

  lemma {:induction false} SharesSplit(hs: seq<Household>, bs: seq<Balance>, avgAum: int)
    ensures TotalShare(hs, bs, avgAum) == ListedPositive(hs, bs) + (|hs| - WithFsc(hs, bs)) * avgAum
  {
    if hs != [] {
      var n := |hs| - 1;
      SharesSplit(hs[..n], bs, avgAum);
      OneMore(n - WithFsc(hs[..n], bs), avgAum);
    }
  }

  lemma OneMore(a: int, c: int)
    ensures (a + 1) * c == a * c + c
  {
  }

  lemma {:induction false} WeightsAndDeficits(hs: seq<Household>, bs: seq<Balance>, avgAum: int)
    ensures TotalWeight(hs, bs, avgAum) + Deficits(hs, bs, avgAum) == TotalShare(hs, bs, avgAum)
  {
    if hs != [] {
      WeightsAndDeficits(hs[..|hs| - 1], bs, avgAum);
    }
  }

  lemma {:induction false} ListedSteps(hs: seq<Household>, b: Balance, bs: seq<Balance>)
    requires UniqueIds(hs) && DistinctIds([b] + bs)
    ensures ListedPositive(hs, [b] + bs)
         == ListedPositive(hs, bs) + if b.amount > 0 && IsListed(hs, b.householdId) then b.amount else 0
  {
    assert ([b] + bs)[1..] == bs;
    if hs != [] {
      var n := |hs| - 1;
      ListedSteps(hs[..n], b, bs);
      AbsentIsZero(bs, b.householdId, b);
      assert IsListed(hs, b.householdId) <==> IsListed(hs[..n], b.householdId) || hs[n].id == b.householdId by {
        ListedInit(hs, b.householdId);
      }
    }
  }

  lemma ListedInit(hs: seq<Household>, id: string)
    requires hs != []
    ensures IsListed(hs, id) <==> IsListed(hs[..|hs| - 1], id) || hs[|hs| - 1].id == id
  {
    var n := |hs| - 1;
    if i :| 0 <= i < |hs| && hs[i].id == id {
      if i < n {
        assert hs[..n][i].id == id;
      }
    }
    if i :| 0 <= i < n && hs[..n][i].id == id {
      assert hs[i].id == id;
    }
  }

  lemma {:induction false} AbsentIsZero(bs: seq<Balance>, id: string, b: Balance)
    requires DistinctIds([b] + bs) && b.householdId == id
    ensures AmountOf(bs, id) == 0
  {
    var all := [b] + bs;
    assert all[0] == b && forall i :: 0 <= i < |bs| ==> all[i + 1] == bs[i];
    NotThere(bs, id);
  }

  lemma {:induction false} NotThere(bs: seq<Balance>, id: string)
    requires forall i :: 0 <= i < |bs| ==> bs[i].householdId != id
    ensures AmountOf(bs, id) == 0
  {
    if bs != [] {
      NotThere(bs[1..], id);
    }
  }

  lemma {:induction false} PositiveSplit(hs: seq<Household>, bs: seq<Balance>)
    requires UniqueIds(hs) && DistinctIds(bs)
    ensures ListedPositive(hs, bs) + Orphans(hs, bs) == PositiveSum(bs)
  {
    if bs == [] {
      NothingListed(hs);
    } else {
      assert bs == [bs[0]] + bs[1..];
      PositiveSplit(hs, bs[1..]);
      ListedSteps(hs, bs[0], bs[1..]);
      PositiveSumHead(bs);
    }
  }

  lemma {:induction false} NothingListed(hs: seq<Household>)
    ensures ListedPositive(hs, []) == 0
  {
    if hs != [] {
      NothingListed(hs[..|hs| - 1]);
    }
  }

  lemma {:induction false} PositiveSumHead(bs: seq<Balance>)
    requires bs != []
    ensures PositiveSum(bs) == (if bs[0].amount > 0 then bs[0].amount else 0) + PositiveSum(bs[1..])
  {
    var n := |bs| - 1;
    if n > 0 {
      PositiveSumHead(bs[..n]);
      assert bs[1..][..n - 1] == bs[..n][1..];
    } else {
      assert bs[..0] == [] && bs[1..] == [];
    }
  }

  /**
   * The exact law of the blend, for any balances: the shares of the listed households and the orphaned balances add
   * up to the blended figure, and the weights fall short of the shares by the deficits.
   */
  lemma BlendLaw(hs: seq<Household>, bs: seq<Balance>, avgAum: int)
    requires UniqueIds(hs) && DistinctIds(bs)
    ensures TotalShare(hs, bs, avgAum) + Orphans(hs, bs) == CoverageOf(hs, bs, avgAum).blendedAum
    ensures TotalWeight(hs, bs, avgAum) + Deficits(hs, bs, avgAum) + Orphans(hs, bs) == CoverageOf(hs, bs, avgAum).blendedAum
  {
    SharesSplit(hs, bs, avgAum);
    WeightsAndDeficits(hs, bs, avgAum);
    PositiveSplit(hs, bs);
  }

  predicate NoListedNegative(hs: seq<Household>, bs: seq<Balance>) {
    forall i :: 0 <= i < |hs| ==> AmountOf(bs, hs[i].id) >= 0
  }

  predicate AllPositiveListed(hs: seq<Household>, bs: seq<Balance>) {
    forall i :: 0 <= i < |bs| && bs[i].amount > 0 ==> IsListed(hs, bs[i].householdId)
  }

  lemma {:induction false} OrphansZeroIff(hs: seq<Household>, bs: seq<Balance>)
    ensures Orphans(hs, bs) == 0 <==> AllPositiveListed(hs, bs)
  {
    if bs != [] {
      OrphansZeroIff(hs, bs[1..]);
      assert forall i :: 0 < i < |bs| ==> bs[i] == bs[1..][i - 1];
    }
  }

  lemma {:induction false} DeficitsZeroIff(hs: seq<Household>, bs: seq<Balance>, avgAum: int)
    requires avgAum >= 0
    ensures Deficits(hs, bs, avgAum) >= 0
    ensures Deficits(hs, bs, avgAum) == 0 <==> NoListedNegative(hs, bs)
  {
    if hs != [] {
      DeficitsZeroIff(hs[..|hs| - 1], bs, avgAum);
    }
  }

  /** The weights add up to the blended figure if and only if no listed balance is negative and no positive one is unlisted. */
  lemma WeightsSumIff(hs: seq<Household>, bs: seq<Balance>, avgAum: int)
    requires UniqueIds(hs) && DistinctIds(bs) && avgAum >= 0
    ensures TotalWeight(hs, bs, avgAum) == CoverageOf(hs, bs, avgAum).blendedAum
        <==> NoListedNegative(hs, bs) && AllPositiveListed(hs, bs)
  {
    BlendLaw(hs, bs, avgAum);
    OrphansZeroIff(hs, bs);
    DeficitsZeroIff(hs, bs, avgAum);
  }

  // ---- the weighted health score ----

  function WeightedSum(hs: seq<Household>, bs: seq<Balance>, avgAum: int, score: string -> int): int {
    if hs == [] then 0 else
    var h := hs[|hs| - 1];
    WeightedSum(hs[..|hs| - 1], bs, avgAum, score) + score(h.id) * Weight(h, bs, avgAum)
  }

  method AumWeightedHealth(hs: seq<Household>, bs: seq<Balance>, avgAum: int, score: string -> int, healthScore: int)
    returns (r: int)
    requires DistinctIds(bs) && avgAum >= 0
    ensures var c := CoverageOf(hs, bs, avgAum);
            r == if c.actualAum > 0 then Round(WeightedSum(hs, bs, avgAum, score), c.blendedAum) else healthScore
  {
    var c := BlendAum(hs, bs, avgAum);
    if c.actualAum > 0 {
      var weightedSum := 0;
      for i := 0 to |hs|
        invariant weightedSum == WeightedSum(hs[..i], bs, avgAum, score)
      {
        assert hs[..i + 1][..i] == hs[..i];
        weightedSum := weightedSum + score(hs[i].id) * Weight(hs[i], bs, avgAum);
      }
      assert hs[..|hs|] == hs;
      MulMono(0, c.householdsWithoutFsc, avgAum);
      r := Round(weightedSum, c.blendedAum);
    } else {
      r := healthScore;
    }
  }

  lemma {:induction false} WeightedSumBounds(hs: seq<Household>, bs: seq<Balance>, avgAum: int, score: string -> int,
                                             lo: int, hi: int)
    requires avgAum >= 0 && NoListedNegative(hs, bs)
    requires forall i :: 0 <= i < |hs| ==> lo <= score(hs[i].id) <= hi
    ensures lo * TotalWeight(hs, bs, avgAum) <= WeightedSum(hs, bs, avgAum, score) <= hi * TotalWeight(hs, bs, avgAum)
  {
    if hs != [] {
      var n := |hs| - 1;
      var h := hs[n];
      WeightedSumBounds(hs[..n], bs, avgAum, score, lo, hi);
      MulMono(lo, score(h.id), Weight(h, bs, avgAum));
      MulMono(score(h.id), hi, Weight(h, bs, avgAum));
      Distribute(lo, TotalWeight(hs[..n], bs, avgAum), Weight(h, bs, avgAum));
      Distribute(hi, TotalWeight(hs[..n], bs, avgAum), Weight(h, bs, avgAum));
    }
  }

  lemma Distribute(a: int, b: int, c: int)
    ensures a * (b + c) == a * b + a * c
  {
  }

  /** With consistent balances the weighted score lies between the least and the greatest household score. */
  lemma WeightedHealthIsAverage(hs: seq<Household>, bs: seq<Balance>, avgAum: int, score: string -> int, lo: int, hi: int)
    requires UniqueIds(hs) && DistinctIds(bs) && avgAum >= 0
    requires NoListedNegative(hs, bs) && AllPositiveListed(hs, bs)
    requires CoverageOf(hs, bs, avgAum).blendedAum > 0
    requires forall i :: 0 <= i < |hs| ==> lo <= score(hs[i].id) <= hi
    ensures lo <= Round(WeightedSum(hs, bs, avgAum, score), CoverageOf(hs, bs, avgAum).blendedAum) <= hi
  {
    WeightsSumIff(hs, bs, avgAum);
    WeightedSumBounds(hs, bs, avgAum, score, lo, hi);
    RoundBounds(WeightedSum(hs, bs, avgAum, score), CoverageOf(hs, bs, avgAum).blendedAum, lo, hi);
  }

  // ---- per-advisor assets ----

  function Get(m: map<string, int>, k: string): int {
    if k in m then m[k] else 0
  }

  /** What a household with this id contributes to the blended figure. */
  function IdShare(id: string, bs: seq<Balance>, avgAum: int): int {
    if AmountOf(bs, id) > 0 then AmountOf(bs, id) else avgAum
  }

  /** `hhNameToId.get(name)`, empty when there is none: of households with one name the last is kept. */
  function IdOfName(hs: seq<Household>, name: string): string {
    if hs == [] then ""
    else if hs[|hs| - 1].name == name then hs[|hs| - 1].id
    else IdOfName(hs[..|hs| - 1], name)
  }

  function NameShare(name: string, hs: seq<Household>, bs: seq<Balance>, avgAum: int): int {
    if IdOfName(hs, name) == "" then 0 else IdShare(IdOfName(hs, name), bs, avgAum)
  }

  /** What the household names of one advisor contribute, from balances or from estimates. */
  function AdvisorAum(names: seq<string>, assign: map<string, string>, advisor: string, hs: seq<Household>,
                      bs: seq<Balance>, avgAum: int): int
    requires forall i :: 0 <= i < |names| ==> names[i] in assign
  {
    if names == [] then 0 else
    var n := |names| - 1;
    AdvisorAum(names[..n], assign, advisor, hs, bs, avgAum)
    + if assign[names[n]] == advisor then NameShare(names[n], hs, bs, avgAum) else 0
  }

  /** The part of it that comes from positive balances. */
  function AdvisorReal(names: seq<string>, assign: map<string, string>, advisor: string, hs: seq<Household>,
                       bs: seq<Balance>): int
    requires forall i :: 0 <= i < |names| ==> names[i] in assign
  {
    if names == [] then 0 else
    var n := |names| - 1;
    var amount := AmountOf(bs, IdOfName(hs, names[n]));
    AdvisorReal(names[..n], assign, advisor, hs, bs)
    + if assign[names[n]] == advisor && IdOfName(hs, names[n]) != "" && amount > 0 then amount else 0
  }

  /** The loop over the household-to-advisor map, one turn per name, with real and estimated amounts kept apart. */
  method PerAdvisorAum(names: seq<string>, assign: map<string, string>, hs: seq<Household>, bs: seq<Balance>, avgAum: int)
    returns (advisorRealAum: map<string, int>, advisorEstAum: map<string, int>)
    requires forall i :: 0 <= i < |names| ==> names[i] in assign
    ensures forall a :: Get(advisorRealAum, a) == AdvisorReal(names, assign, a, hs, bs)
    ensures forall a :: Get(advisorRealAum, a) + Get(advisorEstAum, a) == AdvisorAum(names, assign, a, hs, bs, avgAum)
  {
    advisorRealAum, advisorEstAum := map[], map[];
    for i := 0 to |names|
      invariant forall a :: Get(advisorRealAum, a) == AdvisorReal(names[..i], assign, a, hs, bs)
      invariant forall a :: Get(advisorRealAum, a) + Get(advisorEstAum, a) == AdvisorAum(names[..i], assign, a, hs, bs, avgAum)
    {
      assert names[..i + 1][..i] == names[..i];
      var advName := assign[names[i]];
      var hhId := IdOfName(hs, names[i]);
      if hhId == "" {
        continue;
      }
      if AmountOf(bs, hhId) > 0 {
        advisorRealAum := advisorRealAum[advName := Get(advisorRealAum, advName) + AmountOf(bs, hhId)];
      } else {
        advisorEstAum := advisorEstAum[advName := Get(advisorEstAum, advName) + avgAum];
      }
    }
    assert names[..|names|] == names;
  }

  function SumOver(advisors: seq<string>, names: seq<string>, assign: map<string, string>, hs: seq<Household>,
                   bs: seq<Balance>, avgAum: int): int
    requires forall i :: 0 <= i < |names| ==> names[i] in assign
  {
    if advisors == [] then 0
    else AdvisorAum(names, assign, advisors[0], hs, bs, avgAum) + SumOver(advisors[1..], names, assign, hs, bs, avgAum)
  }

  lemma {:induction false} SumOverStep(advisors: seq<string>, names: seq<string>, assign: map<string, string>,
                                       hs: seq<Household>, bs: seq<Balance>, avgAum: int)
    requires names != [] && (forall i :: 0 <= i < |names| ==> names[i] in assign) && Distinct(advisors)
    ensures var last := names[|names| - 1];
            SumOver(advisors, names, assign, hs, bs, avgAum)
            == SumOver(advisors, names[..|names| - 1], assign, hs, bs, avgAum)
               + if assign[last] in advisors then NameShare(last, hs, bs, avgAum) else 0
  {
    if advisors != [] {
      SumOverStep(advisors[1..], names, assign, hs, bs, avgAum);
      assert forall i :: 0 < i < |advisors| ==> advisors[i] == advisors[1..][i - 1];
    }
  }

  function NamesShare(names: seq<string>, hs: seq<Household>, bs: seq<Balance>, avgAum: int): int {
    if names == [] then 0
    else NamesShare(names[..|names| - 1], hs, bs, avgAum) + NameShare(names[|names| - 1], hs, bs, avgAum)
  }

  lemma {:induction false} SumOverIsNamesShare(advisors: seq<string>, names: seq<string>, assign: map<string,
                                               string>, hs: seq<Household>, bs: seq<Balance>, avgAum: int)
    requires forall i :: 0 <= i < |names| ==> names[i] in assign && assign[names[i]] in advisors
    requires Distinct(advisors)
    ensures SumOver(advisors, names, assign, hs, bs, avgAum) == NamesShare(names, hs, bs, avgAum)
  {
    if names == [] {
      SumOverNone(advisors, assign, hs, bs, avgAum);
    } else {
      SumOverStep(advisors, names, assign, hs, bs, avgAum);
      SumOverIsNamesShare(advisors, names[..|names| - 1], assign, hs, bs, avgAum);
    }
  }

  lemma {:induction false} SumOverNone(advisors: seq<string>, assign: map<string, string>, hs: seq<Household>,
                                       bs: seq<Balance>, avgAum: int)
    ensures SumOver(advisors, [], assign, hs, bs, avgAum) == 0
  {
    if advisors != [] {
      SumOverNone(advisors[1..], assign, hs, bs, avgAum);
    }
  }

  // ---- households that share a name ----

  /** The shares no advisor gets: of households followed by another of the same name, and of households without an id. */
  function Superseded(hs: seq<Household>, bs: seq<Balance>, avgAum: int): int {
    if hs == [] then 0 else
    var init, h := hs[..|hs| - 1], hs[|hs| - 1];
    Superseded(init, bs, avgAum) + NameShare(h.name, init, bs, avgAum) + if h.id == "" then IdShare("", bs, avgAum) else 0
  }

  /** One more household changes the share of its own name. */
  lemma {:induction false} NamesShareStep(names: seq<string>, hs: seq<Household>, bs: seq<Balance>, avgAum: int)
    requires hs != [] && Distinct(names)
    ensures var init, h := hs[..|hs| - 1], hs[|hs| - 1];
            NamesShare(names, hs, bs, avgAum) == NamesShare(names, init, bs, avgAum)
              + if h.name in names then NameShare(h.name, hs, bs, avgAum) - NameShare(h.name, init, bs, avgAum) else 0
  {
    if names != [] {
      NamesShareStep(names[..|names| - 1], hs, bs, avgAum);
      assert names == names[..|names| - 1] + [names[|names| - 1]];
    }
  }

  lemma {:induction false} NamesShareNone(names: seq<string>, bs: seq<Balance>, avgAum: int)
    ensures NamesShare(names, [], bs, avgAum) == 0
  {
    if names != [] {
      NamesShareNone(names[..|names| - 1], bs, avgAum);
    }
  }

  lemma {:induction false} NamesShareAndSuperseded(names: seq<string>, hs: seq<Household>, bs: seq<Balance>, avgAum: int)
    requires Distinct(names) && forall i :: 0 <= i < |hs| ==> hs[i].name in names
    ensures NamesShare(names, hs, bs, avgAum) + Superseded(hs, bs, avgAum) == TotalShare(hs, bs, avgAum)
  {
    if hs == [] {
      NamesShareNone(names, bs, avgAum);
    } else {
      NamesShareStep(names, hs, bs, avgAum);
      NamesShareAndSuperseded(names, hs[..|hs| - 1], bs, avgAum);
    }
  }

  predicate UniqueNames(hs: seq<Household>) {
    forall i, j :: 0 <= i < j < |hs| ==> hs[i].name != hs[j].name
  }

  lemma {:induction false} UnnamedHasNoId(hs: seq<Household>, name: string)
    requires forall i :: 0 <= i < |hs| ==> hs[i].name != name
    ensures IdOfName(hs, name) == ""
  {
    if hs != [] {
      UnnamedHasNoId(hs[..|hs| - 1], name);
    }
  }

  lemma {:induction false} NothingSuperseded(hs: seq<Household>, bs: seq<Balance>, avgAum: int)
    requires UniqueNames(hs) && forall i :: 0 <= i < |hs| ==> hs[i].id != ""
    ensures Superseded(hs, bs, avgAum) == 0
  {
    if hs != [] {
      NothingSuperseded(hs[..|hs| - 1], bs, avgAum);
      UnnamedHasNoId(hs[..|hs| - 1], hs[|hs| - 1].name);
    }
  }

  /**
   * For any balances, names repeated or not: the advisors' assets, the superseded shares and the orphaned balances add up to
   * the blended figure. When no name repeats and every household has an id, the advisors' assets alone do if and only if every
   * positive balance is listed.
   */
  lemma AdvisorAumConserved(advisors: seq<string>, names: seq<string>, assign: map<string, string>,
                            hs: seq<Household>, bs: seq<Balance>, avgAum: int)
    requires UniqueIds(hs) && DistinctIds(bs) && Distinct(advisors) && Distinct(names)
    requires forall i :: 0 <= i < |hs| ==> hs[i].name in names
    requires forall i :: 0 <= i < |names| ==> names[i] in assign && assign[names[i]] in advisors
    ensures SumOver(advisors, names, assign, hs, bs, avgAum) + Superseded(hs, bs, avgAum) + Orphans(hs, bs)
         == CoverageOf(hs, bs, avgAum).blendedAum
    ensures UniqueNames(hs) && (forall i :: 0 <= i < |hs| ==> hs[i].id != "") ==>
            (SumOver(advisors, names, assign, hs, bs, avgAum) == CoverageOf(hs, bs, avgAum).blendedAum <==> AllPositiveListed(hs, bs))
  {
    SumOverIsNamesShare(advisors, names, assign, hs, bs, avgAum);
    NamesShareAndSuperseded(names, hs, bs, avgAum);
    BlendLaw(hs, bs, avgAum);
    if UniqueNames(hs) && forall i :: 0 <= i < |hs| ==> hs[i].id != "" {
      NothingSuperseded(hs, bs, avgAum);
      OrphansZeroIff(hs, bs);
    }
  }

  lemma RealShare(name: string, hs: seq<Household>, bs: seq<Balance>)
    ensures NameShare(name, hs, bs, 0) == if IdOfName(hs, name) != "" && AmountOf(bs, IdOfName(hs, name)) > 0 then AmountOf(bs, IdOfName(hs, name)) else 0
  {
  }

  /** The real part of an advisor's assets is what they would be if every estimate were nothing, so the laws above hold of it too. */
  lemma {:induction false} RealIsUnestimated(names: seq<string>, assign: map<string, string>, advisor: string, hs: seq<Household>,
                                             bs: seq<Balance>)
    requires forall i :: 0 <= i < |names| ==> names[i] in assign
    ensures AdvisorReal(names, assign, advisor, hs, bs) == AdvisorAum(names, assign, advisor, hs, bs, 0)
  {
    if names != [] {
      RealIsUnestimated(names[..|names| - 1], assign, advisor, hs, bs);
      RealShare(names[|names| - 1], hs, bs);
    }
  }
}
