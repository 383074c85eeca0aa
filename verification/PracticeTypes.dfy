/** Records of the practice dashboard and the home screen, and the rounding their percentages use. */
module PracticeTypes {
  import opened Text

  const MS_DAY := 86_400_000

  /**
   * `described` is the advisor name the dashboard parses from the description, empty when none is found; `labelled` is the
   * one the home screen parses. Times are in milliseconds.
   */
  datatype Household = Household(
    id: string,
    name: string,
    advisorName: Option<string>,
    described: string,
    labelled: Option<string>,
    createdAt: int)

  /** `householdName` and `householdId` are empty when the task has none. */
  datatype Task = Task(
    id: string,
    subject: string,
    status: string,
    highPriority: bool,
    createdAt: int,
    due: Option<int>,
    householdName: string,
    householdId: string)

  predicate Distinct(names: seq<string>) {
    forall i, j :: 0 <= i < j < |names| ==> names[i] != names[j]
  }

  predicate UniqueIds(hs: seq<Household>) {
    forall i, j :: 0 <= i < j < |hs| ==> hs[i].id != hs[j].id
  }

  /** The places of the elements with a property. */
  function Places<T>(xs: seq<T>, p: T -> bool): (at: set<int>)
    ensures forall i :: i in at <==> 0 <= i < |xs| && p(xs[i])
  {
    set i | 0 <= i < |xs| && p(xs[i])
  }

  /** How many elements have it. */
  function HowMany<T>(xs: seq<T>, p: T -> bool): nat {
    |Places(xs, p)|
  }

  lemma OneMorePlace<T>(xs: seq<T>, p: T -> bool)
    requires xs != []
    ensures HowMany(xs, p) == HowMany(xs[..|xs| - 1], p) + Bit(p(xs[|xs| - 1]))
  {
    var n := |xs| - 1;
    assert Places(xs, p) == Places(xs[..n], p) + if p(xs[n]) then {n} else {};
  }

  predicate Completed(t: Task) {
    t.status == "Completed"
  }

  predicate IsReview(t: Task) {
    Includes(t.subject, "COMPLIANCE REVIEW")
  }

  predicate IsMeeting(t: Task) {
    Includes(t.subject, "MEETING NOTE")
  }

  predicate IsDocuSign(t: Task) {
    Includes(t.subject, "SEND DOCU") || Includes(t.subject, "DocuSign")
  }

  /** `Math.round(num / den)`: half up. */
  function Round(num: int, den: int): int
    requires den > 0
  {
    (2 * num + den) / (2 * den)
  }

  lemma MulMono(a: int, b: int, c: int)
    requires a <= b && c >= 0
    ensures a * c <= b * c
  {
  }

  /** A quotient is the only integer whose multiple brackets the dividend. */
  lemma RoundIs(num: int, den: int)
    requires den > 0
    ensures var q := Round(num, den); q * (2 * den) <= 2 * num + den < (q + 1) * (2 * den)
  {
    var q, r := Round(num, den), (2 * num + den) % (2 * den);
    assert 2 * num + den == q * (2 * den) + r;
    assert (q + 1) * (2 * den) == q * (2 * den) + 2 * den;
  }

  lemma RoundBounds(num: int, den: int, lo: int, hi: int)
    requires den > 0 && lo * den <= num <= hi * den
    ensures lo <= Round(num, den) <= hi
  {
    var q := Round(num, den);
    RoundIs(num, den);
    assert 2 * (lo * den) == lo * (2 * den) && 2 * (hi * den) == hi * (2 * den);
    assert (hi + 1) * (2 * den) == hi * (2 * den) + 2 * den;
    if q + 1 <= lo {
      MulMono(q + 1, lo, 2 * den);
    }
    if hi + 1 <= q {
      MulMono(hi + 1, q, 2 * den);
    }
  }

  lemma RoundIsMonotone(a: int, b: int, den: int)
    requires den > 0 && a <= b
    ensures Round(a, den) <= Round(b, den)
  {
    var q, p := Round(a, den), Round(b, den);
    RoundIs(a, den);
    RoundIs(b, den);
    if p + 1 <= q {
      MulMono(p + 1, q, 2 * den);
    }
  }
}
