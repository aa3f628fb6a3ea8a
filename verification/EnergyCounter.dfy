/** The wrapping energy counter: readings are cumulative energy modulo the counter range. */
module EnergyCounter {

  /** What the counter shows when `total` microjoules have been used since it was zero. */
  function Reading(total: nat, range: nat): nat
    requires range > 0
  {
    total % range
  }

  /** Microjoules between two readings, as the scripts compute them. */
  function EnergyDeltaUj(e1: nat, e2: nat, maxRange: nat): int {
    if e2 >= e1 then e2 - e1 else (maxRange - e1) + e2
  }

  function EnergyDeltaJ(e1: nat, e2: nat, maxRange: nat): real {
    EnergyDeltaUj(e1, e2, maxRange) as real / 1000000.0
  }

  lemma AtLeastOnce(range: nat, k: int)
    requires k >= 1
    ensures range * k >= range
  {
  }

  lemma Residue(n: int, r: int, range: nat, q: int)
    requires range > 0 && 0 <= r < range && n == range * q + r
    ensures n % range == r
  {
    var d := n / range;
    assert n == range * d + n % range;
    assert range * (d - q) == r - n % range;
    assert range * (q - d) == n % range - r;
    if d > q { AtLeastOnce(range, d - q); }
    if d < q { AtLeastOnce(range, q - d); }
  }

  /** The delta of two readings is the energy used in between, modulo the range. */
  lemma {:induction false} DeltaIsDifferenceModRange(t1: nat, t2: nat, range: nat)
    requires range > 0 && t1 <= t2
    ensures EnergyDeltaUj(Reading(t1, range), Reading(t2, range), range) == (t2 - t1) % range
  {
    var e1, e2 := t1 % range, t2 % range;
    var q1, q2 := t1 / range, t2 / range;
    assert t1 == range * q1 + e1 && t2 == range * q2 + e2;
    if e2 >= e1 {
      assert t2 - t1 == range * (q2 - q1) + (e2 - e1);
      Residue(t2 - t1, e2 - e1, range, q2 - q1);
    } else {
      assert t2 - t1 == range * (q2 - q1 - 1) + (range - e1 + e2);
      Residue(t2 - t1, range - e1 + e2, range, q2 - q1 - 1);
    }
  }

  /** In joules: a millionth of the microjoules used in between, modulo the range. */
  lemma DeltaInJoules(t1: nat, t2: nat, range: nat)
    requires range > 0 && t1 <= t2
    ensures EnergyDeltaJ(Reading(t1, range), Reading(t2, range), range) * 1000000.0 == ((t2 - t1) % range) as real
  {
    hide Reading;
    DeltaIsDifferenceModRange(t1, t2, range);
  }

  /** It is the energy used exactly when less than one whole range was used. */
  lemma {:induction false} DeltaIsExactBelowOneRange(t1: nat, t2: nat, range: nat)
    requires range > 0 && t1 <= t2
    ensures EnergyDeltaUj(Reading(t1, range), Reading(t2, range), range) == t2 - t1 <==> t2 - t1 < range
  {
    DeltaIsDifferenceModRange(t1, t2, range);
    if t2 - t1 < range {
      Residue(t2 - t1, t2 - t1, range, 0);
    }
  }

  // ---------------------------------------------------------------------------
  // Sampled sequences
  // ---------------------------------------------------------------------------

  ghost predicate Rising(totals: seq<nat>) {
    forall i :: 0 < i < |totals| ==> totals[i - 1] <= totals[i]
  }

  /** Sum of the deltas of neighbouring readings. */
  function SumOfDeltas(totals: seq<nat>, range: nat): int
    requires range > 0
  {
    if |totals| < 2 then 0
    else EnergyDeltaUj(Reading(totals[0], range), Reading(totals[1], range), range) + SumOfDeltas(totals[1..], range)
  }

  /** Every gap between neighbouring readings is below the range. */
  ghost predicate ShortGaps(totals: seq<nat>, range: nat) {
    forall i :: 0 < i < |totals| ==> totals[i] < totals[i - 1] + range
  }

  lemma FirstGap(totals: seq<nat>, range: nat)
    requires |totals| >= 2
    ensures Rising(totals) ==> Rising(totals[1..])
    ensures ShortGaps(totals, range) <==> totals[1] < totals[0] + range && ShortGaps(totals[1..], range)
  {
  }

  /** Over any sampled sequence the deltas never add up to more than was used, and they add
      up to what was used exactly when no gap reaches the range. */
  lemma {:induction false} DeltasAddUp(totals: seq<nat>, range: nat)
    requires range > 0 && totals != [] && Rising(totals)
    ensures totals[0] + SumOfDeltas(totals, range) <= totals[|totals| - 1]
    ensures totals[0] + SumOfDeltas(totals, range) == totals[|totals| - 1] <==> ShortGaps(totals, range)
  {
    if |totals| >= 2 {
      FirstGap(totals, range);
      DeltasAddUp(totals[1..], range);
      DeltaIsExactBelowOneRange(totals[0], totals[1], range);
      DeltaIsAtMost(totals[0], totals[1], range);
    }
  }

  lemma DeltaIsAtMost(t1: nat, t2: nat, range: nat)
    requires range > 0 && t1 <= t2
    ensures EnergyDeltaUj(Reading(t1, range), Reading(t2, range), range) <= t2 - t1
  {
    DeltaIsDifferenceModRange(t1, t2, range);
    assert t2 - t1 == range * ((t2 - t1) / range) + (t2 - t1) % range;
  }
}
