/** Battery power levels and the percentage classifier. */
module Levels {

  /** The four published power levels, from least to most severe. */
  datatype Level = Ok | Low | VeryLow | Critical

  /** Position of a level in the severity order: Ok is 0, Critical is 3. */
  function Severity(l: Level): nat {
    match l
    case Ok => 0
    case Low => 1
    case VeryLow => 2
    case Critical => 3
  }

  /** Charge percentages at or below which a level begins. */
  const PercentCritical: real := 2.0
  const PercentVeryLow: real := 5.0
  const PercentLow: real := 10.0

  /** How many of the three thresholds a percentage is at or below. */
  function ThresholdsReached(p: real): nat {
    (if p <= PercentCritical then 1 else 0)
    + (if p <= PercentVeryLow then 1 else 0)
    + (if p <= PercentLow then 1 else 0)
  }

  /** An integer percentage that is exactly one of the thresholds. */
  predicate IsThreshold(i: int) {
    i as real == PercentCritical || i as real == PercentVeryLow || i as real == PercentLow
  }

  /** The level of a charge percentage; each threshold belongs to the more severe side. */
  function Classify(p: real): (r: Level)
    ensures Severity(r) == ThresholdsReached(p)
  {
    if p <= PercentCritical then Critical
    else if p <= PercentVeryLow then VeryLow
    else if p <= PercentLow then Low
    else Ok
  }

  /** Each level is exactly one band of percentages. */
  lemma ClassifyBands(p: real)
    ensures Classify(p) == Critical <==> p <= PercentCritical
    ensures Classify(p) == VeryLow <==> PercentCritical < p <= PercentVeryLow
    ensures Classify(p) == Low <==> PercentVeryLow < p <= PercentLow
    ensures Classify(p) == Ok <==> PercentLow < p
  {
  }

  /** Lowering the percentage never gives a less severe level. */
  lemma ClassifyMonotone(p: real, q: real)
    requires p <= q
    ensures Severity(Classify(q)) <= Severity(Classify(p))
  {
  }

  /** Levels are told apart by their severity. */
  lemma SeverityInjective(a: Level, b: Level)
    ensures Severity(a) == Severity(b) <==> a == b
  {
  }

  /**
   * Lowering an integer percentage by one raises the severity by one exactly
   * when the new value is a threshold, and leaves it unchanged otherwise.
   */
  lemma UnitStep(i: int)
    ensures Severity(Classify(i as real)) == Severity(Classify((i + 1) as real)) + (if IsThreshold(i) then 1 else 0)
    ensures Classify(i as real) != Classify((i + 1) as real) <==> IsThreshold(i)
  {
    SeverityInjective(Classify(i as real), Classify((i + 1) as real));
  }
}
