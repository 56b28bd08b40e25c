/**
 * The scoring configuration record and the shipped values
 * (src/config/riskScoring.ts). The per-rule `threshold` is carried as data;
 * the scorer reads only `weight`.
 */
module RiskScoringConfig {

  /** A rule's weight and its informational match threshold (0.8 = 80%). */
  datatype ScoringRule = ScoringRule(weight: nat, threshold: real)

  datatype Rules = Rules(
    fullNameMatch: ScoringRule,
    dobMatch: ScoringRule,
    ninMatch: ScoringRule,
    bvnMatch: ScoringRule,
    emailMatch: ScoringRule)

  /** Raw-total thresholds: at least `low` is LOW risk, at least `medium` is MEDIUM risk. */
  datatype Thresholds = Thresholds(low: int, medium: int, high: int)

  datatype Config = Config(rules: Rules, thresholds: Thresholds)

  /** The configuration the service ships with. */
  const Shipped: Config := Config(
    Rules(
      ScoringRule(10, 0.8),
      ScoringRule(10, 1.0),
      ScoringRule(15, 1.0),
      ScoringRule(15, 1.0),
      ScoringRule(10, 1.0)),
    Thresholds(70, 40, 0))

  /** The sum of all rule weights, the denominator of the normalised score. */
  function MaxPossibleScore(rules: Rules): (m: nat)
    ensures m >= rules.fullNameMatch.weight && m >= rules.dobMatch.weight && m >= rules.ninMatch.weight
    ensures m >= rules.bvnMatch.weight && m >= rules.emailMatch.weight
  {
    rules.fullNameMatch.weight + rules.dobMatch.weight + rules.ninMatch.weight
      + rules.bvnMatch.weight + rules.emailMatch.weight
  }

  /** Every rule carries a positive weight. */
  predicate AllWeightsPositive(rules: Rules)
  {
    && rules.fullNameMatch.weight > 0
    && rules.dobMatch.weight > 0
    && rules.ninMatch.weight > 0
    && rules.bvnMatch.weight > 0
    && rules.emailMatch.weight > 0
  }

  /** The shipped weights are 10, 10, 15, 15, 10: all positive, with a maximum total of 60. */
  lemma ShippedWeights()
    ensures MaxPossibleScore(Shipped.rules) == 60
    ensures AllWeightsPositive(Shipped.rules)
  {
  }

  /** The shipped thresholds are 70, 40 and 0, ordered LOW > MEDIUM >= HIGH. */
  lemma ShippedThresholds()
    ensures Shipped.thresholds == Thresholds(70, 40, 0)
    ensures Shipped.thresholds.low > Shipped.thresholds.medium >= Shipped.thresholds.high
    ensures Shipped.thresholds.low > MaxPossibleScore(Shipped.rules)
  {
  }
}
