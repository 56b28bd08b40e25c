/**
 * The risk scorer of the KYC service (calculateRiskScore in
 * src/services/kycService.ts): five match booleans become per-rule
 * contributions, a normalised 0..100 score and a LOW/MEDIUM/HIGH level.
 * The configuration is a parameter; `RiskScoringConfig.Shipped` is the one in use.
 */
module RiskScorer {
  import opened RiskScoringConfig

  /** The external verifier's all-or-nothing match outcome. */
  datatype VerificationResult = VerificationResult(
    fullNameMatch: bool,
    dobMatch: bool,
    ninMatch: bool,
    bvnMatch: bool,
    emailMatch: bool)

  datatype Level = Low | Medium | High

  /** Per-rule contributions, in the order the source lists them. */
  datatype Details = Details(
    fullNameMatch: nat,
    dobMatch: nat,
    ninMatch: nat,
    bvnMatch: nat,
    emailMatch: nat)

  datatype RiskScore = RiskScore(score: int, level: Level, details: Details)

  /** A rule's contribution: its whole weight when matched, nothing otherwise. */
  function Contribution(matched: bool, rule: ScoringRule): nat
  {
    if matched then rule.weight else 0
  }

  function ScoreDetails(rules: Rules, r: VerificationResult): Details
  {
    Details(
      Contribution(r.fullNameMatch, rules.fullNameMatch),
      Contribution(r.dobMatch, rules.dobMatch),
      Contribution(r.ninMatch, rules.ninMatch),
      Contribution(r.bvnMatch, rules.bvnMatch),
      Contribution(r.emailMatch, rules.emailMatch))
  }

  /** The raw total: the sum of the contributions. */
  function Total(d: Details): nat
  {
    d.fullNameMatch + d.dobMatch + d.ninMatch + d.bvnMatch + d.emailMatch
  }

  /**
   * `Math.round(num / den)` for a positive denominator: the nearest integer,
   * halves rounded up.
   */
  function RoundHalfUp(num: int, den: int): (r: int)
    requires den > 0
    ensures den * (2 * r - 1) <= 2 * num < den * (2 * r + 1)
  {
    var q := (2 * num + den) / (2 * den);
    var rem := (2 * num + den) % (2 * den);
    assert 2 * num + den == 2 * den * q + rem;
    assert den * (2 * q - 1) == 2 * den * q - den;
    assert den * (2 * q + 1) == 2 * den * q + den;
    q
  }

  /** The level read off the RAW total (not the normalised score). */
  function LevelFor(total: int, t: Thresholds): Level
  {
    if total >= t.low then Low
    else if total >= t.medium then Medium
    else High
  }

  function LevelRank(l: Level): nat
  {
    match l
    case Low => 0
    case Medium => 1
    case High => 2
  }

  /** `calculateRiskScore`. */
  function CalculateRiskScore(cfg: Config, r: VerificationResult): (rs: RiskScore)
    requires MaxPossibleScore(cfg.rules) > 0
    ensures rs.details == ScoreDetails(cfg.rules, r)
    ensures 0 <= rs.score <= 100
    ensures Total(rs.details) <= MaxPossibleScore(cfg.rules)
  {
    var details := ScoreDetails(cfg.rules, r);
    var total := Total(details);
    var m := MaxPossibleScore(cfg.rules);
    var score := RoundHalfUp(100 * total, m);
    RoundedScoreBounds(total, m);
    RiskScore(score, LevelFor(total, cfg.thresholds), details)
  }

  lemma MulMonotone(m: int, a: int, b: int)
    requires m > 0 && a <= b
    ensures m * a <= m * b
  {
  }

  /** The rounded percentage of a total between 0 and its maximum is the nearest integer and lies in 0..100. */
  lemma RoundedScoreBounds(total: int, m: int)
    requires 0 <= total <= m && m > 0
    ensures var s := RoundHalfUp(100 * total, m);
      0 <= s <= 100 && m * (2 * s - 1) <= 200 * total < m * (2 * s + 1)
  {
    var s := RoundHalfUp(100 * total, m);
    if s > 100 {
      MulMonotone(m, 201, 2 * s - 1);
    }
    if s < 0 {
      MulMonotone(m, 2 * s + 1, -1);
    }
  }

  /** Dividing a larger numerator by the same positive denominator never rounds lower. */
  lemma RoundHalfUpMonotone(a: int, b: int, den: int)
    requires den > 0 && a <= b
    ensures RoundHalfUp(a, den) <= RoundHalfUp(b, den)
  {
    var ra := RoundHalfUp(a, den);
    var rb := RoundHalfUp(b, den);
    if ra > rb {
      MulMonotone(den, 2 * rb + 1, 2 * ra - 1);
    }
  }

  /** Each rule contributes exactly its configured weight when matched, and 0 otherwise. */
  lemma ContributionIsWeightOrZero(cfg: Config, r: VerificationResult)
    requires MaxPossibleScore(cfg.rules) > 0
    ensures var d := CalculateRiskScore(cfg, r).details;
      && d.fullNameMatch == (if r.fullNameMatch then cfg.rules.fullNameMatch.weight else 0)
      && d.dobMatch == (if r.dobMatch then cfg.rules.dobMatch.weight else 0)
      && d.ninMatch == (if r.ninMatch then cfg.rules.ninMatch.weight else 0)
      && d.bvnMatch == (if r.bvnMatch then cfg.rules.bvnMatch.weight else 0)
      && d.emailMatch == (if r.emailMatch then cfg.rules.emailMatch.weight else 0)
  {
  }

  /** Pointwise order on match results: every match of `r1` is also a match of `r2`. */
  predicate MatchesAtMost(r1: VerificationResult, r2: VerificationResult)
  {
    && (r1.fullNameMatch ==> r2.fullNameMatch)
    && (r1.dobMatch ==> r2.dobMatch)
    && (r1.ninMatch ==> r2.ninMatch)
    && (r1.bvnMatch ==> r2.bvnMatch)
    && (r1.emailMatch ==> r2.emailMatch)
  }

  /**
   * More matches never lower the score and never raise the level's risk
   * (given LOW's threshold is not below MEDIUM's).
   */
  lemma ScoreMonotone(cfg: Config, r1: VerificationResult, r2: VerificationResult)
    requires MaxPossibleScore(cfg.rules) > 0
    requires MatchesAtMost(r1, r2)
    ensures CalculateRiskScore(cfg, r1).score <= CalculateRiskScore(cfg, r2).score
    ensures cfg.thresholds.low >= cfg.thresholds.medium ==>
      LevelRank(CalculateRiskScore(cfg, r2).level) <= LevelRank(CalculateRiskScore(cfg, r1).level)
  {
    var t1 := Total(ScoreDetails(cfg.rules, r1));
    var t2 := Total(ScoreDetails(cfg.rules, r2));
    RoundHalfUpMonotone(100 * t1, 100 * t2, MaxPossibleScore(cfg.rules));
  }

  const AllMatched := VerificationResult(true, true, true, true, true)
  const NoneMatched := VerificationResult(false, false, false, false, false)

  /** All rules matched gives 100; none matched gives 0. */
  lemma ScoreExtremes(cfg: Config)
    requires MaxPossibleScore(cfg.rules) > 0
    ensures CalculateRiskScore(cfg, AllMatched).score == 100
    ensures CalculateRiskScore(cfg, NoneMatched).score == 0
  {
    var m := MaxPossibleScore(cfg.rules);
    RoundWhole(m);
    assert Total(ScoreDetails(cfg.rules, AllMatched)) == m;
    assert CalculateRiskScore(cfg, AllMatched).score == RoundHalfUp(100 * m, m);
    assert Total(ScoreDetails(cfg.rules, NoneMatched)) == 0;
    assert CalculateRiskScore(cfg, NoneMatched).score == RoundHalfUp(0, m);
  }

  /** The whole maximum rounds to 100 percent and nothing to 0 percent. */
  lemma RoundWhole(m: int)
    requires m > 0
    ensures RoundHalfUp(100 * m, m) == 100
    ensures RoundHalfUp(0, m) == 0
  {
    var s := RoundHalfUp(100 * m, m);
    if s >= 101 {
      MulMonotone(m, 201, 2 * s - 1);
    } else if s <= 99 {
      MulMonotone(m, 2 * s + 1, 199);
    }
    var z := RoundHalfUp(0, m);
    if z >= 1 {
      MulMonotone(m, 1, 2 * z - 1);
    } else if z <= -1 {
      MulMonotone(m, 2 * z + 1, -1);
    }
  }

  /** Name, date of birth and NIN matched: total 35, score 58, and (raw 35 < 40) level HIGH. */
  lemma ShippedExample()
    ensures var rs := CalculateRiskScore(Shipped, VerificationResult(true, true, true, false, false));
      Total(rs.details) == 35 && rs.score == 58 && rs.level == High
  {
  }

  /**
   * With the shipped configuration LOW is unreachable (its threshold 70 exceeds
   * the maximum raw total 60), and a fully matched submission is MEDIUM.
   */
  lemma ShippedLowUnreachable(r: VerificationResult)
    ensures CalculateRiskScore(Shipped, r).level != Low
    ensures CalculateRiskScore(Shipped, AllMatched).level == Medium
  {
    ShippedWeights();
  }

  /** The per-rule `threshold` fields do not influence the result: only weights and level thresholds do. */
  lemma RuleThresholdsUnused(cfg1: Config, cfg2: Config, r: VerificationResult)
    requires MaxPossibleScore(cfg1.rules) > 0
    requires cfg1.thresholds == cfg2.thresholds
    requires cfg1.rules.fullNameMatch.weight == cfg2.rules.fullNameMatch.weight
    requires cfg1.rules.dobMatch.weight == cfg2.rules.dobMatch.weight
    requires cfg1.rules.ninMatch.weight == cfg2.rules.ninMatch.weight
    requires cfg1.rules.bvnMatch.weight == cfg2.rules.bvnMatch.weight
    requires cfg1.rules.emailMatch.weight == cfg2.rules.emailMatch.weight
    ensures MaxPossibleScore(cfg2.rules) > 0
    ensures CalculateRiskScore(cfg1, r) == CalculateRiskScore(cfg2, r)
  {
  }

  /** `Object.entries(details)`: rule names with their contributions, in declaration order. */
  function Entries(d: Details): seq<(string, nat)>
  {
    [("fullNameMatch", d.fullNameMatch), ("dobMatch", d.dobMatch), ("ninMatch", d.ninMatch),
     ("bvnMatch", d.bvnMatch), ("emailMatch", d.emailMatch)]
  }

  /** An entry's name when its contribution is 0. */
  function ListedIfZero(x: (string, nat)): seq<string>
  {
    if x.1 == 0 then [x.0] else []
  }

  /** `.filter(([_, score]) => score === 0).map(([factor]) => factor)` */
  function ZeroEntryNames(entries: seq<(string, nat)>): (names: seq<string>)
    ensures |names| <= |entries|
  {
    if entries == [] then [] else ListedIfZero(entries[0]) + ZeroEntryNames(entries[1..])
  }

  /** The risk factors recorded with a submission. */
  function RiskFactorNames(d: Details): seq<string>
  {
    ZeroEntryNames(Entries(d))
  }

  /** Reference definition: the names of the rules that did not match, in declaration order. */
  function FailedRuleNames(r: VerificationResult): seq<string>
  {
    (if r.fullNameMatch then [] else ["fullNameMatch"])
      + ((if r.dobMatch then [] else ["dobMatch"])
      + ((if r.ninMatch then [] else ["ninMatch"])
      + ((if r.bvnMatch then [] else ["bvnMatch"])
      + (if r.emailMatch then [] else ["emailMatch"]))))
  }

  /**
   * Reference definition for any weights: the names of the rules that added
   * nothing to the total, because they did not match or weigh 0, in
   * declaration order.
   */
  function UnscoredRuleNames(rules: Rules, r: VerificationResult): seq<string>
  {
    (if r.fullNameMatch && rules.fullNameMatch.weight > 0 then [] else ["fullNameMatch"])
      + ((if r.dobMatch && rules.dobMatch.weight > 0 then [] else ["dobMatch"])
      + ((if r.ninMatch && rules.ninMatch.weight > 0 then [] else ["ninMatch"])
      + ((if r.bvnMatch && rules.bvnMatch.weight > 0 then [] else ["bvnMatch"])
      + (if r.emailMatch && rules.emailMatch.weight > 0 then [] else ["emailMatch"]))))
  }

  lemma ZeroEntryNamesFrom(s: seq<(string, nat)>, k: nat)
    requires k < |s|
    ensures ZeroEntryNames(s[k..]) == ListedIfZero(s[k]) + ZeroEntryNames(s[k + 1..])
  {
    assert s[k..][1..] == s[k + 1..];
  }

  /** The filter over five entries, spelled out entry by entry. */
  lemma ZeroEntryNamesOfFive(s: seq<(string, nat)>)
    requires |s| == 5
    ensures ZeroEntryNames(s) ==
      ListedIfZero(s[0]) + (ListedIfZero(s[1]) + (ListedIfZero(s[2]) + (ListedIfZero(s[3]) + ListedIfZero(s[4]))))
  {
    assert s[5..] == [];
    assert ListedIfZero(s[4]) + [] == ListedIfZero(s[4]);
    ZeroEntryNamesFrom(s, 4);
    ZeroEntryNamesFrom(s, 3);
    ZeroEntryNamesFrom(s, 2);
    ZeroEntryNamesFrom(s, 1);
    ZeroEntryNamesFrom(s, 0);
    assert s[0..] == s;
  }

  /** The recorded risk factors are exactly the rules that scored nothing, in declaration order. */
  lemma RiskFactorsAreUnscoredRules(rules: Rules, r: VerificationResult)
    ensures RiskFactorNames(ScoreDetails(rules, r)) == UnscoredRuleNames(rules, r)
  {
    ZeroEntryNamesOfFive(Entries(ScoreDetails(rules, r)));
  }

  /**
   * When every weight is positive, the recorded risk factors are exactly the
   * failed rules, in the order fullNameMatch, dobMatch, ninMatch, bvnMatch, emailMatch.
   */
  lemma RiskFactorsAreFailedRules(rules: Rules, r: VerificationResult)
    requires AllWeightsPositive(rules)
    ensures RiskFactorNames(ScoreDetails(rules, r)) == FailedRuleNames(r)
  {
    RiskFactorsAreUnscoredRules(rules, r);
  }

  /** Each rule's name is among the failed rules exactly when that rule did not match. */
  lemma FailedRuleNamesMembers(r: VerificationResult)
    ensures var f := FailedRuleNames(r);
      && ("fullNameMatch" in f <==> !r.fullNameMatch)
      && ("dobMatch" in f <==> !r.dobMatch)
      && ("ninMatch" in f <==> !r.ninMatch)
      && ("bvnMatch" in f <==> !r.bvnMatch)
      && ("emailMatch" in f <==> !r.emailMatch)
  {
    assert |"fullNameMatch"| == 13 && |"emailMatch"| == 10;
    assert |"dobMatch"| == 8 && |"ninMatch"| == 8 && |"bvnMatch"| == 8;
    assert "dobMatch"[0] == 'd' && "ninMatch"[0] == 'n' && "bvnMatch"[0] == 'b';
  }

  /** With the shipped weights a rule is listed as a risk factor if and only if it did not match. */
  lemma ShippedRiskFactorsIffUnmatched(r: VerificationResult)
    ensures var f := RiskFactorNames(ScoreDetails(Shipped.rules, r));
      && ("fullNameMatch" in f <==> !r.fullNameMatch)
      && ("dobMatch" in f <==> !r.dobMatch)
      && ("ninMatch" in f <==> !r.ninMatch)
      && ("bvnMatch" in f <==> !r.bvnMatch)
      && ("emailMatch" in f <==> !r.emailMatch)
  {
    ShippedWeights();
    RiskFactorsAreFailedRules(Shipped.rules, r);
    FailedRuleNamesMembers(r);
  }

  /**
   * Any rule with weight 0 is listed as a risk factor even when it matched:
   * the filter reads the contribution, not the match.
   */
  lemma ZeroWeightRuleAlwaysListed(rules: Rules, r: VerificationResult)
    ensures var f := RiskFactorNames(ScoreDetails(rules, r));
      && (rules.fullNameMatch.weight == 0 ==> "fullNameMatch" in f)
      && (rules.dobMatch.weight == 0 ==> "dobMatch" in f)
      && (rules.ninMatch.weight == 0 ==> "ninMatch" in f)
      && (rules.bvnMatch.weight == 0 ==> "bvnMatch" in f)
      && (rules.emailMatch.weight == 0 ==> "emailMatch" in f)
  {
    RiskFactorsAreUnscoredRules(rules, r);
  }
}
