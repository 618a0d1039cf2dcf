/** Severity buckets, their weights and the risk level derived from a weighted
    total: the fixed thresholds the whole analysis shares. */
module Severity {
  import opened HostModel

  /** The four labels `critical`, `high`, `medium` and `low`, used both for a
      finding's severity and for a host's overall risk level. */
  datatype Rating = Critical | High | Medium | Low {
    function Label(): string {
      match this
      case Critical => "critical"
      case High => "high"
      case Medium => "medium"
      case Low => "low"
    }

    /** 3 for critical down to 0 for low. */
    function Rank(): nat {
      match this
      case Critical => 3
      case High => 2
      case Medium => 1
      case Low => 0
    }
  }

  /** The CVSS bucket: 9.0 and above is critical, [7.0, 9.0) high, [4.0, 7.0)
      medium, anything lower low; a boundary value goes to the higher bucket. */
  function SeverityOf(cvss: real): (r: Rating)
    ensures r == Critical <==> cvss >= 9.0
    ensures r == High <==> 7.0 <= cvss < 9.0
    ensures r == Medium <==> 4.0 <= cvss < 7.0
    ensures r == Low <==> cvss < 4.0
  {
    if cvss >= 9.0 then Critical
    else if cvss >= 7.0 then High
    else if cvss >= 4.0 then Medium
    else Low
  }

  /** A higher score never lands in a lower bucket. */
  lemma {:induction false} SeverityMonotone(a: real, b: real)
    requires a <= b
    ensures SeverityOf(a).Rank() <= SeverityOf(b).Rank()
  {
  }

  /** The weight of one finding in a risk score: 10, 7, 4 or 1. */
  function Weight(r: Rating): (w: nat)
    ensures 1 <= w <= 10
    ensures r.Rank() < 3 ==> w < 10
  {
    match r
    case Critical => 10
    case High => 7
    case Medium => 4
    case Low => 1
  }

  /** The `riskScore` counter object `{ low, medium, high, critical }`. */
  datatype RiskCounts = RiskCounts(low: nat, medium: nat, high: nat, critical: nat)

  const NoRisk := RiskCounts(0, 0, 0, 0)

  /** The counters after one more finding of rating `r`. */
  function Bump(c: RiskCounts, r: Rating): RiskCounts {
    match r
    case Critical => c.(critical := c.critical + 1)
    case High => c.(high := c.high + 1)
    case Medium => c.(medium := c.medium + 1)
    case Low => c.(low := c.low + 1)
  }

  /** The four counters added together. */
  function Total(c: RiskCounts): nat {
    c.low + c.medium + c.high + c.critical
  }

  /** Counter-wise sum of two distributions. */
  function Plus(a: RiskCounts, b: RiskCounts): RiskCounts {
    RiskCounts(a.low + b.low, a.medium + b.medium, a.high + b.high, a.critical + b.critical)
  }

  /** The weighted total `critical*10 + high*7 + medium*4 + low*1`. */
  function RiskScore(c: RiskCounts): nat {
    c.critical * 10 + c.high * 7 + c.medium * 4 + c.low
  }

  /** The bucket counts of a vulnerability table. */
  function Tally(t: VulnTable): RiskCounts {
    if t == [] then NoRisk
    else Bump(Tally(t[..|t| - 1]), SeverityOf(Cvss(t[|t| - 1].1)))
  }

  /** The sum of the weights of the entries of a table, one entry at a time. */
  function WeightSum(t: VulnTable): nat {
    if t == [] then 0
    else WeightSum(t[..|t| - 1]) + Weight(SeverityOf(Cvss(t[|t| - 1].1)))
  }

  /** The number of entries of `t` in bucket `r`. */
  function CountRated(t: VulnTable, r: Rating): nat {
    if t == [] then 0
    else CountRated(t[..|t| - 1], r) + (if SeverityOf(Cvss(t[|t| - 1].1)) == r then 1 else 0)
  }

  /** Every entry is counted in exactly one bucket: the counters add up to the
      number of entries, and each counter is the number of entries in its bucket. */
  lemma {:induction false} TallyCounts(t: VulnTable)
    ensures Total(Tally(t)) == |t|
    ensures Tally(t) == RiskCounts(CountRated(t, Low), CountRated(t, Medium),
                                   CountRated(t, High), CountRated(t, Critical))
  {
    if t != [] {
      var p := t[..|t| - 1];
      TallyCounts(p);
      var c := Tally(p);
      assert c == RiskCounts(CountRated(p, Low), CountRated(p, Medium),
                             CountRated(p, High), CountRated(p, Critical));
      match SeverityOf(Cvss(t[|t| - 1].1))
      case Critical =>
      case High =>
      case Medium =>
      case Low =>
    }
  }

  /** The level of a table is the level of its bucket counts weighted 10, 7, 4
      and 1. */
  lemma {:induction false} LevelOfCounts(t: VulnTable)
    ensures RiskLevel(RiskScore(Tally(t)))
      == RiskLevel(10 * CountRated(t, Critical) + 7 * CountRated(t, High)
                   + 4 * CountRated(t, Medium) + CountRated(t, Low))
  {
    TallyCounts(t);
    assert RiskScore(Tally(t)) == 10 * CountRated(t, Critical) + 7 * CountRated(t, High)
                                + 4 * CountRated(t, Medium) + CountRated(t, Low);
  }

  /** Weighting the counters gives the same total as weighting entry by entry. */
  lemma {:induction false} RiskScoreIsWeightSum(t: VulnTable)
    ensures RiskScore(Tally(t)) == WeightSum(t)
  {
    if t != [] {
      RiskScoreIsWeightSum(t[..|t| - 1]);
    }
  }

  /** Every entry weighs at least 1 and at most 10. */
  lemma {:induction false} WeightSumBounds(t: VulnTable)
    ensures |t| <= WeightSum(t) <= 10 * |t|
  {
    if t != [] {
      WeightSumBounds(t[..|t| - 1]);
    }
  }

  /** `calculateRiskLevel`: 50 and above is critical, 30 high, 15 medium, else low. */
  function RiskLevel(score: int): (r: Rating)
    ensures r == Critical <==> score >= 50
    ensures r == High <==> 30 <= score < 50
    ensures r == Medium <==> 15 <= score < 30
    ensures r == Low <==> score < 15
  {
    if score >= 50 then Critical
    else if score >= 30 then High
    else if score >= 15 then Medium
    else Low
  }

  /** A higher total never gives a lower risk level. */
  lemma {:induction false} RiskLevelMonotone(a: int, b: int)
    requires a <= b
    ensures RiskLevel(a).Rank() <= RiskLevel(b).Rank()
  {
  }

  /** Five critical findings alone make a host critical; a host whose every
      finding is low needs fifty of them. */
  lemma {:induction false} FiveCriticalsAreCritical(t: VulnTable)
    requires CountRated(t, Critical) >= 5
    ensures RiskLevel(RiskScore(Tally(t))) == Critical
  {
    TallyCounts(t);
  }
}
