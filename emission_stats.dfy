/**
 * The statistics engine's arithmetic over a list of emission points: totals and extremes,
 * the environmental, health and economic figures derived from the total, the A-F carbon
 * grade and the air-quality label, the comparison against a baseline, and the all-zero
 * record returned for an empty list.
 */
module EmissionStats {
  import opened Common
  import opened Grids

  const KgToTons: real := 0.001
  const CarEmissionsPerDay: real := 4.6
  const TreeCo2Absorption: real := 22.0
  const HealthCostPerTon: real := 150.0
  const ConfidenceScore: real := 0.85

  /** The point values, in order */
  function Values(points: seq<GridPoint>): (vs: seq<real>)
    ensures |vs| == |points| && forall k :: 0 <= k < |points| ==> vs[k] == points[k].value
  {
    seq(|points|, k requires 0 <= k < |points| => points[k].value)
  }

  // ---------------------------------------------------------------------------
  // Basic statistics

  /** `np.sum` */
  function Sum(vs: seq<real>): real
    decreases |vs|
  {
    if |vs| == 0 then 0.0 else Sum(vs[..|vs| - 1]) + vs[|vs| - 1]
  }

  /** `np.min` of a non-empty list */
  function Minimum(vs: seq<real>): (m: real)
    requires |vs| > 0
    ensures forall k :: 0 <= k < |vs| ==> m <= vs[k]
    ensures exists k :: 0 <= k < |vs| && m == vs[k]
    decreases |vs|
  {
    if |vs| == 1 then vs[0]
    else
      var rest := Minimum(vs[..|vs| - 1]);
      Min(rest, vs[|vs| - 1])
  }

  /** `np.max` of a non-empty list */
  function Maximum(vs: seq<real>): (m: real)
    requires |vs| > 0
    ensures forall k :: 0 <= k < |vs| ==> vs[k] <= m
    ensures exists k :: 0 <= k < |vs| && m == vs[k]
    decreases |vs|
  {
    if |vs| == 1 then vs[0]
    else
      var rest := Maximum(vs[..|vs| - 1]);
      Max(rest, vs[|vs| - 1])
  }

  /** `np.mean` of a non-empty list */
  function Mean(vs: seq<real>): real
    requires |vs| > 0
  {
    Sum(vs) / (|vs| as real)
  }

  /** The sum lies between |vs| times any lower bound and |vs| times any upper bound. */
  lemma {:induction false} SumBetween(vs: seq<real>, lo: real, hi: real)
    requires forall k :: 0 <= k < |vs| ==> lo <= vs[k] <= hi
    ensures (|vs| as real) * lo <= Sum(vs) <= (|vs| as real) * hi
    decreases |vs|
  {
    if |vs| > 0 {
      var init := vs[..|vs| - 1];
      SumBetween(init, lo, hi);
      assert (|vs| as real) * lo == (|init| as real) * lo + lo;
      assert (|vs| as real) * hi == (|init| as real) * hi + hi;
    }
  }

  lemma QuotientBetween(s: real, n: real, lo: real, hi: real)
    requires n > 0.0 && n * lo <= s <= n * hi
    ensures lo <= s / n <= hi
  {
    var q := s / n;
    assert s == n * q;
  }

  /** The mean of values within bounds is within the same bounds. */
  lemma MeanBetween(vs: seq<real>, lo: real, hi: real)
    requires |vs| > 0 && forall k :: 0 <= k < |vs| ==> lo <= vs[k] <= hi
    ensures lo <= Mean(vs) <= hi
  {
    SumBetween(vs, lo, hi);
    QuotientBetween(Sum(vs), |vs| as real, lo, hi);
  }

  /** For a non-empty list, min <= mean <= max. */
  lemma MeanBetweenExtremes(vs: seq<real>)
    requires |vs| > 0
    ensures Minimum(vs) <= Mean(vs) <= Maximum(vs)
  {
    MeanBetween(vs, Minimum(vs), Maximum(vs));
  }

  /** The sum of non-negative values is non-negative. */
  lemma {:induction false} SumNonNegative(vs: seq<real>)
    requires forall k :: 0 <= k < |vs| ==> 0.0 <= vs[k]
    ensures Sum(vs) >= 0.0
    decreases |vs|
  {
    if |vs| > 0 {
      SumNonNegative(vs[..|vs| - 1]);
    }
  }

  datatype BasicStats = BasicStats(total: real, mean: real, min: real, max: real, count: nat)

  /** Total, mean, min, max and count of a non-empty list */
  function BasicStatistics(vs: seq<real>): (b: BasicStats)
    requires |vs| > 0
    ensures b.count == |vs| && b.total == Sum(vs)
    ensures b.min <= b.mean <= b.max
    ensures forall k :: 0 <= k < |vs| ==> b.min <= vs[k] <= b.max
  {
    MeanBetweenExtremes(vs);
    BasicStats(Sum(vs), Mean(vs), Minimum(vs), Maximum(vs), |vs|)
  }

  // ---------------------------------------------------------------------------
  // Environmental impact

  /** The A-F grade of a total in tons */
  function CarbonGrade(tons: real): string {
    if tons < 1000.0 then "A"
    else if tons < 5000.0 then "B"
    else if tons < 10000.0 then "C"
    else if tons < 20000.0 then "D"
    else "F"
  }

  /** Position of a grade in the order A, B, C, D, F */
  function GradeRank(g: string): nat {
    if g == "A" then 0 else if g == "B" then 1 else if g == "C" then 2 else if g == "D" then 3 else 4
  }

  /** A larger total never earns a better grade, and every grade is one of the five letters. */
  lemma CarbonGradeMonotone(a: real, b: real)
    ensures CarbonGrade(a) in {"A", "B", "C", "D", "F"}
    ensures a <= b ==> GradeRank(CarbonGrade(a)) <= GradeRank(CarbonGrade(b))
  {
  }

  datatype EnvironmentalImpact = EnvironmentalImpact(co2Tons: real, equivalentCars: int, equivalentTrees: int, carbonScore: string)

  /** Tons, cars-per-day and trees equivalents (truncated toward zero), and the grade of the tons */
  function EnvironmentalImpactOf(vs: seq<real>): (e: EnvironmentalImpact)
    ensures e.co2Tons == Sum(vs) * KgToTons
    ensures e.carbonScore == CarbonGrade(e.co2Tons)
    ensures Sum(vs) >= 0.0 ==> 0 <= e.equivalentCars && (e.equivalentCars as real) * CarEmissionsPerDay <= Sum(vs) < (e.equivalentCars as real + 1.0) * CarEmissionsPerDay
    ensures Sum(vs) >= 0.0 ==>
      0 <= e.equivalentTrees &&
      (e.equivalentTrees as real) * (TreeCo2Absorption / 365.0) <= Sum(vs) < (e.equivalentTrees as real + 1.0) * (TreeCo2Absorption / 365.0)
  {
    var totalKg := Sum(vs);
    var tons := totalKg * KgToTons;
    var cars := Trunc(totalKg / CarEmissionsPerDay);
    var trees := Trunc(totalKg / (TreeCo2Absorption / 365.0));
    EnvironmentalImpact(tons, cars, trees, CarbonGrade(tons))
  }

  // ---------------------------------------------------------------------------
  // Health impact

  /** The air-quality label of a mean value */
  function AqiLabel(mean: real): string {
    if mean < 50.0 then "Good"
    else if mean < 100.0 then "Moderate"
    else if mean < 150.0 then "Unhealthy for Sensitive Groups"
    else if mean < 200.0 then "Unhealthy"
    else "Hazardous"
  }

  function AqiRank(name: string): nat {
    if name == "Good" then 0 else if name == "Moderate" then 1
    else if name == "Unhealthy for Sensitive Groups" then 2 else if name == "Unhealthy" then 3 else 4
  }

  /** The label worsens with the mean, over the five bands. */
  lemma AqiLabelMonotone(a: real, b: real)
    ensures AqiLabel(a) in {"Good", "Moderate", "Unhealthy for Sensitive Groups", "Unhealthy", "Hazardous"}
    ensures a <= b ==> AqiRank(AqiLabel(a)) <= AqiRank(AqiLabel(b))
  {
  }

  datatype HealthImpact = HealthImpact(prematureDeaths: real, asthmaCases: real, aqiRating: string)

  function HealthImpactOf(vs: seq<real>): (h: HealthImpact)
    requires |vs| > 0
    ensures h.prematureDeaths == Sum(vs) * 0.0001 && h.asthmaCases == 10.0 * h.prematureDeaths
    ensures h.aqiRating == AqiLabel(Mean(vs))
  {
    HealthImpact(Sum(vs) * 0.0001, Sum(vs) * 0.001, AqiLabel(Mean(vs)))
  }

  // ---------------------------------------------------------------------------
  // Economic impact

  datatype EconomicImpact = EconomicImpact(healthCosts: real, productivityLoss: real, propertyImpact: real)

  /** 150 dollars per ton; productivity loss 30% and property impact 10% of the health costs */
  function EconomicImpactOf(vs: seq<real>): (e: EconomicImpact)
    ensures e.healthCosts == Sum(vs) * 0.15
    ensures e.productivityLoss == 3.0 * e.propertyImpact && e.productivityLoss + e.propertyImpact == 0.4 * e.healthCosts
  {
    var tons := Sum(vs) * KgToTons;
    var health := tons * HealthCostPerTon;
    EconomicImpact(health, health * 0.3, health * 0.1)
  }

  // ---------------------------------------------------------------------------
  // Comparison with a baseline

  datatype Comparison = Comparison(totalReduction: real, percentReduction: real, improvementScore: real)

  /**
   * Reduction against a baseline, in absolute terms, in percent of the baseline total, and
   * as a score of one point per ten percent; `None` when the baseline total is zero (the
   * division then has no finite result).
   */
  function ComparisonStatistics(current: seq<real>, baseline: seq<real>): (c: Option<Comparison>)
    ensures c.None? <==> Sum(baseline) == 0.0
    ensures c.Some? ==> c.value.totalReduction == Sum(baseline) - Sum(current)
    ensures c.Some? ==> c.value.percentReduction * Sum(baseline) == 100.0 * c.value.totalReduction
    ensures c.Some? ==> c.value.improvementScore * 10.0 == c.value.percentReduction
  {
    var totalReduction := Sum(baseline) - Sum(current);
    if Sum(baseline) == 0.0 then None
    else
      var percent := totalReduction / Sum(baseline) * 100.0;
      Some(Comparison(totalReduction, percent, percent / 10.0))
  }

  /** Equal totals mean no reduction, and a positive baseline above the current total gives a positive score. */
  lemma ComparisonSigns(current: seq<real>, baseline: seq<real>)
    ensures Sum(current) == Sum(baseline) != 0.0 ==> ComparisonStatistics(current, baseline) == Some(Comparison(0.0, 0.0, 0.0))
    ensures Sum(baseline) > Sum(current) && Sum(baseline) > 0.0 ==>
      ComparisonStatistics(current, baseline).value.improvementScore > 0.0
  {
  }

  // ---------------------------------------------------------------------------
  // The whole record

  /** The statistics the model covers (median, spread, percentiles, area and breakdowns are not modelled) */
  datatype EmissionStatistics = EmissionStatistics(
    totalEmissions: real, averageEmissions: real, minEmissions: real, maxEmissions: real,
    confidenceScore: real,
    co2EquivalentTons: real, equivalentCarsPerDay: int, equivalentTreesNeeded: int, carbonFootprintScore: string,
    estimatedPrematureDeaths: real, estimatedAsthmaCases: real, airQualityIndex: string,
    estimatedHealthCosts: real, productivityLoss: real, propertyValueImpact: real)

  /** All zeros, with "N/A" for the grade and the air-quality label */
  function EmptyStats(): (s: EmissionStatistics)
    ensures s.carbonFootprintScore == "N/A" && s.airQualityIndex == "N/A"
    ensures s.totalEmissions == 0.0 && s.equivalentCarsPerDay == 0 && s.estimatedHealthCosts == 0.0
  {
    EmissionStatistics(0.0, 0.0, 0.0, 0.0, 0.0, 0.0, 0, 0, "N/A", 0.0, 0.0, "N/A", 0.0, 0.0, 0.0)
  }

  /**
   * The statistics of a list of points: the empty record for an empty list, otherwise the
   * figures above. A baseline, when given, is compared but its result is not carried into
   * the record.
   */
  function ComprehensiveStats(points: seq<GridPoint>, baseline: Option<seq<GridPoint>>): EmissionStatistics {
    if |points| == 0 then EmptyStats()
    else
      var vs := Values(points);
      var basic := BasicStatistics(vs);
      var env := EnvironmentalImpactOf(vs);
      var health := HealthImpactOf(vs);
      var econ := EconomicImpactOf(vs);
      EmissionStatistics(
        basic.total, basic.mean, basic.min, basic.max, ConfidenceScore,
        env.co2Tons, env.equivalentCars, env.equivalentTrees, env.carbonScore,
        health.prematureDeaths, health.asthmaCases, health.aqiRating,
        econ.healthCosts, econ.productivityLoss, econ.propertyImpact)
  }

  /**
   * Only an empty list gets "N/A" labels; a non-empty one always has a real grade and label,
   * min <= average <= max, and a record that does not depend on the baseline.
   */
  lemma ComprehensiveStatsCases(points: seq<GridPoint>, baseline: Option<seq<GridPoint>>)
    ensures |points| == 0 ==> ComprehensiveStats(points, baseline) == EmptyStats()
    ensures |points| > 0 ==>
      var s := ComprehensiveStats(points, baseline);
      s.carbonFootprintScore != "N/A" && s.airQualityIndex != "N/A" &&
      s.minEmissions <= s.averageEmissions <= s.maxEmissions &&
      s.totalEmissions == Sum(Values(points)) &&
      s == ComprehensiveStats(points, None)
    ensures |points| > 0 && (forall k :: 0 <= k < |points| ==> points[k].value >= 0.0) ==>
      ComprehensiveStats(points, baseline).estimatedHealthCosts >= 0.0
  {
    if |points| > 0 {
      CarbonGradeMonotone(Sum(Values(points)) * KgToTons, 0.0);
      AqiLabelMonotone(Mean(Values(points)), 0.0);
      if forall k :: 0 <= k < |points| ==> points[k].value >= 0.0 {
        SumNonNegative(Values(points));
      }
    }
  }
}
