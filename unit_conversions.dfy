/**
 * Unit constants for the mixed imperial/metric source data, the linear converters,
 * and the classifier that guesses a column's unit from its name.
 */
module UnitConversions {
  import opened Common

  // Length, area and energy factors (only those the model uses)
  const MilesToKm: real := 1.609344
  const SqFtToSqM: real := 0.09290304
  const KbtuToKwh: real := 0.293071
  const NycGridKgCo2PerKwh: real := 0.35

  /** The four fuel types that have a per-distance emissions factor */
  const Fuels: seq<string> := ["gasoline", "diesel", "hybrid", "electric"]

  /** EPA factors in kg CO2 per mile */
  const EmissionsFactorsImperial: map<string, real> := map[
    "gasoline_kg_co2_per_mile" := 0.39,
    "diesel_kg_co2_per_mile" := 0.41,
    "hybrid_kg_co2_per_mile" := 0.22,
    "electric_kg_co2_per_mile" := 0.15
  ]

  /** The same factors in kg CO2 per km */
  const EmissionsFactorsMetric: map<string, real> := map[
    "gasoline_kg_co2_per_km" := 0.39 / MilesToKm,
    "diesel_kg_co2_per_km" := 0.41 / MilesToKm,
    "hybrid_kg_co2_per_km" := 0.22 / MilesToKm,
    "electric_kg_co2_per_km" := 0.15 / MilesToKm
  ]

  function ConvertVmtToVkt(miles: real): real { miles * MilesToKm }

  function ConvertKbtuToKwh(kbtu: real): real { kbtu * KbtuToKwh }

  function ConvertSqFtToSqM(sqFt: real): real { sqFt * SqFtToSqM }

  /** Dividing by the mile length undoes the per-distance scaling. */
  function ConvertEmissionsPerMileToPerKm(kgPerMile: real): (r: real)
    ensures r * MilesToKm == kgPerMile
    ensures kgPerMile > 0.0 ==> 0.0 < r < kgPerMile
  {
    kgPerMile / MilesToKm
  }

  /** The three multiplicative converters are linear, strictly increasing and fix zero. */
  lemma ConvertersLinearMonotone(a: real, b: real, x: real, y: real)
    ensures ConvertVmtToVkt(a * x + b * y) == a * ConvertVmtToVkt(x) + b * ConvertVmtToVkt(y)
    ensures ConvertKbtuToKwh(a * x + b * y) == a * ConvertKbtuToKwh(x) + b * ConvertKbtuToKwh(y)
    ensures ConvertSqFtToSqM(a * x + b * y) == a * ConvertSqFtToSqM(x) + b * ConvertSqFtToSqM(y)
    ensures x < y ==> ConvertVmtToVkt(x) < ConvertVmtToVkt(y)
    ensures x < y ==> ConvertKbtuToKwh(x) < ConvertKbtuToKwh(y)
    ensures x < y ==> ConvertSqFtToSqM(x) < ConvertSqFtToSqM(y)
    ensures ConvertVmtToVkt(0.0) == 0.0 && ConvertKbtuToKwh(0.0) == 0.0 && ConvertSqFtToSqM(0.0) == 0.0
  {
  }

  lemma GasolineFactorConverted(f: string)
    requires f == "gasoline"
    ensures f + "_kg_co2_per_mile" in EmissionsFactorsImperial && f + "_kg_co2_per_km" in EmissionsFactorsMetric
    ensures EmissionsFactorsMetric[f + "_kg_co2_per_km"] ==
      ConvertEmissionsPerMileToPerKm(EmissionsFactorsImperial[f + "_kg_co2_per_mile"])
  {
    assert f + "_kg_co2_per_mile" == "gasoline_kg_co2_per_mile";
    assert f + "_kg_co2_per_km" == "gasoline_kg_co2_per_km";
  }

  lemma DieselFactorConverted(f: string)
    requires f == "diesel"
    ensures f + "_kg_co2_per_mile" in EmissionsFactorsImperial && f + "_kg_co2_per_km" in EmissionsFactorsMetric
    ensures EmissionsFactorsMetric[f + "_kg_co2_per_km"] ==
      ConvertEmissionsPerMileToPerKm(EmissionsFactorsImperial[f + "_kg_co2_per_mile"])
  {
    assert f + "_kg_co2_per_mile" == "diesel_kg_co2_per_mile";
    assert f + "_kg_co2_per_km" == "diesel_kg_co2_per_km";
  }

  lemma HybridFactorConverted(f: string)
    requires f == "hybrid"
    ensures f + "_kg_co2_per_mile" in EmissionsFactorsImperial && f + "_kg_co2_per_km" in EmissionsFactorsMetric
    ensures EmissionsFactorsMetric[f + "_kg_co2_per_km"] ==
      ConvertEmissionsPerMileToPerKm(EmissionsFactorsImperial[f + "_kg_co2_per_mile"])
  {
    assert f + "_kg_co2_per_mile" == "hybrid_kg_co2_per_mile";
    assert f + "_kg_co2_per_km" == "hybrid_kg_co2_per_km";
  }

  lemma ElectricFactorConverted(f: string)
    requires f == "electric"
    ensures f + "_kg_co2_per_mile" in EmissionsFactorsImperial && f + "_kg_co2_per_km" in EmissionsFactorsMetric
    ensures EmissionsFactorsMetric[f + "_kg_co2_per_km"] ==
      ConvertEmissionsPerMileToPerKm(EmissionsFactorsImperial[f + "_kg_co2_per_mile"])
  {
    assert f + "_kg_co2_per_mile" == "electric_kg_co2_per_mile";
    assert f + "_kg_co2_per_km" == "electric_kg_co2_per_km";
  }

  /** The factors of one fuel, looked up under their two key spellings */
  lemma FuelFactorConverted(f: string)
    requires f in Fuels
    ensures f + "_kg_co2_per_mile" in EmissionsFactorsImperial && f + "_kg_co2_per_km" in EmissionsFactorsMetric
    ensures EmissionsFactorsMetric[f + "_kg_co2_per_km"] ==
      ConvertEmissionsPerMileToPerKm(EmissionsFactorsImperial[f + "_kg_co2_per_mile"])
  {
    if f == "gasoline" {
      GasolineFactorConverted(f);
    } else if f == "diesel" {
      DieselFactorConverted(f);
    } else if f == "hybrid" {
      HybridFactorConverted(f);
    } else {
      ElectricFactorConverted(f);
    }
  }

  /** Every metric factor is its imperial counterpart divided by the mile length. */
  lemma MetricFactorsAreConverted()
    ensures forall f :: f in Fuels ==>
      f + "_kg_co2_per_mile" in EmissionsFactorsImperial && f + "_kg_co2_per_km" in EmissionsFactorsMetric &&
      EmissionsFactorsMetric[f + "_kg_co2_per_km"] == ConvertEmissionsPerMileToPerKm(EmissionsFactorsImperial[f + "_kg_co2_per_mile"])
  {
    forall f | f in Fuels
      ensures f + "_kg_co2_per_mile" in EmissionsFactorsImperial && f + "_kg_co2_per_km" in EmissionsFactorsMetric &&
        EmissionsFactorsMetric[f + "_kg_co2_per_km"] == ConvertEmissionsPerMileToPerKm(EmissionsFactorsImperial[f + "_kg_co2_per_mile"])
    {
      FuelFactorConverted(f);
    }
  }

  // ---------------------------------------------------------------------------
  // Column-name classifier

  /** The seven labels the classifier can answer */
  const UnitLabels: set<string> := {"kbtu", "kwh", "sq_ft", "sq_m", "miles", "km", "unknown"}

  /** Every substring the classifier looks for, in the order it tests them */
  const UnitMarkers: seq<string> := [
    "kbtu", "btu", "kwh", "kilowatt", "sq_ft", "sqft", "_ft", "sq_m", "sqm", "_m2",
    "mile", "vmt", "km", "kilometer", "vkt"
  ]

  function DetectUnit(columnName: string): (u: string)
    ensures u in UnitLabels
  {
    var c := Lower(columnName);
    if Contains(c, "kbtu") || Contains(c, "btu") then "kbtu"
    else if Contains(c, "kwh") || Contains(c, "kilowatt") then "kwh"
    else if Contains(c, "sq_ft") || Contains(c, "sqft") || Contains(c, "_ft") then "sq_ft"
    else if Contains(c, "sq_m") || Contains(c, "sqm") || Contains(c, "_m2") then "sq_m"
    else if Contains(c, "mile") || Contains(c, "vmt") then "miles"
    else if Contains(c, "km") || Contains(c, "kilometer") || Contains(c, "vkt") then "km"
    else "unknown"
  }

  /** Only the lower-cased name matters. */
  lemma DetectUnitCaseInsensitive(columnName: string)
    ensures DetectUnit(columnName) == DetectUnit(Lower(columnName))
  {
    LowerIdempotent(columnName);
  }

  /**
   * The tests are ordered: "btu" anywhere wins over every later marker, and a name falls
   * through to the kWh and square-foot labels only when all earlier tests fail.
   * ("kbtu" and "sq_ft" are redundant tests: they contain "btu" and "_ft".)
   */
  lemma DetectUnitPrecedence(columnName: string)
    ensures DetectUnit(columnName) == "kbtu" <==> Contains(Lower(columnName), "btu")
    ensures DetectUnit(columnName) == "kwh" <==>
      !Contains(Lower(columnName), "btu") &&
      (Contains(Lower(columnName), "kwh") || Contains(Lower(columnName), "kilowatt"))
    ensures DetectUnit(columnName) == "sq_ft" <==>
      !Contains(Lower(columnName), "btu") && !Contains(Lower(columnName), "kwh") &&
      !Contains(Lower(columnName), "kilowatt") &&
      (Contains(Lower(columnName), "sqft") || Contains(Lower(columnName), "_ft"))
  {
    RedundantMarkers(Lower(columnName));
  }

  /** "kbtu" contains "btu" and "sq_ft" contains "_ft", so the longer tests add nothing. */
  lemma RedundantMarkers(c: string)
    ensures Contains(c, "kbtu") ==> Contains(c, "btu")
    ensures Contains(c, "sq_ft") ==> Contains(c, "_ft")
  {
    assert Contains("btu", "btu");
    assert Contains("kbtu", "btu");
    assert Contains("_ft", "_ft");
    assert Contains("q_ft", "_ft");
    assert Contains("sq_ft", "_ft");
    if Contains(c, "kbtu") {
      ContainsTransitive(c, "kbtu", "btu");
    }
    if Contains(c, "sq_ft") {
      ContainsTransitive(c, "sq_ft", "_ft");
    }
  }

  /** None of the markers of the energy and square-foot tests occurs */
  predicate NoEnergyOrFootMarker(c: string) {
    !Contains(c, "btu") && !Contains(c, "kwh") && !Contains(c, "kilowatt") &&
    !Contains(c, "sqft") && !Contains(c, "_ft")
  }

  /**
   * The remaining labels: square metres, miles and kilometres are each returned exactly when
   * one of their markers occurs and every earlier test's markers are absent.
   */
  lemma DetectUnitLaterPrecedence(columnName: string)
    ensures var c := Lower(columnName);
      DetectUnit(columnName) == "sq_m" <==>
        NoEnergyOrFootMarker(c) && (Contains(c, "sq_m") || Contains(c, "sqm") || Contains(c, "_m2"))
    ensures var c := Lower(columnName);
      DetectUnit(columnName) == "miles" <==>
        NoEnergyOrFootMarker(c) && !Contains(c, "sq_m") && !Contains(c, "sqm") && !Contains(c, "_m2") &&
        (Contains(c, "mile") || Contains(c, "vmt"))
    ensures var c := Lower(columnName);
      DetectUnit(columnName) == "km" <==>
        NoEnergyOrFootMarker(c) && !Contains(c, "sq_m") && !Contains(c, "sqm") && !Contains(c, "_m2") &&
        !Contains(c, "mile") && !Contains(c, "vmt") &&
        (Contains(c, "km") || Contains(c, "kilometer") || Contains(c, "vkt"))
  {
    RedundantMarkers(Lower(columnName));
  }

  /** An "unknown" answer means every test failed. */
  lemma UnknownHasNoMarker(columnName: string)
    requires DetectUnit(columnName) == "unknown"
    ensures forall t :: t in UnitMarkers ==> !Contains(Lower(columnName), t)
  {
    forall t | t in UnitMarkers
      ensures !Contains(Lower(columnName), t)
    {
      var k :| 0 <= k < |UnitMarkers| && UnitMarkers[k] == t;
      assert k < 15;
    }
  }

  /** Any other answer was produced by a marker that occurs. */
  lemma KnownHasMarker(columnName: string)
    requires DetectUnit(columnName) != "unknown"
    ensures exists t :: t in UnitMarkers && Contains(Lower(columnName), t)
  {
    assert "kbtu" in UnitMarkers && "btu" in UnitMarkers && "kwh" in UnitMarkers;
    assert "kilowatt" in UnitMarkers && "sq_ft" in UnitMarkers && "sqft" in UnitMarkers;
    assert "_ft" in UnitMarkers && "sq_m" in UnitMarkers && "sqm" in UnitMarkers;
    assert "_m2" in UnitMarkers && "mile" in UnitMarkers && "vmt" in UnitMarkers;
    assert "km" in UnitMarkers && "kilometer" in UnitMarkers && "vkt" in UnitMarkers;
  }

  /** The answer is "unknown" exactly when none of the markers occurs. */
  lemma DetectUnitUnknown(columnName: string)
    ensures DetectUnit(columnName) == "unknown" <==>
      forall t :: t in UnitMarkers ==> !Contains(Lower(columnName), t)
  {
    if DetectUnit(columnName) == "unknown" {
      UnknownHasNoMarker(columnName);
    } else {
      KnownHasMarker(columnName);
    }
  }
}
