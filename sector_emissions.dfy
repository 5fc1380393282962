/**
 * The data loader's sector calculators: each turns an intervention into a baseline, a
 * reduced level and the savings, from cached reference data (kept here as plain values:
 * ordered tables for dicts that are iterated, `Option` for entries that may be missing),
 * and the extraction of map points for a sector.
 */
module SectorEmissions {
  import opened Common
  import UnitConversions
  import EmissionsGrid

  /** The intervention keys the calculators read; each may be absent */
  datatype Intervention = Intervention(
    reductionPercent: Option<real>, direction: Option<string>, description: Option<string>,
    specificLocation: Option<string>, borough: Option<string>, subsector: Option<string>,
    magnitudePercent: Option<real>)

  /**
   * One calculator's answer. Every sector but nature reports a direction and whether it is
   * an increase; the energy calculator also reports the annual MWh, nature the trees planted.
   */
  datatype SectorResult = SectorResult(
    baseline: real, reduced: real, savings: real, percentageReduction: real,
    direction: Option<string>, isIncrease: Option<bool>,
    annualMwh: Option<real>, treesPlanted: Option<real>)

  const DefaultPercent: real := 20.0
  const DefaultDirection: string := "decrease"

  // ---------------------------------------------------------------------------
  // The reduction step every calculator ends with

  /** `reduced = baseline * (1 - pct/100)`, `savings = baseline - reduced`, direction reported as given */
  function Reduce(baseline: real, iv: Intervention): (r: SectorResult)
    ensures r.baseline == baseline
    ensures r.savings == baseline * iv.reductionPercent.GetOr(DefaultPercent) / 100.0
    ensures r.reduced + r.savings == baseline
    ensures r.percentageReduction == Abs(iv.reductionPercent.GetOr(DefaultPercent)) && r.percentageReduction >= 0.0
    ensures r.direction == Some(iv.direction.GetOr(DefaultDirection))
    ensures r.isIncrease == Some(iv.direction == Some("increase"))
    ensures r.annualMwh.None? && r.treesPlanted.None?
  {
    var pct := iv.reductionPercent.GetOr(DefaultPercent);
    var reduced := baseline * (1.0 - pct / 100.0);
    var direction := iv.direction.GetOr(DefaultDirection);
    SectorResult(baseline, reduced, baseline - reduced, Abs(pct), Some(direction),
      Some(direction == "increase"), None, None)
  }

  /**
   * Without a stated percentage the reduction is 20%; a negative percentage (an increase)
   * raises the level, a percentage in [0, 100] keeps it between 0 and the baseline.
   */
  lemma ReduceDefaults(baseline: real, iv: Intervention)
    ensures iv.reductionPercent.None? ==> Reduce(baseline, iv).reduced == baseline * 0.8
    ensures iv.direction.None? ==> Reduce(baseline, iv).isIncrease == Some(false)
    ensures baseline > 0.0 && iv.reductionPercent.GetOr(DefaultPercent) < 0.0 ==>
      Reduce(baseline, iv).reduced > baseline
    ensures baseline >= 0.0 && 0.0 <= iv.reductionPercent.GetOr(DefaultPercent) <= 100.0 ==>
      0.0 <= Reduce(baseline, iv).reduced <= baseline
  {
    var pct := iv.reductionPercent.GetOr(DefaultPercent);
    if baseline >= 0.0 && 0.0 <= pct <= 100.0 {
      var f := 1.0 - pct / 100.0;
      assert 0.0 <= f <= 1.0;
      assert 0.0 <= baseline * f <= baseline * 1.0;
    }
  }

  // ---------------------------------------------------------------------------
  // Aviation

  /** An airport's operations record; missing shares take the stated defaults */
  datatype AirportOps = AirportOps(
    annualOperations: Option<real>, narrowBody: Option<real>, wideBody: Option<real>, regional: Option<real>)

  /** kg CO2 per landing-takeoff cycle by aircraft class */
  datatype LtoCycle = LtoCycle(narrowBodyKg: Option<real>, wideBodyKg: Option<real>, regionalJetKg: Option<real>)

  const Jfk: string := "JFK"
  const LaGuardia: string := "LaGuardia"

  /**
   * Which airports an intervention targets: JFK if "jfk" appears in the location or the
   * description, else LaGuardia if "laguardia" appears in either or "lga" in the
   * description, else both.
   */
  function TargetAirports(iv: Intervention): (ts: seq<string>)
    ensures ts == [Jfk] || ts == [LaGuardia] || ts == [Jfk, LaGuardia]
  {
    var location := Lower(iv.specificLocation.GetOr(""));
    var description := Lower(iv.description.GetOr(""));
    if Contains(location, "jfk") || Contains(description, "jfk") then [Jfk]
    else if Contains(location, "laguardia") || Contains(description, "lga") || Contains(description, "laguardia") then [LaGuardia]
    else [Jfk, LaGuardia]
  }

  /** The three targeting cases, in order of precedence */
  lemma TargetAirportsCases(iv: Intervention)
    ensures Jfk in TargetAirports(iv) <==>
      !(Contains(Lower(iv.specificLocation.GetOr("")), "laguardia") ||
        Contains(Lower(iv.description.GetOr("")), "lga") ||
        Contains(Lower(iv.description.GetOr("")), "laguardia")) ||
      Contains(Lower(iv.specificLocation.GetOr("")), "jfk") || Contains(Lower(iv.description.GetOr("")), "jfk")
    ensures LaGuardia in TargetAirports(iv) <==>
      !Contains(Lower(iv.specificLocation.GetOr("")), "jfk") && !Contains(Lower(iv.description.GetOr("")), "jfk")
  {
  }

  /** Tons of CO2 a year from one airport's operations */
  function AirportEmissions(o: AirportOps, lto: LtoCycle): real {
    var ops := o.annualOperations.GetOr(0.0);
    ops * o.narrowBody.GetOr(0.65) * lto.narrowBodyKg.GetOr(850.0) / 1000.0 +
    ops * o.wideBody.GetOr(0.30) * lto.wideBodyKg.GetOr(2500.0) / 1000.0 +
    ops * o.regional.GetOr(0.05) * lto.regionalJetKg.GetOr(450.0) / 1000.0
  }

  /** Under the default fleet mix and cycle figures an operation emits 1.325 tons. */
  lemma AirportEmissionsDefaults(ops: real)
    ensures AirportEmissions(AirportOps(Some(ops), None, None, None), LtoCycle(None, None, None)) == ops * 1.325
    ensures AirportEmissions(AirportOps(None, None, None, None), LtoCycle(None, None, None)) == 0.0
  {
  }

  /** All figures of a record and of the cycle are non-negative */
  predicate NonNegativeOps(o: AirportOps, lto: LtoCycle) {
    o.annualOperations.GetOr(0.0) >= 0.0 && o.narrowBody.GetOr(0.65) >= 0.0 && o.wideBody.GetOr(0.30) >= 0.0 &&
    o.regional.GetOr(0.05) >= 0.0 && lto.narrowBodyKg.GetOr(850.0) >= 0.0 && lto.wideBodyKg.GetOr(2500.0) >= 0.0 &&
    lto.regionalJetKg.GetOr(450.0) >= 0.0
  }

  lemma AirportEmissionsNonNegative(o: AirportOps, lto: LtoCycle)
    requires NonNegativeOps(o, lto)
    ensures AirportEmissions(o, lto) >= 0.0
  {
    var ops := o.annualOperations.GetOr(0.0);
    var a := ops * o.narrowBody.GetOr(0.65);
    var b := ops * o.wideBody.GetOr(0.30);
    var c := ops * o.regional.GetOr(0.05);
    assert a >= 0.0 && b >= 0.0 && c >= 0.0;
    assert a * lto.narrowBodyKg.GetOr(850.0) >= 0.0;
    assert b * lto.wideBodyKg.GetOr(2500.0) >= 0.0;
    assert c * lto.regionalJetKg.GetOr(450.0) >= 0.0;
  }

  /** The baseline: the sum over the operations table, in its order, of the targeted airports */
  function AviationBaseline(airports: seq<(string, AirportOps)>, targets: seq<string>, lto: LtoCycle): real
    decreases |airports|
  {
    if |airports| == 0 then 0.0
    else
      var last := airports[|airports| - 1];
      AviationBaseline(airports[..|airports| - 1], targets, lto) +
      (if last.0 in targets then AirportEmissions(last.1, lto) else 0.0)
  }

  /** Airports outside the target add nothing, so a table with none of them targeted gives 0. */
  lemma {:induction false} AviationBaselineUntargeted(airports: seq<(string, AirportOps)>, targets: seq<string>, lto: LtoCycle)
    requires forall k :: 0 <= k < |airports| ==> airports[k].0 !in targets
    ensures AviationBaseline(airports, targets, lto) == 0.0
    decreases |airports|
  {
    if |airports| > 0 {
      AviationBaselineUntargeted(airports[..|airports| - 1], targets, lto);
    }
  }

  /** With non-negative figures the baseline is non-negative. */
  lemma {:induction false} AviationBaselineNonNegative(airports: seq<(string, AirportOps)>, targets: seq<string>, lto: LtoCycle)
    requires forall k :: 0 <= k < |airports| ==> NonNegativeOps(airports[k].1, lto)
    ensures AviationBaseline(airports, targets, lto) >= 0.0
    decreases |airports|
  {
    if |airports| > 0 {
      AviationBaselineNonNegative(airports[..|airports| - 1], targets, lto);
      AirportEmissionsNonNegative(airports[|airports| - 1].1, lto);
    }
  }

  /** The airport loop: skips untargeted airports and accumulates the rest */
  method SumAviationBaseline(airports: seq<(string, AirportOps)>, targets: seq<string>, lto: LtoCycle)
    returns (baseline: real)
    ensures baseline == AviationBaseline(airports, targets, lto)
  {
    baseline := 0.0;
    for k := 0 to |airports|
      invariant baseline == AviationBaseline(airports[..k], targets, lto)
    {
      assert airports[..k + 1][..k] == airports[..k];
      var (airport, ops) := airports[k];
      if airport !in targets {
        continue;
      }
      baseline := baseline + AirportEmissions(ops, lto);
    }
    assert airports[..|airports|] == airports;
  }

  /** The aviation calculator */
  method AviationEmissions(iv: Intervention, airports: seq<(string, AirportOps)>, lto: LtoCycle)
    returns (r: SectorResult)
    ensures r == Reduce(AviationBaseline(airports, TargetAirports(iv), lto), iv)
  {
    var targets := TargetAirports(iv);
    var baseline := SumAviationBaseline(airports, targets, lto);
    r := Reduce(baseline, iv);
  }

  // ---------------------------------------------------------------------------
  // Buildings (the estimate used when no building dataset is available)

  const BuildingBaseline: real := 30000000.0

  /** Share of the city's building emissions per borough */
  const BoroughBuildingShares: map<string, real> := map[
    "Manhattan" := 0.45, "Brooklyn" := 0.25, "Queens" := 0.18, "Bronx" := 0.08, "Staten Island" := 0.04
  ]

  /** The five borough shares add up to the whole city. */
  lemma BuildingSharesSumToOne()
    ensures BoroughBuildingShares["Manhattan"] + BoroughBuildingShares["Brooklyn"] + BoroughBuildingShares["Queens"] +
      BoroughBuildingShares["Bronx"] + BoroughBuildingShares["Staten Island"] == 1.0
  {
  }

  /** 30 million tons, scaled by the share of an exactly named borough, unscaled otherwise */
  function EstimateBuildingEmissions(iv: Intervention): (r: SectorResult)
    ensures iv.borough.GetOr("citywide") in BoroughBuildingShares ==>
      r.baseline == BuildingBaseline * BoroughBuildingShares[iv.borough.GetOr("citywide")] && r.baseline < BuildingBaseline
    ensures iv.borough.GetOr("citywide") !in BoroughBuildingShares ==> r.baseline == BuildingBaseline
    ensures r.savings == r.baseline * iv.reductionPercent.GetOr(DefaultPercent) / 100.0
  {
    var borough := iv.borough.GetOr("citywide");
    var baseline := if borough in BoroughBuildingShares then BuildingBaseline * BoroughBuildingShares[borough] else BuildingBaseline;
    Reduce(baseline, iv)
  }

  // ---------------------------------------------------------------------------
  // Transport

  /** Fleet figures from the vehicle dataset; missing figures take the stated defaults */
  datatype Fleet = Fleet(
    gasoline: Option<real>, diesel: Option<real>, hybrid: Option<real>, electric: Option<real>,
    yellowCabs: Option<real>, forHireVehicles: Option<real>, taxiDailyMiles: Option<real>,
    mtaBuses: Option<real>, busDailyMiles: Option<real>)

  const AverageVmtMiles: real := 8000.0

  /** Per-km factors, read from the metric table */
  const GasolinePerKm: real := UnitConversions.EmissionsFactorsMetric["gasoline_kg_co2_per_km"]
  const DieselPerKm: real := UnitConversions.EmissionsFactorsMetric["diesel_kg_co2_per_km"]
  const HybridPerKm: real := UnitConversions.EmissionsFactorsMetric["hybrid_kg_co2_per_km"]
  const ElectricPerKm: real := UnitConversions.EmissionsFactorsMetric["electric_kg_co2_per_km"]

  /** Tons a year from `count` vehicles each driving `km` kilometres at `factor` kg per km */
  function FleetTons(count: real, km: real, factor: real): real {
    count * km * factor / 1000.0
  }

  /** The baseline of the whole fleet, or of the taxi or bus fleet for those subsectors */
  function TransportBaseline(fleet: Fleet, subsector: string): real {
    var avgKm := UnitConversions.ConvertVmtToVkt(AverageVmtMiles);
    if subsector == "taxis" then
      var taxis := fleet.yellowCabs.GetOr(13500.0) + fleet.forHireVehicles.GetOr(80000.0);
      FleetTons(taxis, UnitConversions.ConvertVmtToVkt(fleet.taxiDailyMiles.GetOr(180.0) * 365.0), GasolinePerKm)
    else if subsector == "bus" then
      FleetTons(fleet.mtaBuses.GetOr(5800.0), UnitConversions.ConvertVmtToVkt(fleet.busDailyMiles.GetOr(150.0) * 365.0), DieselPerKm)
    else
      FleetTons(fleet.gasoline.GetOr(1600000.0), avgKm, GasolinePerKm) +
      FleetTons(fleet.diesel.GetOr(300000.0), avgKm, DieselPerKm) +
      FleetTons(fleet.hybrid.GetOr(150000.0), avgKm, HybridPerKm) +
      FleetTons(fleet.electric.GetOr(40000.0), avgKm, ElectricPerKm)
  }

  /** Converting miles to kilometres and the factors to per-km cancels: a fleet's tons are the same in miles. */
  lemma MetricCancels(count: real, miles: real, kgPerMile: real)
    ensures FleetTons(count, UnitConversions.ConvertVmtToVkt(miles), UnitConversions.ConvertEmissionsPerMileToPerKm(kgPerMile)) ==
      count * miles * kgPerMile / 1000.0
  {
    var f := UnitConversions.ConvertEmissionsPerMileToPerKm(kgPerMile);
    assert f * UnitConversions.MilesToKm == kgPerMile;
    calc {
      count * (miles * UnitConversions.MilesToKm) * f;
      count * miles * (f * UnitConversions.MilesToKm);
    }
  }

  /**
   * The transport baseline equals the same computation in miles with the EPA per-mile
   * factors: the unit conversion changes no result.
   */
  lemma TransportBaselineInMiles(fleet: Fleet, subsector: string)
    ensures subsector == "taxis" ==> (TransportBaseline(fleet, subsector) ==
      (fleet.yellowCabs.GetOr(13500.0) + fleet.forHireVehicles.GetOr(80000.0)) * (fleet.taxiDailyMiles.GetOr(180.0) * 365.0) * 0.39 / 1000.0)
    ensures subsector == "bus" ==> (TransportBaseline(fleet, subsector) ==
      fleet.mtaBuses.GetOr(5800.0) * (fleet.busDailyMiles.GetOr(150.0) * 365.0) * 0.41 / 1000.0)
    ensures subsector != "taxis" && subsector != "bus" ==> (TransportBaseline(fleet, subsector) ==
      fleet.gasoline.GetOr(1600000.0) * AverageVmtMiles * 0.39 / 1000.0 +
      fleet.diesel.GetOr(300000.0) * AverageVmtMiles * 0.41 / 1000.0 +
      fleet.hybrid.GetOr(150000.0) * AverageVmtMiles * 0.22 / 1000.0 +
      fleet.electric.GetOr(40000.0) * AverageVmtMiles * 0.15 / 1000.0)
  {
    assert GasolinePerKm == UnitConversions.ConvertEmissionsPerMileToPerKm(0.39);
    assert DieselPerKm == UnitConversions.ConvertEmissionsPerMileToPerKm(0.41);
    assert HybridPerKm == UnitConversions.ConvertEmissionsPerMileToPerKm(0.22);
    assert ElectricPerKm == UnitConversions.ConvertEmissionsPerMileToPerKm(0.15);
    MetricCancels(fleet.yellowCabs.GetOr(13500.0) + fleet.forHireVehicles.GetOr(80000.0), fleet.taxiDailyMiles.GetOr(180.0) * 365.0, 0.39);
    MetricCancels(fleet.mtaBuses.GetOr(5800.0), fleet.busDailyMiles.GetOr(150.0) * 365.0, 0.41);
    MetricCancels(fleet.gasoline.GetOr(1600000.0), AverageVmtMiles, 0.39);
    MetricCancels(fleet.diesel.GetOr(300000.0), AverageVmtMiles, 0.41);
    MetricCancels(fleet.hybrid.GetOr(150000.0), AverageVmtMiles, 0.22);
    MetricCancels(fleet.electric.GetOr(40000.0), AverageVmtMiles, 0.15);
  }

  function TransportEmissions(iv: Intervention, fleet: Fleet): SectorResult {
    Reduce(TransportBaseline(fleet, iv.subsector.GetOr("general")), iv)
  }

  // ---------------------------------------------------------------------------
  // Energy, industry, nature and the generic fallback

  const HoursPerYear: real := 8760.0

  /** Annual MWh from the average demand, and tons from the grid factor in kg per MWh */
  function EnergyEmissions(iv: Intervention, demandMw: Option<real>, gridFactor: Option<real>): (r: SectorResult)
    ensures r.annualMwh == Some(demandMw.GetOr(7000.0) * HoursPerYear)
    ensures r.baseline == demandMw.GetOr(7000.0) * HoursPerYear * gridFactor.GetOr(350.0) / 1000.0
    ensures demandMw.None? && gridFactor.None? ==> r.baseline == 21462000.0
    ensures r.savings == r.baseline * iv.reductionPercent.GetOr(DefaultPercent) / 100.0
  {
    var annualMwh := demandMw.GetOr(7000.0) * HoursPerYear;
    var baseline := annualMwh * gridFactor.GetOr(350.0) / 1000.0;
    Reduce(baseline, iv).(annualMwh := Some(annualMwh))
  }

  /** Waste figures; missing ones take the stated defaults */
  datatype WasteData = WasteData(annualTons: Option<real>, landfillShare: Option<real>, methaneFactor: Option<real>)

  /** 5 million tons, or the landfill methane estimate for the waste subsector */
  function IndustryEmissions(iv: Intervention, waste: WasteData): (r: SectorResult)
    ensures iv.subsector.GetOr("general") != "waste" ==> r.baseline == 5000000.0
    ensures iv.subsector.GetOr("general") == "waste" ==>
      r.baseline == waste.annualTons.GetOr(14000000.0) * waste.landfillShare.GetOr(0.65) * waste.methaneFactor.GetOr(0.5)
    ensures iv.subsector == Some("waste") && waste == WasteData(None, None, None) ==> r.baseline == 4550000.0
    ensures r.savings == r.baseline * iv.reductionPercent.GetOr(DefaultPercent) / 100.0
  {
    var baseline :=
      if iv.subsector.GetOr("general") == "waste" then
        waste.annualTons.GetOr(14000000.0) * waste.landfillShare.GetOr(0.65) * waste.methaneFactor.GetOr(0.5)
      else 5000000.0;
    Reduce(baseline, iv)
  }

  const CurrentTrees: real := 683788.0

  /** Tree planting: no baseline, a negative reduced level equal to minus the sequestration */
  function NatureSequestration(iv: Intervention): (r: SectorResult)
    ensures r.treesPlanted == Some(CurrentTrees * iv.magnitudePercent.GetOr(20.0) / 100.0)
    ensures r.baseline == 0.0 && r.reduced == -r.savings
    ensures r.savings == 0.02 * r.treesPlanted.value
    ensures r.percentageReduction == iv.magnitudePercent.GetOr(20.0)
    ensures r.direction.None? && r.isIncrease.None?
    ensures iv.magnitudePercent.GetOr(20.0) >= 0.0 ==> r.savings >= 0.0
  {
    var magnitude := iv.magnitudePercent.GetOr(20.0);
    var newTrees := CurrentTrees * magnitude / 100.0;
    var sequestration := newTrees * (20.0 / 1000.0);
    SectorResult(0.0, -sequestration, sequestration, magnitude, None, None, None, Some(newTrees))
  }

  function GenericEmissions(iv: Intervention): (r: SectorResult)
    ensures r.baseline == 50000000.0
    ensures r.savings == 50000000.0 * iv.reductionPercent.GetOr(DefaultPercent) / 100.0
  {
    Reduce(50000000.0, iv)
  }

  // ---------------------------------------------------------------------------
  // Dispatch

  /** The cached reference data the calculators read */
  datatype LoaderCache = LoaderCache(
    airports: seq<(string, AirportOps)>, lto: LtoCycle, fleet: Fleet,
    demandMw: Option<real>, gridFactor: Option<real>, waste: WasteData,
    airportCodes: seq<(string, Loc)>, substations: seq<Option<Loc>>,
    facilities: map<string, seq<Option<Loc>>>, ports: seq<(string, Option<Loc>)>)

  /** What each sector name yields; `fromDataset` is the building dataset's answer, when it has one */
  function SectorEmissionsSpec(sector: string, iv: Intervention, cache: LoaderCache, fromDataset: Option<SectorResult>): SectorResult {
    var s := Lower(sector);
    if s == "aviation" then Reduce(AviationBaseline(cache.airports, TargetAirports(iv), cache.lto), iv)
    else if s == "buildings" then (if fromDataset.Some? then fromDataset.value else EstimateBuildingEmissions(iv))
    else if s == "transport" then TransportEmissions(iv, cache.fleet)
    else if s == "energy" then EnergyEmissions(iv, cache.demandMw, cache.gridFactor)
    else if s == "industry" then IndustryEmissions(iv, cache.waste)
    else if s == "nature" then NatureSequestration(iv)
    else GenericEmissions(iv)
  }

  /** Sector names are matched case-insensitively; any name not listed gets the generic 50 million tons. */
  lemma SectorDispatch(sector: string, iv: Intervention, cache: LoaderCache, fromDataset: Option<SectorResult>)
    ensures SectorEmissionsSpec(sector, iv, cache, fromDataset) == SectorEmissionsSpec(Lower(sector), iv, cache, fromDataset)
    ensures Lower(sector) !in {"aviation", "buildings", "transport", "energy", "industry", "nature"} ==>
      SectorEmissionsSpec(sector, iv, cache, fromDataset).baseline == 50000000.0
    ensures Lower(sector) == "buildings" && fromDataset.None? ==>
      SectorEmissionsSpec(sector, iv, cache, fromDataset).baseline <= BuildingBaseline
  {
    LowerIdempotent(sector);
  }

  /** `get_emissions_for_sector`: lower-cases the name and calls the matching calculator */
  method GetEmissionsForSector(sector: string, iv: Intervention, cache: LoaderCache, fromDataset: Option<SectorResult>)
    returns (r: SectorResult)
    ensures r == SectorEmissionsSpec(sector, iv, cache, fromDataset)
  {
    var s := Lower(sector);
    if s == "aviation" {
      r := AviationEmissions(iv, cache.airports, cache.lto);
    } else if s == "buildings" {
      r := if fromDataset.Some? then fromDataset.value else EstimateBuildingEmissions(iv);
    } else if s == "transport" {
      r := TransportEmissions(iv, cache.fleet);
    } else if s == "energy" {
      r := EnergyEmissions(iv, cache.demandMw, cache.gridFactor);
    } else if s == "industry" {
      r := IndustryEmissions(iv, cache.waste);
    } else if s == "nature" {
      r := NatureSequestration(iv);
    } else {
      r := GenericEmissions(iv);
    }
  }

  // ---------------------------------------------------------------------------
  // Map points for a sector

  /** A location record; `None` where the record has no `location` or an empty one */
  datatype Loc = Loc(lat: Option<real>, lon: Option<real>)

  /** A point at a location, with the default coordinates where they are missing */
  function PointAt(loc: Option<Loc>, intensity: real): EmissionsGrid.PatternPoint {
    match loc
    case Some(l) => EmissionsGrid.PatternPoint(l.lat.GetOr(40.7), l.lon.GetOr(-73.9), intensity)
    case None => EmissionsGrid.PatternPoint(40.7, -73.9, intensity)
  }

  /** One point per record, present location or not */
  function EveryPoint(locs: seq<Option<Loc>>, intensity: real): (ps: seq<EmissionsGrid.PatternPoint>)
    ensures |ps| == |locs|
    ensures forall k :: 0 <= k < |ps| ==> ps[k] == PointAt(locs[k], intensity)
  {
    seq(|locs|, k requires 0 <= k < |locs| => PointAt(locs[k], intensity))
  }

  /** One point per record with a non-empty location, in order */
  function LocatedPoints(locs: seq<Option<Loc>>, intensity: real): seq<EmissionsGrid.PatternPoint>
    decreases |locs|
  {
    if |locs| == 0 then []
    else
      LocatedPoints(locs[..|locs| - 1], intensity) +
      (if locs[|locs| - 1].Some? then [PointAt(locs[|locs| - 1], intensity)] else [])
  }

  /** Number of records with a non-empty location */
  function CountLocated(locs: seq<Option<Loc>>): nat
    decreases |locs|
  {
    if |locs| == 0 then 0
    else CountLocated(locs[..|locs| - 1]) + (if locs[|locs| - 1].Some? then 1 else 0)
  }

  /** The located points are one per non-empty location, each at that location with the given intensity. */
  lemma {:induction false} LocatedPointsShape(locs: seq<Option<Loc>>, intensity: real)
    ensures |LocatedPoints(locs, intensity)| == CountLocated(locs) <= |locs|
    ensures forall p :: p in LocatedPoints(locs, intensity) ==>
      p.intensity == intensity && exists k :: 0 <= k < |locs| && locs[k].Some? && p == PointAt(locs[k], intensity)
    decreases |locs|
  {
    if |locs| > 0 {
      var init := locs[..|locs| - 1];
      LocatedPointsShape(init, intensity);
      forall p | p in LocatedPoints(locs, intensity)
        ensures p.intensity == intensity && exists k :: 0 <= k < |locs| && locs[k].Some? && p == PointAt(locs[k], intensity)
      {
        if p in LocatedPoints(init, intensity) {
          var k :| 0 <= k < |init| && init[k].Some? && p == PointAt(init[k], intensity);
          assert locs[k] == init[k];
        } else {
          assert locs[|locs| - 1].Some? && p == PointAt(locs[|locs| - 1], intensity);
        }
      }
    }
  }

  /** The locations of the airport table, each airport record being its own location */
  function AirportLocs(codes: seq<(string, Loc)>): (ls: seq<Option<Loc>>)
    ensures |ls| == |codes| && forall k :: 0 <= k < |codes| ==> ls[k] == Some(codes[k].1)
  {
    seq(|codes|, k requires 0 <= k < |codes| => Some(codes[k].1))
  }

  /** The locations of the port table */
  function PortLocs(ports: seq<(string, Option<Loc>)>): (ls: seq<Option<Loc>>)
    ensures |ls| == |ports| && forall k :: 0 <= k < |ports| ==> ls[k] == ports[k].1
  {
    seq(|ports|, k requires 0 <= k < |ports| => ports[k].1)
  }

  /** The facility kinds, in the order their points are listed */
  const FacilityKinds: seq<string> := ["power_plants", "waste_facilities", "manufacturing"]

  function FacilitiesOf(facilities: map<string, seq<Option<Loc>>>, kind: string): seq<Option<Loc>> {
    if kind in facilities then facilities[kind] else []
  }

  /** The points each sector yields; the sector name is compared as given */
  function SpatialSpec(sector: string, cache: LoaderCache): seq<EmissionsGrid.PatternPoint> {
    if sector == "aviation" then EveryPoint(AirportLocs(cache.airportCodes), 1.0)
    else if sector == "energy" then EveryPoint(cache.substations, 0.8)
    else if sector == "industry" then
      LocatedPoints(FacilitiesOf(cache.facilities, "power_plants"), 0.7) +
      LocatedPoints(FacilitiesOf(cache.facilities, "waste_facilities"), 0.7) +
      LocatedPoints(FacilitiesOf(cache.facilities, "manufacturing"), 0.7)
    else if sector == "maritime" then LocatedPoints(PortLocs(cache.ports), 0.9)
    else []
  }

  /**
   * One point per airport and per substation, one per facility or port with a location,
   * with intensities 1.0, 0.8, 0.7 and 0.9; nothing for any other sector.
   */
  lemma SpatialSpecShape(sector: string, cache: LoaderCache)
    ensures sector == "aviation" ==> |SpatialSpec(sector, cache)| == |cache.airportCodes|
    ensures sector == "energy" ==> |SpatialSpec(sector, cache)| == |cache.substations|
    ensures sector == "industry" ==> (|SpatialSpec(sector, cache)| ==
      CountLocated(FacilitiesOf(cache.facilities, "power_plants")) +
      CountLocated(FacilitiesOf(cache.facilities, "waste_facilities")) +
      CountLocated(FacilitiesOf(cache.facilities, "manufacturing")))
    ensures sector == "maritime" ==> |SpatialSpec(sector, cache)| == CountLocated(PortLocs(cache.ports))
    ensures sector !in {"aviation", "energy", "industry", "maritime"} ==> SpatialSpec(sector, cache) == []
    ensures forall p :: p in SpatialSpec(sector, cache) ==>
      p.intensity == (if sector == "aviation" then 1.0 else if sector == "energy" then 0.8
                      else if sector == "industry" then 0.7 else 0.9)
  {
    LocatedPointsShape(FacilitiesOf(cache.facilities, "power_plants"), 0.7);
    LocatedPointsShape(FacilitiesOf(cache.facilities, "waste_facilities"), 0.7);
    LocatedPointsShape(FacilitiesOf(cache.facilities, "manufacturing"), 0.7);
    LocatedPointsShape(PortLocs(cache.ports), 0.9);
  }

  /** The append loop over one list of locations, skipping empty ones when `located` is set */
  method AppendPoints(points: seq<EmissionsGrid.PatternPoint>, locs: seq<Option<Loc>>, intensity: real, located: bool)
    returns (out: seq<EmissionsGrid.PatternPoint>)
    ensures out == points + (if located then LocatedPoints(locs, intensity) else EveryPoint(locs, intensity))
  {
    out := points;
    for k := 0 to |locs|
      invariant out == points + (if located then LocatedPoints(locs[..k], intensity) else EveryPoint(locs[..k], intensity))
    {
      assert locs[..k + 1][..k] == locs[..k];
      if !located || locs[k].Some? {
        out := out + [PointAt(locs[k], intensity)];
      }
    }
    assert locs[..|locs|] == locs;
  }

  /** `get_spatial_data_for_sector` */
  method SpatialDataForSector(sector: string, cache: LoaderCache) returns (points: seq<EmissionsGrid.PatternPoint>)
    ensures points == SpatialSpec(sector, cache)
  {
    points := [];
    if sector == "aviation" {
      points := AppendPoints(points, AirportLocs(cache.airportCodes), 1.0, false);
    } else if sector == "energy" {
      points := AppendPoints(points, cache.substations, 0.8, false);
    } else if sector == "industry" {
      for t := 0 to |FacilityKinds|
        invariant points == if t == 0 then [] else if t == 1 then LocatedPoints(FacilitiesOf(cache.facilities, "power_plants"), 0.7)
          else if t == 2 then LocatedPoints(FacilitiesOf(cache.facilities, "power_plants"), 0.7) +
            LocatedPoints(FacilitiesOf(cache.facilities, "waste_facilities"), 0.7)
          else SpatialSpec("industry", cache)
      {
        points := AppendPoints(points, FacilitiesOf(cache.facilities, FacilityKinds[t]), 0.7, true);
      }
    } else if sector == "maritime" {
      points := AppendPoints(points, PortLocs(cache.ports), 0.9, true);
    }
  }
}
