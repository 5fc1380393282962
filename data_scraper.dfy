/**
 * The scraper's validation and classification helpers: coordinate checks, the filter that
 * keeps plausible records, per-source emission calculators, and the borough and
 * neighbourhood lookups.
 */
module DataScraper {
  import opened Common
  import opened Geography

  /**
   * One scraped record. The timestamp is kept as an opaque number of seconds; the model
   * never reads it.
   */
  datatype DataPoint = DataPoint(
    lat: real, lon: real, emissions: real, source: string, timestamp: int,
    dataType: string, borough: string, neighborhood: string, confidence: real)

  const UnknownName: string := "Unknown"

  // ---------------------------------------------------------------------------
  // Coordinate checks and the validation filter

  /** Latitude within [-90, 90] and longitude within [-180, 180], inclusive */
  predicate IsValidCoordinate(lat: real, lon: real) {
    -90.0 <= lat <= 90.0 && -180.0 <= lon <= 180.0
  }

  /** Inside the city's bounding box, inclusive */
  predicate IsInNycBounds(lat: real, lon: real) {
    InRect(NycBounds, lat, lon)
  }

  /** A point in the city box always has valid coordinates. */
  lemma NycBoundsAreValid(lat: real, lon: real)
    ensures IsInNycBounds(lat, lon) ==> IsValidCoordinate(lat, lon)
  {
  }

  /** The three tests a record must pass: valid coordinates, in the city, 0 < emissions < 10000 */
  predicate Accepts(p: DataPoint) {
    IsValidCoordinate(p.lat, p.lon) && IsInNycBounds(p.lat, p.lon) && 0.0 < p.emissions < 10000.0
  }

  /** The records that pass, in their original order */
  function Validated(points: seq<DataPoint>): seq<DataPoint>
    decreases |points|
  {
    if |points| == 0 then []
    else
      var last := points[|points| - 1];
      Validated(points[..|points| - 1]) + (if Accepts(last) then [last] else [])
  }

  /** `a` is `b` with some elements dropped and the rest kept in order */
  predicate IsSubsequence<T(==)>(a: seq<T>, b: seq<T>)
    decreases |b|
  {
    if |a| == 0 then true
    else if |b| == 0 then false
    else if a[|a| - 1] == b[|b| - 1] then IsSubsequence(a[..|a| - 1], b[..|b| - 1])
    else IsSubsequence(a, b[..|b| - 1])
  }

  /** Appending to the longer sequence keeps the subsequence relation. */
  lemma {:induction false} SubsequenceExtend<T>(a: seq<T>, b: seq<T>, x: T)
    requires IsSubsequence(a, b)
    ensures IsSubsequence(a, b + [x])
    decreases |b|, 1
  {
    if |a| > 0 {
      assert (b + [x])[..|b + [x]| - 1] == b;
      if a[|a| - 1] == x {
        SubsequenceDropLast(a, b);
      }
    }
  }

  /** Dropping the last element of the shorter sequence keeps the subsequence relation. */
  lemma {:induction false} SubsequenceDropLast<T>(a: seq<T>, b: seq<T>)
    requires |a| > 0 && IsSubsequence(a, b)
    ensures IsSubsequence(a[..|a| - 1], b)
    decreases |b|, 0
  {
    if |b| > 0 {
      if a[|a| - 1] == b[|b| - 1] {
        SubsequenceExtend(a[..|a| - 1], b[..|b| - 1], b[|b| - 1]);
        assert b[..|b| - 1] + [b[|b| - 1]] == b;
      } else {
        SubsequenceDropLast(a, b[..|b| - 1]);
        SubsequenceExtend(a[..|a| - 1], b[..|b| - 1], b[|b| - 1]);
        assert b[..|b| - 1] + [b[|b| - 1]] == b;
      }
    }
  }

  /**
   * The filter keeps exactly the records that pass the tests, in their original order:
   * every kept record passes, every passing record is kept as often as it occurs, and the
   * output is an order-preserving subsequence of the input.
   */
  lemma ValidatedExactly(points: seq<DataPoint>)
    ensures forall p :: p in Validated(points) ==> Accepts(p) && p in points
    ensures forall p :: p in points && Accepts(p) ==> p in Validated(points)
    ensures forall p :: multiset(Validated(points))[p] == if Accepts(p) then multiset(points)[p] else 0
    ensures IsSubsequence(Validated(points), points)
  {
    ValidatedInOrder(points);
    ValidatedCounts(points);
  }

  /** The kept records appear in the output in their input order. */
  lemma {:induction false} ValidatedInOrder(points: seq<DataPoint>)
    ensures IsSubsequence(Validated(points), points)
    decreases |points|
  {
    if |points| > 0 {
      var init := points[..|points| - 1];
      var last := points[|points| - 1];
      ValidatedInOrder(init);
      assert points == init + [last];
      var v := Validated(init);
      if Accepts(last) {
        assert Validated(points) == v + [last];
        assert (v + [last])[..|v + [last]| - 1] == v;
      } else {
        assert Validated(points) == v;
        SubsequenceExtend(v, init, last);
      }
    }
  }

  /** Each passing record occurs in the output as often as in the input, a failing one never. */
  lemma {:induction false} ValidatedCounts(points: seq<DataPoint>)
    ensures forall p :: multiset(Validated(points))[p] == if Accepts(p) then multiset(points)[p] else 0
    decreases |points|
  {
    if |points| > 0 {
      var init := points[..|points| - 1];
      var last := points[|points| - 1];
      ValidatedCounts(init);
      assert points == init + [last];
      assert multiset(points) == multiset(init) + multiset{last};
      if Accepts(last) {
        assert Validated(points) == Validated(init) + [last];
      } else {
        assert Validated(points) == Validated(init);
      }
    }
  }

  /** Filtering twice keeps the same records as filtering once. */
  lemma {:induction false} ValidatedIdempotent(points: seq<DataPoint>)
    ensures Validated(Validated(points)) == Validated(points)
    decreases |points|
  {
    if |points| > 0 {
      var init := points[..|points| - 1];
      var last := points[|points| - 1];
      ValidatedIdempotent(init);
      var v := Validated(init);
      if Accepts(last) {
        assert Validated(points) == v + [last];
        assert (v + [last])[..|v + [last]| - 1] == v;
        assert Validated(v + [last]) == Validated(v) + [last];
      } else {
        assert Validated(points) == v;
      }
    }
  }

  /** The validation loop: appends each record that passes all three tests */
  method ValidateData(points: seq<DataPoint>) returns (validated: seq<DataPoint>)
    ensures validated == Validated(points)
    ensures |validated| <= |points|
  {
    validated := [];
    for i := 0 to |points|
      invariant validated == Validated(points[..i])
      invariant |validated| <= i
    {
      var point := points[i];
      assert points[..i + 1][..i] == points[..i];
      if IsValidCoordinate(point.lat, point.lon) {
        if IsInNycBounds(point.lat, point.lon) {
          if 0.0 < point.emissions && point.emissions < 10000.0 {
            validated := validated + [point];
          }
        }
      }
    }
    assert points[..|points|] == points;
  }

  // ---------------------------------------------------------------------------
  // Emission calculators

  /** kg CO2 per vehicle per day */
  function TransportEmissions(volume: int): real { (volume as real) * 0.4 }

  /** kg CO2 per taxi mile */
  function TaxiEmissions(distance: real): real { distance * 0.2 }

  /** kg CO2 per unit of energy use intensity */
  function BuildingEmissions(energyUse: real): real { energyUse * 0.5 }

  /** kg CO2 per kWh on the city grid */
  function EnergyEmissions(consumption: real): real { consumption * 0.4 }

  /** An air-quality index read as kg CO2 equivalent (integer arithmetic) */
  function AirQualityEmissions(aqi: int): int { aqi * 10 }

  /** The five calculators are proportional: each is its unit rate times the amount. */
  lemma CalculatorsAreProportional(n: int, x: real, y: real)
    ensures TransportEmissions(n) == (n as real) * TransportEmissions(1)
    ensures TaxiEmissions(x + y) == TaxiEmissions(x) + TaxiEmissions(y) && TaxiEmissions(1.0) == 0.2
    ensures BuildingEmissions(x + y) == BuildingEmissions(x) + BuildingEmissions(y) && BuildingEmissions(1.0) == 0.5
    ensures EnergyEmissions(x + y) == EnergyEmissions(x) + EnergyEmissions(y) && EnergyEmissions(1.0) == 0.4
    ensures AirQualityEmissions(n) == n * AirQualityEmissions(1) && AirQualityEmissions(1) == 10
    ensures TransportEmissions(1) == 0.4
  {
  }

  /** Base emissions per facility type */
  const IndustrialBase: map<string, real> := map[
    "Manufacturing" := 1000.0,
    "Chemical" := 2000.0,
    "Petroleum" := 3000.0,
    "Food" := 500.0,
    "Textile" := 300.0,
    "Unknown" := 800.0
  ]

  /** The table value for a listed facility type, 800 for any other */
  function IndustrialEmissions(facilityType: string): (e: real)
    ensures facilityType in IndustrialBase ==> e == IndustrialBase[facilityType]
    ensures facilityType !in IndustrialBase ==> e == 800.0
  {
    if facilityType in IndustrialBase then IndustrialBase[facilityType] else 800.0
  }

  /** Industrial emissions take one of the six table values and never exceed 3000. */
  lemma IndustrialEmissionsRange(facilityType: string)
    ensures IndustrialEmissions(facilityType) in {300.0, 500.0, 800.0, 1000.0, 2000.0, 3000.0}
    ensures 300.0 <= IndustrialEmissions(facilityType) <= 3000.0
  {
  }

  // ---------------------------------------------------------------------------
  // Borough and neighbourhood lookup

  /** Index of the first borough rectangle, from `k` on, that contains the point */
  function FirstBoroughAt(lat: real, lon: real, k: nat): (r: Option<nat>)
    requires k <= |BoroughBounds|
    ensures r.Some? ==> (k <= r.value < |BoroughBounds| && InRect(BoroughBounds[r.value].1, lat, lon) &&
      forall m :: k <= m < r.value ==> !InRect(BoroughBounds[m].1, lat, lon))
    ensures r.None? ==> forall m :: k <= m < |BoroughBounds| ==> !InRect(BoroughBounds[m].1, lat, lon)
    decreases |BoroughBounds| - k
  {
    if k == |BoroughBounds| then None
    else if InRect(BoroughBounds[k].1, lat, lon) then Some(k)
    else FirstBoroughAt(lat, lon, k + 1)
  }

  /** The borough whose rectangle, in table order, first contains the point */
  function BoroughOf(lat: real, lon: real): string {
    match FirstBoroughAt(lat, lon, 0)
    case Some(k) => BoroughBounds[k].0
    case None => UnknownName
  }

  /** The early-return loop over the rectangles */
  method BoroughFromCoords(lat: real, lon: real) returns (borough: string)
    ensures borough == BoroughOf(lat, lon)
    ensures borough == UnknownName <==> forall m :: 0 <= m < |BoroughBounds| ==> !InRect(BoroughBounds[m].1, lat, lon)
  {
    var k := 0;
    while k < |BoroughBounds|
      invariant 0 <= k <= |BoroughBounds|
      invariant FirstBoroughAt(lat, lon, 0) == FirstBoroughAt(lat, lon, k)
    {
      var bounds := BoroughBounds[k].1;
      if bounds.minLat <= lat <= bounds.maxLat && bounds.minLon <= lon <= bounds.maxLon {
        return BoroughBounds[k].0;
      }
      k := k + 1;
    }
    return UnknownName;
  }

  /**
   * Manhattan's rectangle lies inside Queens's and is tried first, so every point in it is
   * classified as Manhattan; a point of Queens's rectangle outside the boroughs tried before
   * it is Queens.
   */
  lemma ManhattanBeforeQueens(lat: real, lon: real)
    ensures InRect(ManhattanRect, lat, lon) ==> BoroughOf(lat, lon) == "Manhattan" && InRect(QueensRect, lat, lon)
    ensures InRect(QueensRect, lat, lon) && !InRect(ManhattanRect, lat, lon) && !InRect(BrooklynRect, lat, lon) ==>
      BoroughOf(lat, lon) == "Queens"
  {
  }

  /** A named borough's rectangle contains the point; only points outside the city box are never named. */
  lemma BoroughOfInCity(lat: real, lon: real)
    ensures BoroughOf(lat, lon) != UnknownName ==> IsInNycBounds(lat, lon)
    ensures forall k :: 0 <= k < |BoroughBounds| && BoroughOf(lat, lon) == BoroughBounds[k].0 ==>
      InRect(BoroughBounds[k].1, lat, lon)
  {
    BoroughsInsideCity();
    var r := FirstBoroughAt(lat, lon, 0);
    forall k | 0 <= k < |BoroughBounds| && BoroughOf(lat, lon) == BoroughBounds[k].0
      ensures InRect(BoroughBounds[k].1, lat, lon)
    {
      BoroughBoundsDistinct();
      assert r.Some? && r.value == k;
    }
  }

  /** The known neighbourhoods of each borough, first one first */
  const Neighborhoods: map<string, seq<string>> := map[
    "Manhattan" := ["Financial District", "Midtown", "Upper East Side", "Upper West Side", "Chelsea", "SoHo", "Greenwich Village"],
    "Brooklyn" := ["Downtown Brooklyn", "Park Slope", "Williamsburg", "Brooklyn Heights", "DUMBO", "Red Hook", "Sunset Park"],
    "Queens" := ["Long Island City", "Astoria", "Flushing", "Jamaica", "Forest Hills", "Jackson Heights"],
    "Bronx" := ["Fordham", "Mott Haven", "Hunts Point", "Port Morris", "Yankee Stadium Area"],
    "Staten Island" := ["St George", "New Dorp", "Port Richmond", "Mariners Harbor"]
  ]

  /**
   * The neighbourhood: the first one listed for a known borough, "Unknown" otherwise; the
   * coordinates are not consulted.
   */
  function NeighborhoodFromCoords(lat: real, lon: real, borough: string): (n: string)
    ensures n != UnknownName <==> borough in Neighborhoods
    ensures borough in Neighborhoods ==> |Neighborhoods[borough]| > 0 && n == Neighborhoods[borough][0]
  {
    if borough in Neighborhoods then Neighborhoods[borough][0] else UnknownName
  }

  /**
   * Chained with the borough lookup, a point gets a named neighbourhood exactly when some
   * borough rectangle contains it.
   */
  lemma NeighborhoodOfPoint(lat: real, lon: real)
    ensures NeighborhoodFromCoords(lat, lon, BoroughOf(lat, lon)) != UnknownName <==>
      exists k :: 0 <= k < |BoroughBounds| && InRect(BoroughBounds[k].1, lat, lon)
  {
    var r := FirstBoroughAt(lat, lon, 0);
    if r.Some? {
      assert BoroughBounds[r.value].0 in Neighborhoods;
    }
  }
}
