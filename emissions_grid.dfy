/**
 * The gridded emissions engine: a synthetic baseline built cell by cell from borough centres
 * and hotspots, optionally blended with air-quality station readings, cached on the model
 * object, and the intervention that scales a copy of the cached grid inside a target area.
 *
 * `np.sqrt` is a caller-supplied `SqrtFn` (never negative); the station kernel
 * `exp(-d^2 / 2)` is a caller-supplied `GaussFn` of the squared cell distance, valued in
 * (0, 1] and 1 at distance 0. Random noise and `hash()` values are arbitrary inputs.
 */
module EmissionsGrid {
  import opened Common
  import opened Geography
  import opened TargetAreas
  import opened Grids
  import opened SpatialPatterns

  /** `exp(-k / 2)` for a squared integer distance `k` */
  type GaussFn = g: int -> real | g(0) == 1.0 && forall k :: 0.0 < g(k) <= 1.0 witness (k: int) => 1.0

  // ---------------------------------------------------------------------------
  // Synthetic emission at one point

  /** Base urban emission every point starts from */
  const BaseEmission: real := 20.0

  /** A weighted point source: a borough centre or a hotspot */
  datatype Source = Source(lat: real, lon: real, intensity: real)

  /** Centres of Manhattan, Brooklyn, Queens, the Bronx and Staten Island with their intensity */
  const BoroughCenters: seq<Source> := [
    Source(40.7831, -73.9712, 1.5),
    Source(40.6782, -73.9442, 1.2),
    Source(40.7282, -73.7949, 1.0),
    Source(40.8448, -73.8648, 1.1),
    Source(40.5795, -74.1502, 0.7)
  ]

  /** JFK, LaGuardia and Midtown */
  const Hotspots: seq<Source> := [
    Source(40.6413, -73.7781, 30.0),
    Source(40.7769, -73.8740, 25.0),
    Source(40.7580, -73.9855, 60.0)
  ]

  /** A borough centre's contribution: flat within 0.1 degrees, inverse distance beyond */
  function BoroughTerm(c: Source, d: real): (t: real)
    ensures 0.0 <= d && 0.0 <= c.intensity ==> 0.0 <= t
  {
    if d < 0.1 then c.intensity * 50.0 else c.intensity * 30.0 / (d * 100.0)
  }

  /** A hotspot's contribution: only within 0.05 degrees */
  function HotspotTerm(h: Source, d: real): (t: real)
    requires 0.0 <= d
    ensures d >= 0.05 ==> t == 0.0
    ensures 0.0 <= h.intensity ==> 0.0 <= t
  {
    if d < 0.05 then h.intensity / (d + 0.01) else 0.0
  }

  /** The borough centres' terms, summed in list order */
  function BoroughTerms(sqrt: SqrtFn, lat: real, lon: real, cs: seq<Source>): real
    decreases |cs|
  {
    if |cs| == 0 then 0.0
    else
      var c := cs[|cs| - 1];
      BoroughTerms(sqrt, lat, lon, cs[..|cs| - 1]) + BoroughTerm(c, Distance(sqrt, lat, lon, c.lat, c.lon))
  }

  /** The hotspots' terms, summed in list order */
  function HotspotTerms(sqrt: SqrtFn, lat: real, lon: real, hs: seq<Source>): real
    decreases |hs|
  {
    if |hs| == 0 then 0.0
    else
      var h := hs[|hs| - 1];
      HotspotTerms(sqrt, lat, lon, hs[..|hs| - 1]) + HotspotTerm(h, Distance(sqrt, lat, lon, h.lat, h.lon))
  }

  /** With non-negative intensities the summed borough terms are non-negative. */
  lemma {:induction false} BoroughTermsNonNegative(sqrt: SqrtFn, lat: real, lon: real, cs: seq<Source>)
    requires forall k :: 0 <= k < |cs| ==> 0.0 <= cs[k].intensity
    ensures 0.0 <= BoroughTerms(sqrt, lat, lon, cs)
    decreases |cs|
  {
    if |cs| > 0 {
      BoroughTermsNonNegative(sqrt, lat, lon, cs[..|cs| - 1]);
    }
  }

  /** With non-negative intensities the summed hotspot terms are non-negative. */
  lemma {:induction false} HotspotTermsNonNegative(sqrt: SqrtFn, lat: real, lon: real, hs: seq<Source>)
    requires forall k :: 0 <= k < |hs| ==> 0.0 <= hs[k].intensity
    ensures 0.0 <= HotspotTerms(sqrt, lat, lon, hs)
    decreases |hs|
  {
    if |hs| > 0 {
      HotspotTermsNonNegative(sqrt, lat, lon, hs[..|hs| - 1]);
    }
  }

  /** The synthetic emission at a point: base plus all terms, the terms cut to a tenth over water */
  function PointEmission(sqrt: SqrtFn, lat: real, lon: real): real {
    var total := BoroughTerms(sqrt, lat, lon, BoroughCenters) + HotspotTerms(sqrt, lat, lon, Hotspots);
    BaseEmission + (if IsOverWater(lat, lon) then total * 0.1 else total)
  }

  /** Every term is non-negative and water only scales them, so no point falls below the base. */
  lemma PointEmissionAtLeastBase(sqrt: SqrtFn, lat: real, lon: real)
    ensures PointEmission(sqrt, lat, lon) >= BaseEmission
  {
    BoroughTermsNonNegative(sqrt, lat, lon, BoroughCenters);
    HotspotTermsNonNegative(sqrt, lat, lon, Hotspots);
  }

  /** Hotspots farther than 0.05 degrees contribute nothing. */
  lemma {:induction false} HotspotsOutOfReach(sqrt: SqrtFn, lat: real, lon: real, hs: seq<Source>)
    requires forall k :: 0 <= k < |hs| ==> Distance(sqrt, lat, lon, hs[k].lat, hs[k].lon) >= 0.05
    ensures HotspotTerms(sqrt, lat, lon, hs) == 0.0
    decreases |hs|
  {
    if |hs| > 0 {
      HotspotsOutOfReach(sqrt, lat, lon, hs[..|hs| - 1]);
    }
  }

  /** Away from every hotspot the emission comes from the base and the borough centres alone. */
  lemma AwayFromHotspots(sqrt: SqrtFn, lat: real, lon: real)
    requires forall k :: 0 <= k < |Hotspots| ==> Distance(sqrt, lat, lon, Hotspots[k].lat, Hotspots[k].lon) >= 0.05
    ensures PointEmission(sqrt, lat, lon) ==
      BaseEmission + (if IsOverWater(lat, lon) then 0.1 else 1.0) * BoroughTerms(sqrt, lat, lon, BoroughCenters)
  {
    HotspotsOutOfReach(sqrt, lat, lon, Hotspots);
  }

  /** The first loop of `_calculate_emission_at_point`: the borough centres' terms, summed */
  method SumBoroughTerms(lat: real, lon: real, cs: seq<Source>, sqrt: SqrtFn) returns (total: real)
    ensures total == BoroughTerms(sqrt, lat, lon, cs)
  {
    total := 0.0;
    for k := 0 to |cs|
      invariant total == BoroughTerms(sqrt, lat, lon, cs[..k])
    {
      var c := cs[k];
      var distance := Distance(sqrt, lat, lon, c.lat, c.lon);
      total := total + BoroughTerm(c, distance);
      assert cs[..k + 1][..k] == cs[..k];
    }
    assert cs[..|cs|] == cs;
  }

  /** The second loop of `_calculate_emission_at_point`: the hotspots' terms, summed */
  method SumHotspotTerms(lat: real, lon: real, hs: seq<Source>, sqrt: SqrtFn) returns (total: real)
    ensures total == HotspotTerms(sqrt, lat, lon, hs)
  {
    total := 0.0;
    for k := 0 to |hs|
      invariant total == HotspotTerms(sqrt, lat, lon, hs[..k])
    {
      var h := hs[k];
      var distance := Distance(sqrt, lat, lon, h.lat, h.lon);
      assert hs[..k + 1][..k] == hs[..k];
      assert HotspotTerms(sqrt, lat, lon, hs[..k + 1]) == total + HotspotTerm(h, distance);
      if distance < 0.05 {
        total := total + h.intensity / (distance + 0.01);
      }
    }
    assert hs[..|hs|] == hs;
  }

  /** `_calculate_emission_at_point` */
  method CalculateEmissionAtPoint(lat: real, lon: real, sqrt: SqrtFn) returns (e: real)
    ensures e == PointEmission(sqrt, lat, lon)
    ensures e >= BaseEmission
  {
    var boroughs := SumBoroughTerms(lat, lon, BoroughCenters, sqrt);
    var hotspots := SumHotspotTerms(lat, lon, Hotspots, sqrt);
    var total := boroughs + hotspots;
    if IsOverWater(lat, lon) {
      total := total * 0.1;
    }
    e := BaseEmission + total;
    PointEmissionAtLeastBase(sqrt, lat, lon);
  }

  // ---------------------------------------------------------------------------
  // Station blending

  /** One air-quality reading: position and PM2.5 value */
  datatype Station = Station(lat: real, lon: real, value: real)

  /**
   * `np.argmin(np.abs(xs - x))` scanning from index `i` with the best index so far: the first
   * index whose coordinate is closest to `x`.
   */
  function NearestFrom(xs: seq<real>, x: real, i: nat, best: nat): (k: nat)
    requires best < i <= |xs|
    requires forall t :: 0 <= t < i ==> Abs(xs[best] - x) <= Abs(xs[t] - x)
    requires forall t :: 0 <= t < best ==> Abs(xs[best] - x) < Abs(xs[t] - x)
    ensures k < |xs|
    ensures forall t :: 0 <= t < |xs| ==> Abs(xs[k] - x) <= Abs(xs[t] - x)
    ensures forall t :: 0 <= t < k ==> Abs(xs[k] - x) < Abs(xs[t] - x)
    decreases |xs| - i
  {
    if i == |xs| then best
    else if Abs(xs[i] - x) < Abs(xs[best] - x) then NearestFrom(xs, x, i + 1, i)
    else NearestFrom(xs, x, i + 1, best)
  }

  /** The first index of a closest coordinate */
  function Nearest(xs: seq<real>, x: real): (k: nat)
    requires |xs| > 0
    ensures k < |xs|
    ensures forall t :: 0 <= t < |xs| ==> Abs(xs[k] - x) <= Abs(xs[t] - x)
    ensures forall t :: 0 <= t < k ==> Abs(xs[k] - x) < Abs(xs[t] - x)
  {
    NearestFrom(xs, x, 1, 0)
  }

  /** Index `i` lies in the five-wide window centred on `center` */
  predicate InWindow(i: int, center: int) {
    center - 2 <= i <= center + 2
  }

  /** Whether a station's window covers cell (i, j) */
  predicate Covers(lats: seq<real>, lons: seq<real>, s: Station, i: int, j: int) {
    |lats| > 0 && |lons| > 0 && InWindow(i, Nearest(lats, s.lat)) && InWindow(j, Nearest(lons, s.lon))
  }

  /** What blending one station does to cell (i, j) */
  function StationStep(v: real, i: int, j: int, lats: seq<real>, lons: seq<real>, s: Station, gauss: GaussFn): real {
    if Covers(lats, lons, s, i, j) then
      var di := i - Nearest(lats, s.lat);
      var dj := j - Nearest(lons, s.lon);
      v * 0.7 + (s.value * 2.5) * 0.3 * gauss(di * di + dj * dj)
    else v
  }

  /** What blending a list of stations, in order, does to cell (i, j) */
  function Blended(v: real, i: int, j: int, lats: seq<real>, lons: seq<real>, stations: seq<Station>, gauss: GaussFn): real
    decreases |stations|
  {
    if |stations| == 0 then v
    else StationStep(Blended(v, i, j, lats, lons, stations[..|stations| - 1], gauss), i, j, lats, lons, stations[|stations| - 1], gauss)
  }

  /** Keeping 70% of a cell and adding 30% of a weighted reading never goes below zero. */
  lemma MixNonNegative(v: real, value: real, w: real)
    requires 0.0 <= v && 0.0 <= value && 0.0 < w
    ensures 0.0 <= v * 0.7 + (value * 2.5) * 0.3 * w
  {
    assert 0.0 <= (value * 2.5) * 0.3;
  }

  /** One station keeps a non-negative cell non-negative when its reading is. */
  lemma StationStepNonNegative(v: real, i: int, j: int, lats: seq<real>, lons: seq<real>, s: Station, gauss: GaussFn)
    requires 0.0 <= v && 0.0 <= s.value
    ensures 0.0 <= StationStep(v, i, j, lats, lons, s, gauss)
  {
    if Covers(lats, lons, s, i, j) {
      var di := i - Nearest(lats, s.lat);
      var dj := j - Nearest(lons, s.lon);
      MixNonNegative(v, s.value, gauss(di * di + dj * dj));
    }
  }

  /** Non-negative cells stay non-negative under non-negative readings. */
  lemma {:induction false} BlendedNonNegative(v: real, i: int, j: int, lats: seq<real>, lons: seq<real>,
                                              stations: seq<Station>, gauss: GaussFn)
    requires 0.0 <= v && forall k :: 0 <= k < |stations| ==> 0.0 <= stations[k].value
    ensures 0.0 <= Blended(v, i, j, lats, lons, stations, gauss)
    decreases |stations|
  {
    if |stations| > 0 {
      var n := |stations| - 1;
      BlendedNonNegative(v, i, j, lats, lons, stations[..n], gauss);
      StationStepNonNegative(Blended(v, i, j, lats, lons, stations[..n], gauss), i, j, lats, lons, stations[n], gauss);
    }
  }

  /** A cell outside every station's window keeps its value. */
  lemma {:induction false} BlendedUncovered(v: real, i: int, j: int, lats: seq<real>, lons: seq<real>,
                                            stations: seq<Station>, gauss: GaussFn)
    requires forall k :: 0 <= k < |stations| ==> !Covers(lats, lons, stations[k], i, j)
    ensures Blended(v, i, j, lats, lons, stations, gauss) == v
    decreases |stations|
  {
    if |stations| > 0 {
      BlendedUncovered(v, i, j, lats, lons, stations[..|stations| - 1], gauss);
    }
  }

  /**
   * One station of `_blend_openaq_data`: visits only the rows in
   * [max(0, i0 - 2), min(n, i0 + 3)) and the columns in [max(0, j0 - 2), min(m, j0 + 3)).
   */
  method BlendStation(grid: array2<real>, lats: seq<real>, lons: seq<real>, s: Station, gauss: GaussFn)
    requires grid.Length0 == |lats| && grid.Length1 == |lons|
    modifies grid
    ensures forall i, j :: 0 <= i < |lats| && 0 <= j < |lons| ==>
      grid[i, j] == StationStep(old(grid[i, j]), i, j, lats, lons, s, gauss)
  {
    if |lats| == 0 || |lons| == 0 {
      return;
    }
    var latIdx: int := Nearest(lats, s.lat);
    var lonIdx: int := Nearest(lons, s.lon);
    var proxy := s.value * 2.5;
    var rowLo, rowHi := IntMax(0, latIdx - 2), IntMin(|lats|, latIdx + 3);
    var colLo, colHi := IntMax(0, lonIdx - 2), IntMin(|lons|, lonIdx + 3);
    for i := rowLo to rowHi
      invariant forall r, c :: 0 <= r < |lats| && 0 <= c < |lons| ==>
        grid[r, c] == if rowLo <= r < i && colLo <= c < colHi
                      then StationStep(old(grid[r, c]), r, c, lats, lons, s, gauss) else old(grid[r, c])
    {
      for j := colLo to colHi
        invariant forall r, c :: 0 <= r < |lats| && 0 <= c < |lons| ==>
          grid[r, c] == if (rowLo <= r < i && colLo <= c < colHi) || (r == i && colLo <= c < j)
                        then StationStep(old(grid[r, c]), r, c, lats, lons, s, gauss) else old(grid[r, c])
      {
        var di := i - latIdx;
        var dj := j - lonIdx;
        grid[i, j] := grid[i, j] * 0.7 + proxy * 0.3 * gauss(di * di + dj * dj);
      }
    }
  }

  /** `_blend_openaq_data`: the stations one after the other; no stations leaves the grid as it is */
  method BlendStations(grid: array2<real>, lats: seq<real>, lons: seq<real>, stations: seq<Station>, gauss: GaussFn)
    requires grid.Length0 == |lats| && grid.Length1 == |lons|
    modifies grid
    ensures forall i, j :: 0 <= i < |lats| && 0 <= j < |lons| ==>
      grid[i, j] == Blended(old(grid[i, j]), i, j, lats, lons, stations, gauss)
  {
    if |stations| == 0 {
      return;
    }
    for k := 0 to |stations|
      invariant forall i, j :: 0 <= i < |lats| && 0 <= j < |lons| ==>
        grid[i, j] == Blended(old(grid[i, j]), i, j, lats, lons, stations[..k], gauss)
    {
      BlendStation(grid, lats, lons, stations[k], gauss);
      assert stations[..k + 1][..k] == stations[..k];
    }
    assert stations[..|stations|] == stations;
  }

  // ---------------------------------------------------------------------------
  // Baseline

  /** The cached baseline value of cell (i, j): noisy point emission floored at 0, then blended */
  function BaselineCell(lats: seq<real>, lons: seq<real>, i: int, j: int, noise: (int, int) -> real,
                        stations: seq<Station>, sqrt: SqrtFn, gauss: GaussFn): real
    requires 0 <= i < |lats| && 0 <= j < |lons|
  {
    Blended(Max(PointEmission(sqrt, lats[i], lons[j]) + noise(i, j), 0.0), i, j, lats, lons, stations, gauss)
  }

  /** With non-negative readings the baseline is never negative, whatever the noise. */
  lemma BaselineNonNegative(lats: seq<real>, lons: seq<real>, i: int, j: int, noise: (int, int) -> real,
                            stations: seq<Station>, sqrt: SqrtFn, gauss: GaussFn)
    requires 0 <= i < |lats| && 0 <= j < |lons|
    requires forall k :: 0 <= k < |stations| ==> 0.0 <= stations[k].value
    ensures 0.0 <= BaselineCell(lats, lons, i, j, noise, stations, sqrt, gauss)
  {
    BlendedNonNegative(Max(PointEmission(sqrt, lats[i], lons[j]) + noise(i, j), 0.0), i, j, lats, lons, stations, gauss);
  }

  /** Row `i` of the first pass of `_generate_baseline`: each cell gets its point emission */
  method FillRow(grid: array2<real>, lats: seq<real>, lons: seq<real>, i: nat, sqrt: SqrtFn)
    requires grid.Length0 == |lats| && grid.Length1 == |lons| && i < |lats|
    modifies grid
    ensures forall c :: 0 <= c < |lons| ==> grid[i, c] == PointEmission(sqrt, lats[i], lons[c])
    ensures forall r, c :: 0 <= r < |lats| && r != i && 0 <= c < |lons| ==> grid[r, c] == old(grid[r, c])
  {
    for j := 0 to |lons|
      invariant forall c :: 0 <= c < j ==> grid[i, c] == PointEmission(sqrt, lats[i], lons[c])
      invariant forall r, c :: 0 <= r < |lats| && r != i && 0 <= c < |lons| ==> grid[r, c] == old(grid[r, c])
    {
      var e := CalculateEmissionAtPoint(lats[i], lons[j], sqrt);
      grid[i, j] := e;
    }
  }

  /** The first pass of `_generate_baseline`: every cell gets its point emission */
  method FillPointEmissions(grid: array2<real>, lats: seq<real>, lons: seq<real>, sqrt: SqrtFn)
    requires grid.Length0 == |lats| && grid.Length1 == |lons|
    modifies grid
    ensures forall i, j :: 0 <= i < |lats| && 0 <= j < |lons| ==> grid[i, j] == PointEmission(sqrt, lats[i], lons[j])
  {
    for i := 0 to |lats|
      invariant forall r, c :: 0 <= r < i && 0 <= c < |lons| ==> grid[r, c] == PointEmission(sqrt, lats[r], lons[c])
    {
      FillRow(grid, lats, lons, i, sqrt);
    }
  }

  /** `grid += noise; grid = np.maximum(grid, 0)` */
  method AddNoiseFloored(grid: array2<real>, noise: (int, int) -> real)
    modifies grid
    ensures forall i, j :: 0 <= i < grid.Length0 && 0 <= j < grid.Length1 ==>
      grid[i, j] == Max(old(grid[i, j]) + noise(i, j), 0.0)
  {
    MapCells(grid, (i, j, v) => Max(v + noise(i, j), 0.0));
  }

  // ---------------------------------------------------------------------------
  // Interventions

  /** One point of an explicit spatial pattern */
  datatype PatternPoint = PatternPoint(lat: real, lon: real, intensity: real)

  /** The intervention dictionary; every key may be absent */
  datatype Intervention = Intervention(
    borough: Option<string>,
    sector: Option<string>,
    reductionPercent: Option<real>,
    description: Option<string>,
    spatialPattern: Option<seq<PatternPoint>>)

  const SectorFactors: seq<(string, real)> := [("transport", 0.35), ("buildings", 0.45), ("industry", 0.20), ("all", 1.0)]

  /** Share of urban CO2 a sector accounts for; 0.35 for a sector the table does not list */
  function SectorFactor(sector: string): (f: real)
    ensures (forall k :: 0 <= k < |SectorFactors| ==> SectorFactors[k].0 != sector) ==> f == 0.35
    ensures 0.0 < f <= 1.0
  {
    Lookup(SectorFactors, sector).GetOr(0.35)
  }

  /** The target area, defaulting to "citywide" */
  function TargetOf(iv: Intervention): string {
    iv.borough.GetOr("citywide")
  }

  /** The reduction as a fraction: the percentage (default 0) over 100 */
  function ReductionOf(iv: Intervention): real {
    iv.reductionPercent.GetOr(0.0) / 100.0
  }

  /** The sector, defaulting to "transport" */
  function SectorOf(iv: Intervention): string {
    iv.sector.GetOr("transport")
  }

  /** The effective reduction: the fraction times the sector's share */
  function EffectiveReduction(iv: Intervention): real {
    ReductionOf(iv) * SectorFactor(SectorOf(iv))
  }

  /** `0.7 + (h % 1000) / 1000 * 0.6` for a hash value `h` */
  function VariationFactor(h: int): (r: real)
    ensures 0.7 <= r < 1.3
  {
    0.7 + ((h % 1000) as real / 1000.0) * 0.6
  }

  /** Whether a pattern point is closer than 0.08 degrees to a grid point */
  predicate Near(lat: real, lon: real, p: PatternPoint, sqrt: SqrtFn) {
    Distance(sqrt, lat, lon, p.lat, p.lon) < 0.08
  }

  /** `max(0.01, 1 - eff * impact * 3)` where `impact = max(0.3, intensity * (1 - 12 d))` */
  function ReductionMultiplier(eff: real, intensity: real, d: real): (m: real)
    ensures 0.01 <= m
    ensures 0.0 <= eff ==> m <= 1.0
  {
    var impact := Max(0.3, intensity * (1.0 - d * 12.0));
    assert 0.0 <= eff ==> 0.0 <= eff * impact;
    Max(0.01, 1.0 - eff * impact * 3.0)
  }

  /**
   * The two multipliers a reached cell receives, `max(0.01, 1 - eff * impact * 3)` and the
   * variation factor, taken together
   */
  function StepFactor(eff: real, intensity: real, d: real, h: int): (f: real)
    ensures 0.007 <= f
    ensures 0.0 <= eff ==> f <= 1.3
  {
    var m := ReductionMultiplier(eff, intensity, d);
    var w := VariationFactor(h);
    assert 0.01 * w <= m * w;
    assert 0.0 <= eff ==> m * w <= 1.0 * w;
    m * w
  }

  /**
   * What one pattern point at distance `d` does to a cell holding `v`, given the cell's target
   * test and the hash value of the pair: only cells inside the target and closer than 0.08
   * degrees change.
   */
  function PatternStep(v: real, inTarget: bool, eff: real, intensity: real, d: real, h: int): (r: real)
    ensures 0.0 <= v ==> 0.0 <= r
  {
    if inTarget && d < 0.08 then v * StepFactor(eff, intensity, d, h) else v
  }

  /** The pattern points applied in order to the cell at (lat, lon) */
  function PatternFold(v: real, lat: real, lon: real, inTarget: bool, eff: real, ps: seq<PatternPoint>,
                       hash: (real, real, real, real) -> int, sqrt: SqrtFn): real
    decreases |ps|
  {
    if |ps| == 0 then v
    else
      var p := ps[|ps| - 1];
      PatternStep(PatternFold(v, lat, lon, inTarget, eff, ps[..|ps| - 1], hash, sqrt), inTarget, eff, p.intensity,
                  Distance(sqrt, lat, lon, p.lat, p.lon), hash(lat, lon, p.lat, p.lon))
  }

  /** A reached cell is multiplied by a factor in [0.007, 1.3] when the reduction is not negative. */
  lemma PatternStepBounds(v: real, eff: real, intensity: real, d: real, h: int)
    requires 0.0 <= v && 0.0 <= eff && d < 0.08
    ensures 0.007 * v <= PatternStep(v, true, eff, intensity, d, h) <= 1.3 * v
  {
    var f := StepFactor(eff, intensity, d, h);
    assert 0.007 * v <= v * f <= 1.3 * v;
  }

  /** A cell outside the target, or near no pattern point, keeps its value. */
  lemma {:induction false} PatternUnreached(v: real, lat: real, lon: real, inTarget: bool, eff: real, ps: seq<PatternPoint>,
                                            hash: (real, real, real, real) -> int, sqrt: SqrtFn)
    requires !inTarget || forall k :: 0 <= k < |ps| ==> !Near(lat, lon, ps[k], sqrt)
    ensures PatternFold(v, lat, lon, inTarget, eff, ps, hash, sqrt) == v
    decreases |ps|
  {
    if |ps| > 0 {
      PatternUnreached(v, lat, lon, inTarget, eff, ps[..|ps| - 1], hash, sqrt);
    }
  }

  /** The pattern points never make a non-negative cell negative. */
  lemma {:induction false} PatternNonNegative(v: real, lat: real, lon: real, inTarget: bool, eff: real, ps: seq<PatternPoint>,
                                              hash: (real, real, real, real) -> int, sqrt: SqrtFn)
    requires 0.0 <= v
    ensures 0.0 <= PatternFold(v, lat, lon, inTarget, eff, ps, hash, sqrt)
    decreases |ps|
  {
    if |ps| > 0 {
      PatternNonNegative(v, lat, lon, inTarget, eff, ps[..|ps| - 1], hash, sqrt);
    }
  }

  /** The fallback reduction of one cell, given its target test and the pattern intensity there */
  function FallbackCell(v: real, inTarget: bool, eff: real, intensity: real): real {
    if inTarget then v * Max(0.05, 1.0 - eff * intensity) else v
  }

  /**
   * A cell outside the target keeps its value; a non-negative cell keeps at least 5% of it, and
   * loses none of it to a negative reduction.
   */
  lemma MulNonNegative(a: real, b: real)
    requires 0.0 <= a && 0.0 <= b
    ensures 0.0 <= a * b
  {
  }

  lemma FallbackCellBounds(v: real, inTarget: bool, eff: real, intensity: real)
    ensures !inTarget ==> FallbackCell(v, inTarget, eff, intensity) == v
    ensures 0.0 <= v ==> 0.05 * v <= FallbackCell(v, inTarget, eff, intensity)
    ensures 0.0 <= v && 0.0 <= eff && 0.0 <= intensity ==> FallbackCell(v, inTarget, eff, intensity) <= v
  {
    var m := Max(0.05, 1.0 - eff * intensity);
    if 0.0 <= v {
      assert v * m - 0.05 * v == v * (m - 0.05);
      MulNonNegative(v, m - 0.05);
      if 0.0 <= eff && 0.0 <= intensity {
        assert 0.0 <= eff * intensity;
        assert v * m <= v * 1.0;
      }
    }
  }

  /** The pattern intensity the fallback branch computes for cell (i, j) */
  function FallbackIntensity(iv: Intervention, lats: seq<real>, lons: seq<real>, i: int, j: int,
                             noise: (int, int) -> real, sqrt: SqrtFn): (r: real)
    requires 0 <= i < |lats| && 0 <= j < |lons|
    ensures r <= 2.0
    ensures 0.0 <= iv.reductionPercent.GetOr(0.0) ==> 0.0 <= r
  {
    SpatialPatternCell(lats[i], lons[j], TargetOf(iv), SectorOf(iv), iv.description.GetOr(""), ReductionOf(iv), noise(i, j), sqrt)
  }

  /** A non-negative percentage gives a non-negative effective reduction. */
  lemma EffectiveReductionNonNegative(iv: Intervention)
    requires 0.0 <= iv.reductionPercent.GetOr(0.0)
    ensures 0.0 <= EffectiveReduction(iv)
  {
    assert 0.0 <= ReductionOf(iv);
  }

  /** The spatial-pattern branch: a copy of `base`, then one pass over it per pattern point */
  method PatternGrid(base: array2<real>, lats: seq<real>, lons: seq<real>, borough: string, eff: real,
                     ps: seq<PatternPoint>, hash: (real, real, real, real) -> int, sqrt: SqrtFn)
    returns (grid: array2<real>)
    requires base.Length0 == |lats| && base.Length1 == |lons|
    ensures fresh(grid) && grid.Length0 == |lats| && grid.Length1 == |lons|
    ensures forall i, j :: 0 <= i < |lats| && 0 <= j < |lons| ==>
      grid[i, j] == PatternFold(base[i, j], lats[i], lons[j], IsInTargetArea(lats[i], lons[j], borough), eff, ps, hash, sqrt)
  {
    grid := CopyGrid(base);
    for k := 0 to |ps|
      invariant forall i, j :: 0 <= i < |lats| && 0 <= j < |lons| ==>
        grid[i, j] == PatternFold(base[i, j], lats[i], lons[j], IsInTargetArea(lats[i], lons[j], borough), eff, ps[..k], hash, sqrt)
    {
      var p := ps[k];
      MapCells(grid, (i, j, v) =>
        if 0 <= i < |lats| && 0 <= j < |lons| then
          PatternStep(v, IsInTargetArea(lats[i], lons[j], borough), eff, p.intensity,
                      Distance(sqrt, lats[i], lons[j], p.lat, p.lon), hash(lats[i], lons[j], p.lat, p.lon))
        else v);
      assert ps[..k + 1][..k] == ps[..k];
    }
    assert ps[..|ps|] == ps;
  }

  /** The fallback branch: a copy of `base` whose target cells are scaled by `max(0.05, 1 - eff * pattern)` */
  method FallbackGrid(base: array2<real>, pattern: array2<real>, lats: seq<real>, lons: seq<real>, borough: string, eff: real)
    returns (grid: array2<real>)
    requires base.Length0 == |lats| && base.Length1 == |lons|
    requires pattern.Length0 == |lats| && pattern.Length1 == |lons|
    ensures fresh(grid) && grid.Length0 == |lats| && grid.Length1 == |lons|
    ensures forall i, j :: 0 <= i < |lats| && 0 <= j < |lons| ==>
      grid[i, j] == FallbackCell(base[i, j], IsInTargetArea(lats[i], lons[j], borough), eff, pattern[i, j])
  {
    grid := CopyGrid(base);
    MapCellsWith(grid, pattern, (i, j, v, intensity) =>
      if 0 <= i < |lats| && 0 <= j < |lons| then FallbackCell(v, IsInTargetArea(lats[i], lons[j], borough), eff, intensity) else v);
  }

  /** `apply_intervention` on a baseline grid `base` over the given coordinates */
  method InterventionPoints(iv: Intervention, base: array2<real>, lats: seq<real>, lons: seq<real>,
                            noise: (int, int) -> real, hash: (real, real, real, real) -> int, sqrt: SqrtFn)
    returns (points: seq<GridPoint>, ghost modified: array2<real>)
    requires base.Length0 == |lats| && base.Length1 == |lons|
    ensures fresh(modified) && modified.Length0 == |lats| && modified.Length1 == |lons|
    ensures RowMajor(points, lats, lons, modified)
    ensures iv.spatialPattern.Some? ==> forall i, j :: 0 <= i < |lats| && 0 <= j < |lons| ==>
      modified[i, j] == PatternFold(base[i, j], lats[i], lons[j], IsInTargetArea(lats[i], lons[j], TargetOf(iv)),
                                    EffectiveReduction(iv), iv.spatialPattern.value, hash, sqrt)
    ensures iv.spatialPattern.None? ==> forall i, j :: 0 <= i < |lats| && 0 <= j < |lons| ==>
      modified[i, j] == FallbackCell(base[i, j], IsInTargetArea(lats[i], lons[j], TargetOf(iv)), EffectiveReduction(iv),
                                     FallbackIntensity(iv, lats, lons, i, j, noise, sqrt))
  {
    var grid;
    match iv.spatialPattern {
      case Some(ps) =>
        grid := PatternGrid(base, lats, lons, TargetOf(iv), EffectiveReduction(iv), ps, hash, sqrt);
      case None =>
        var pattern := CreateAiSpatialPattern(lats, lons, TargetOf(iv), SectorOf(iv), iv.description.GetOr(""),
                                              ReductionOf(iv), noise, sqrt);
        grid := FallbackGrid(base, pattern, lats, lons, TargetOf(iv), EffectiveReduction(iv));
    }
    points := ToPoints(lats, lons, grid);
    modified := grid;
  }

  /** `NYCEmissionsData`: the grid resolution and the cached baseline with its coordinates */
  class EmissionsModel {
    const resolution: nat
    var lats: seq<real>
    var lons: seq<real>
    var baseline: array2<real>

    ghost predicate Valid()
      reads this
    {
      |lats| == resolution && |lons| == resolution &&
      baseline.Length0 == resolution && baseline.Length1 == resolution
    }

    /** Builds the model and generates the baseline, as construction does */
    constructor (resolution: nat, noise: (int, int) -> real, stations: seq<Station>, sqrt: SqrtFn, gauss: GaussFn)
      ensures this.resolution == resolution && Valid()
      ensures lats == Linspace(NycBounds.minLat, NycBounds.maxLat, resolution)
      ensures lons == Linspace(NycBounds.minLon, NycBounds.maxLon, resolution)
      ensures forall i, j :: 0 <= i < resolution && 0 <= j < resolution ==>
        baseline[i, j] == BaselineCell(lats, lons, i, j, noise, stations, sqrt, gauss)
    {
      this.resolution := resolution;
      lats := [];
      lons := [];
      baseline := new real[0, 0];
      new;
      GenerateBaseline(noise, stations, sqrt, gauss);
    }

    /**
     * `_generate_baseline`: point emissions on an evenly spaced grid over the city's bounding
     * box, noise floored at zero, then the station readings (empty when none could be fetched).
     */
    method GenerateBaseline(noise: (int, int) -> real, stations: seq<Station>, sqrt: SqrtFn, gauss: GaussFn)
      modifies this
      ensures Valid() && fresh(baseline)
      ensures lats == Linspace(NycBounds.minLat, NycBounds.maxLat, resolution)
      ensures lons == Linspace(NycBounds.minLon, NycBounds.maxLon, resolution)
      ensures forall i, j :: 0 <= i < resolution && 0 <= j < resolution ==>
        baseline[i, j] == BaselineCell(lats, lons, i, j, noise, stations, sqrt, gauss)
    {
      var la := Linspace(NycBounds.minLat, NycBounds.maxLat, resolution);
      var lo := Linspace(NycBounds.minLon, NycBounds.maxLon, resolution);
      var grid := new real[resolution, resolution];
      FillPointEmissions(grid, la, lo, sqrt);
      AddNoiseFloored(grid, noise);
      BlendStations(grid, la, lo, stations, gauss);
      lats, lons, baseline := la, lo, grid;
    }

    /** `get_baseline_grid`: the cached baseline as row-major points */
    method GetBaselineGrid() returns (points: seq<GridPoint>)
      requires Valid()
      ensures RowMajor(points, lats, lons, baseline)
    {
      points := ToPoints(lats, lons, baseline);
    }

    /**
     * `apply_intervention`: defaults are "citywide", 0%, "transport" and an empty description.
     * A copy of the cached baseline (`modified`, ghost: only its points are returned) is scaled
     * and listed as row-major points. The method has no `modifies` clause, so the cache is left
     * exactly as it was.
     */
    method ApplyIntervention(iv: Intervention, noise: (int, int) -> real, hash: (real, real, real, real) -> int, sqrt: SqrtFn)
      returns (points: seq<GridPoint>, ghost modified: array2<real>)
      requires Valid()
      ensures fresh(modified) && modified.Length0 == resolution && modified.Length1 == resolution
      ensures RowMajor(points, lats, lons, modified)
      ensures iv.spatialPattern.Some? ==> forall i, j :: 0 <= i < resolution && 0 <= j < resolution ==>
        modified[i, j] == PatternFold(baseline[i, j], lats[i], lons[j], IsInTargetArea(lats[i], lons[j], TargetOf(iv)),
                                      EffectiveReduction(iv), iv.spatialPattern.value, hash, sqrt)
      ensures iv.spatialPattern.None? ==> forall i, j :: 0 <= i < resolution && 0 <= j < resolution ==>
        modified[i, j] == FallbackCell(baseline[i, j], IsInTargetArea(lats[i], lons[j], TargetOf(iv)), EffectiveReduction(iv),
                                       FallbackIntensity(iv, lats, lons, i, j, noise, sqrt))
    {
      points, modified := InterventionPoints(iv, baseline, lats, lons, noise, hash, sqrt);
    }
  }
}
