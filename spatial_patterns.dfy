/**
 * The per-sector intensity patterns the grid engine uses when an intervention carries no
 * explicit spatial pattern. Each sector pattern starts from a constant level, adds a linear
 * falloff around every zone of the targeted borough (or of every borough for "citywide"),
 * scales target cells by a keyword-dependent factor, adds noise and clips to [0, 2].
 * The noise is seeded from a per-process string hash, so it is an arbitrary input here.
 */
module SpatialPatterns {
  import opened Common
  import opened Geography
  import opened TargetAreas
  import opened Grids

  /** A point of interest with its weight (corridor intensity, building density, consumption) */
  datatype Zone = Zone(lat: real, lon: real, weight: real)

  /** Zone lists per borough, in the order the source's dictionary lists them */
  type ZoneTable = seq<(string, seq<Zone>)>

  /** Transport corridors (the source writes these as longitude, latitude, intensity) */
  const TransportCorridors: ZoneTable := [
    ("Manhattan", [Zone(40.7589, -73.9857, 2.0), Zone(40.7831, -73.9712, 1.8),
                   Zone(40.6782, -73.9442, 1.6), Zone(40.7505, -73.9857, 1.9)]),
    ("Brooklyn", [Zone(40.6782, -73.9442, 1.5), Zone(40.6782, -73.9857, 1.3), Zone(40.6500, -73.9857, 1.2)]),
    ("Queens", [Zone(40.7282, -73.7949, 1.4), Zone(40.6413, -73.7781, 1.6), Zone(40.7769, -73.8740, 1.5)]),
    ("Bronx", [Zone(40.8448, -73.8648, 1.3), Zone(40.8200, -73.8648, 1.2)]),
    ("Staten Island", [Zone(40.5795, -74.1502, 1.1), Zone(40.6200, -74.1502, 1.0)])
  ]

  const BuildingZones: ZoneTable := [
    ("Manhattan", [Zone(40.7580, -73.9855, 2.5), Zone(40.7128, -74.0060, 2.3),
                   Zone(40.7505, -73.9934, 2.2), Zone(40.7831, -73.9712, 2.0)]),
    ("Brooklyn", [Zone(40.6782, -73.9442, 1.8), Zone(40.6500, -73.9857, 1.6), Zone(40.6200, -73.9500, 1.4)]),
    ("Queens", [Zone(40.7282, -73.7949, 1.5), Zone(40.7500, -73.8500, 1.3), Zone(40.7000, -73.8000, 1.2)]),
    ("Bronx", [Zone(40.8448, -73.8648, 1.4), Zone(40.8200, -73.9000, 1.2)]),
    ("Staten Island", [Zone(40.5795, -74.1502, 1.0), Zone(40.6200, -74.1000, 0.9)])
  ]

  const IndustrialZones: ZoneTable := [
    ("Queens", [Zone(40.6413, -73.7781, 2.0), Zone(40.7769, -73.8740, 1.8), Zone(40.7000, -73.8000, 1.5)]),
    ("Brooklyn", [Zone(40.6500, -73.9500, 1.6), Zone(40.6200, -73.9000, 1.4)]),
    ("Bronx", [Zone(40.8200, -73.9000, 1.3), Zone(40.8448, -73.8648, 1.2)]),
    ("Staten Island", [Zone(40.5795, -74.1502, 1.5), Zone(40.6200, -74.1000, 1.2)]),
    ("Manhattan", [Zone(40.7128, -74.0060, 1.0)])
  ]

  const EnergyZones: ZoneTable := [
    ("Manhattan", [Zone(40.7580, -73.9855, 2.2), Zone(40.7128, -74.0060, 2.0), Zone(40.7505, -73.9934, 1.8)]),
    ("Brooklyn", [Zone(40.6782, -73.9442, 1.6), Zone(40.6500, -73.9857, 1.4)]),
    ("Queens", [Zone(40.7282, -73.7949, 1.5), Zone(40.7500, -73.8500, 1.3)]),
    ("Bronx", [Zone(40.8448, -73.8648, 1.2)]),
    ("Staten Island", [Zone(40.5795, -74.1502, 1.0)])
  ]

  /** The four sectors that have a zone model; every other sector gets the citywide pattern */
  datatype PatternKind = Transport | Buildings | Industry | Energy

  function SectorKind(sector: string): (k: Option<PatternKind>)
    ensures k == Some(Transport) <==> sector == "transport"
    ensures k == Some(Buildings) <==> sector == "buildings"
    ensures k == Some(Industry) <==> sector == "industry"
    ensures k == Some(Energy) <==> sector == "energy"
  {
    if sector == "transport" then Some(Transport)
    else if sector == "buildings" then Some(Buildings)
    else if sector == "industry" then Some(Industry)
    else if sector == "energy" then Some(Energy)
    else None
  }

  function Table(kind: PatternKind): ZoneTable {
    match kind
    case Transport => TransportCorridors
    case Buildings => BuildingZones
    case Industry => IndustrialZones
    case Energy => EnergyZones
  }

  /** Reach of a zone, in degrees */
  function Radius(kind: PatternKind): real {
    match kind
    case Transport => 0.03
    case Buildings => 0.04
    case Industry => 0.05
    case Energy => 0.03
  }

  /** Slope of the linear falloff; radius times slope is 0.6 for every sector */
  function Falloff(kind: PatternKind): real {
    match kind
    case Transport => 20.0
    case Buildings => 15.0
    case Industry => 12.0
    case Energy => 20.0
  }

  /** The level every cell starts from: energy starts at 0.8 times the base intensity */
  function InitialLevel(kind: PatternKind, base: real): real {
    if kind == Energy then 0.8 * base else 0.0
  }

  /** All zone lists of a table, concatenated in table order */
  function AllZones(table: ZoneTable): seq<Zone> {
    if |table| == 0 then [] else table[0].1 + AllZones(table[1..])
  }

  /** The zones a pattern uses: every zone for "citywide" in any case, else the exact borough's */
  function ZonesFor(kind: PatternKind, borough: string): seq<Zone> {
    if Lower(borough) == "citywide" then AllZones(Table(kind))
    else Lookup(Table(kind), borough).GetOr([])
  }

  /** What one zone adds to a cell at distance `d` */
  function ZoneEffect(kind: PatternKind, z: Zone, base: real, d: real): (e: real)
    ensures d >= Radius(kind) ==> e == 0.0
    ensures 0.0 <= d && 0.0 <= base && 0.0 <= z.weight ==> 0.0 <= e <= z.weight * base
  {
    if d < Radius(kind) then
      var w := z.weight * base;
      var f := 1.0 - d * Falloff(kind);
      FalloffPositive(kind, d);
      ScaledDown(w, f, 0.0 <= d && 0.0 <= base && 0.0 <= z.weight);
      w * f
    else 0.0
  }

  /** Within the radius the falloff factor stays in (0.4, 1]. */
  lemma FalloffPositive(kind: PatternKind, d: real)
    requires d < Radius(kind)
    ensures 0.4 < 1.0 - d * Falloff(kind)
    ensures 0.0 <= d ==> 1.0 - d * Falloff(kind) <= 1.0
  {
  }

  lemma ScaledDown(w: real, f: real, nonNeg: bool)
    requires 0.0 < f
    requires nonNeg ==> 0.0 <= w && f <= 1.0
    ensures nonNeg ==> 0.0 <= w * f <= w
  {
    if nonNeg {
      assert w * f <= w * 1.0;
    }
  }

  /** Sum of the zone effects at one point */
  function ZoneSum(kind: PatternKind, zones: seq<Zone>, base: real, sqrt: SqrtFn, lat: real, lon: real): (s: real)
    ensures 0.0 <= base && (forall k :: 0 <= k < |zones| ==> 0.0 <= zones[k].weight) ==> 0.0 <= s
    decreases |zones|
  {
    if |zones| == 0 then 0.0
    else
      var z := zones[|zones| - 1];
      ZoneSum(kind, zones[..|zones| - 1], base, sqrt, lat, lon) + ZoneEffect(kind, z, base, Distance(sqrt, lat, lon, z.lat, z.lon))
  }

  /** A point farther than the radius from every zone gets nothing from the zones. */
  lemma {:induction false} ZonesOutOfReach(kind: PatternKind, zones: seq<Zone>, base: real, sqrt: SqrtFn, lat: real, lon: real)
    requires forall k :: 0 <= k < |zones| ==> Distance(sqrt, lat, lon, zones[k].lat, zones[k].lon) >= Radius(kind)
    ensures ZoneSum(kind, zones, base, sqrt, lat, lon) == 0.0
    decreases |zones|
  {
    if |zones| > 0 {
      ZonesOutOfReach(kind, zones[..|zones| - 1], base, sqrt, lat, lon);
    }
  }

  /** The description keyword group that applies to a sector, as the first matching test picks it */
  datatype KeywordEffect =
    | NoKeyword            // no group matched: target cells keep their value
    | Uniform(factor: real) // every target cell is scaled by the same factor
    | GreenRoof            // 1.4 inside the Manhattan core rectangle, 1.1 elsewhere
    | PortShipping         // 1.5 near water, unchanged elsewhere

  /** The keyword tests on the lower-cased description, in the source's order */
  function KeywordEffectOf(kind: PatternKind, text: string): (e: KeywordEffect)
    ensures e.Uniform? ==> 1.0 <= e.factor <= 1.5
  {
    match kind
    case Transport =>
      if Contains(text, "taxi") || Contains(text, "cab") then Uniform(1.5)
      else if Contains(text, "bus") then Uniform(1.2)
      else if Contains(text, "ev") || Contains(text, "electric") then Uniform(1.3)
      else NoKeyword
    case Buildings =>
      if Contains(text, "solar") || Contains(text, "panel") then Uniform(1.3)
      else if Contains(text, "green") || Contains(text, "roof") then GreenRoof
      else if Contains(text, "insulation") || Contains(text, "heating") then Uniform(1.2)
      else NoKeyword
    case Industry =>
      if Contains(text, "manufacturing") then Uniform(1.3)
      else if Contains(text, "port") || Contains(text, "shipping") then PortShipping
      else if Contains(text, "airport") then Uniform(1.4)
      else NoKeyword
    case Energy =>
      if Contains(text, "solar") || Contains(text, "renewable") then Uniform(1.2)
      else if Contains(text, "grid") || Contains(text, "power") then Uniform(1.1)
      else NoKeyword
  }

  /** The factor a keyword group applies to one target cell */
  function KeywordFactor(e: KeywordEffect, lat: real, lon: real): (f: real)
    ensures (e.Uniform? ==> 1.0 <= e.factor <= 1.5) ==> 1.0 <= f <= 1.5
  {
    match e
    case NoKeyword => 1.0
    case Uniform(factor) => factor
    case GreenRoof => if 40.70 < lat < 40.80 && -74.02 < lon < -73.93 then 1.4 else 1.1
    case PortShipping => if IsNearWater(lat, lon) then 1.5 else 1.0
  }

  /** Starting level plus, in the target, the zone effects */
  function ZonedLevel(kind: PatternKind, zones: seq<Zone>, lat: real, lon: real, borough: string, base: real, sqrt: SqrtFn): real {
    InitialLevel(kind, base) +
      (if IsInTargetArea(lat, lon, borough) then ZoneSum(kind, zones, base, sqrt, lat, lon) else 0.0)
  }

  /** One zone's pass over one cell */
  function ZoneStep(kind: PatternKind, z: Zone, lat: real, lon: real, borough: string, base: real, sqrt: SqrtFn, v: real): real {
    if IsInTargetArea(lat, lon, borough) then v + ZoneEffect(kind, z, base, Distance(sqrt, lat, lon, z.lat, z.lon)) else v
  }

  /** The keyword pass over one cell */
  function KeywordStep(e: KeywordEffect, lat: real, lon: real, borough: string, v: real): real {
    if IsInTargetArea(lat, lon, borough) then v * KeywordFactor(e, lat, lon) else v
  }

  /** Final value of one cell of a zone-model pattern, given that cell's noise sample */
  function PatternCell(kind: PatternKind, zones: seq<Zone>, e: KeywordEffect, lat: real, lon: real, borough: string,
                       base: real, noise: real, sqrt: SqrtFn): (r: real)
    ensures 0.0 <= r <= 2.0
  {
    var scaled := KeywordStep(e, lat, lon, borough, ZonedLevel(kind, zones, lat, lon, borough, base, sqrt));
    Clip(scaled + noise, 0.0, 2.0)
  }

  /** Outside the target only the starting level and the noise remain. */
  lemma PatternOutsideTarget(kind: PatternKind, zones: seq<Zone>, e: KeywordEffect, lat: real, lon: real, borough: string,
                             base: real, noise: real, sqrt: SqrtFn)
    requires !IsInTargetArea(lat, lon, borough)
    ensures PatternCell(kind, zones, e, lat, lon, borough, base, noise, sqrt) == Clip(InitialLevel(kind, base) + noise, 0.0, 2.0)
  {
    var level := InitialLevel(kind, base);
    assert ZonedLevel(kind, zones, lat, lon, borough, base, sqrt) == level;
    assert KeywordStep(e, lat, lon, borough, level) == level;
    assert PatternCell(kind, zones, e, lat, lon, borough, base, noise, sqrt) == Clip(level + noise, 0.0, 2.0);
  }

  /** Inside the target, a point out of reach of every zone keeps the scaled starting level. */
  lemma PatternAwayFromZones(kind: PatternKind, zones: seq<Zone>, e: KeywordEffect, lat: real, lon: real, borough: string,
                             base: real, noise: real, sqrt: SqrtFn)
    requires IsInTargetArea(lat, lon, borough)
    requires forall k :: 0 <= k < |zones| ==> Distance(sqrt, lat, lon, zones[k].lat, zones[k].lon) >= Radius(kind)
    ensures PatternCell(kind, zones, e, lat, lon, borough, base, noise, sqrt) ==
      Clip(InitialLevel(kind, base) * KeywordFactor(e, lat, lon) + noise, 0.0, 2.0)
  {
    var level := InitialLevel(kind, base);
    var scaled := level * KeywordFactor(e, lat, lon);
    assert ZonedLevel(kind, zones, lat, lon, borough, base, sqrt) == level by {
      ZonesOutOfReach(kind, zones, base, sqrt, lat, lon);
    }
    assert KeywordStep(e, lat, lon, borough, level) == scaled;
    assert PatternCell(kind, zones, e, lat, lon, borough, base, noise, sqrt) == Clip(scaled + noise, 0.0, 2.0);
  }

  /** The zone passes, one per zone: afterwards every target cell holds the start level plus the zone sum */
  method AddZones(pattern: array2<real>, kind: PatternKind, zones: seq<Zone>, lats: seq<real>, lons: seq<real>,
                  borough: string, base: real, sqrt: SqrtFn)
    requires pattern.Length0 == |lats| && pattern.Length1 == |lons|
    modifies pattern
    ensures forall i, j :: 0 <= i < |lats| && 0 <= j < |lons| ==>
      pattern[i, j] == old(pattern[i, j]) + (if IsInTargetArea(lats[i], lons[j], borough)
                                             then ZoneSum(kind, zones, base, sqrt, lats[i], lons[j]) else 0.0)
  {
    for k := 0 to |zones|
      invariant forall i, j :: 0 <= i < |lats| && 0 <= j < |lons| ==>
        pattern[i, j] == old(pattern[i, j]) + (if IsInTargetArea(lats[i], lons[j], borough)
                                               then ZoneSum(kind, zones[..k], base, sqrt, lats[i], lons[j]) else 0.0)
    {
      var z := zones[k];
      MapCells(pattern, (i, j, v) =>
        if 0 <= i < |lats| && 0 <= j < |lons| then ZoneStep(kind, z, lats[i], lons[j], borough, base, sqrt, v) else v);
      assert zones[..k + 1][..k] == zones[..k];
    }
    assert zones[..|zones|] == zones;
  }

  /** The keyword pass: target cells are scaled by the description's factor */
  method ApplyKeywordFactor(pattern: array2<real>, e: KeywordEffect, lats: seq<real>, lons: seq<real>, borough: string)
    requires pattern.Length0 == |lats| && pattern.Length1 == |lons|
    modifies pattern
    ensures forall i, j :: 0 <= i < |lats| && 0 <= j < |lons| ==>
      pattern[i, j] == KeywordStep(e, lats[i], lons[j], borough, old(pattern[i, j]))
  {
    MapCells(pattern, (i, j, v) =>
      if 0 <= i < |lats| && 0 <= j < |lons| then KeywordStep(e, lats[i], lons[j], borough, v) else v);
  }

  /** `pattern += noise; pattern = np.clip(pattern, 0, 2)` */
  method AddNoiseAndClip(pattern: array2<real>, noise: (int, int) -> real)
    modifies pattern
    ensures forall i, j :: 0 <= i < pattern.Length0 && 0 <= j < pattern.Length1 ==>
      pattern[i, j] == Clip(old(pattern[i, j]) + noise(i, j), 0.0, 2.0)
  {
    MapCells(pattern, (i, j, v) => Clip(v + noise(i, j), 0.0, 2.0));
  }

  /** The three passes of a zone-model pattern over a fresh grid, for a given zone list */
  method PaintPattern(kind: PatternKind, zones: seq<Zone>, e: KeywordEffect, lats: seq<real>, lons: seq<real>,
                      borough: string, base: real, noise: (int, int) -> real, sqrt: SqrtFn)
    returns (pattern: array2<real>)
    ensures fresh(pattern) && pattern.Length0 == |lats| && pattern.Length1 == |lons|
    ensures forall i, j :: 0 <= i < |lats| && 0 <= j < |lons| ==>
      pattern[i, j] == PatternCell(kind, zones, e, lats[i], lons[j], borough, base, noise(i, j), sqrt)
  {
    var init := InitialLevel(kind, base);
    pattern := new real[|lats|, |lons|]((i, j) => init);
    label Started:
    AddZones(pattern, kind, zones, lats, lons, borough, base, sqrt);
    label Zoned:
    ApplyKeywordFactor(pattern, e, lats, lons, borough);
    label Scaled:
    AddNoiseAndClip(pattern, noise);
    forall i, j | 0 <= i < |lats| && 0 <= j < |lons|
      ensures pattern[i, j] == PatternCell(kind, zones, e, lats[i], lons[j], borough, base, noise(i, j), sqrt)
    {
      assert old@Started(pattern[i, j]) == InitialLevel(kind, base);
      assert old@Zoned(pattern[i, j]) == ZonedLevel(kind, zones, lats[i], lons[j], borough, base, sqrt);
      assert old@Scaled(pattern[i, j]) == KeywordStep(e, lats[i], lons[j], borough, old@Zoned(pattern[i, j]));
    }
  }

  /**
   * `_model_transport/buildings/industry/energy_intervention`: start from the sector's level,
   * add each zone's falloff to the target cells (one pass per zone), apply the keyword factor
   * to the target cells, then add the noise and clip.
   */
  method ModelSectorPattern(kind: PatternKind, lats: seq<real>, lons: seq<real>, borough: string,
                            description: string, base: real, noise: (int, int) -> real, sqrt: SqrtFn)
    returns (pattern: array2<real>)
    ensures fresh(pattern) && pattern.Length0 == |lats| && pattern.Length1 == |lons|
    ensures forall i, j :: 0 <= i < |lats| && 0 <= j < |lons| ==>
      pattern[i, j] == PatternCell(kind, ZonesFor(kind, borough), KeywordEffectOf(kind, Lower(description)),
                                   lats[i], lons[j], borough, base, noise(i, j), sqrt)
  {
    var zones := ZonesFor(kind, borough);
    var effect := KeywordEffectOf(kind, Lower(description));
    pattern := PaintPattern(kind, zones, effect, lats, lons, borough, base, noise, sqrt);
  }

  /** The citywide pattern: the base intensity, raised in target cells for Manhattan and Brooklyn */
  function CitywideCell(lat: real, lon: real, borough: string, base: real): (r: real)
    ensures 0.0 <= base ==> base <= r <= 1.3 * base
    ensures base <= 0.0 ==> 1.3 * base <= r <= base
  {
    if IsInTargetArea(lat, lon, borough) then
      (if Lower(borough) == "manhattan" then base * 1.3
       else if Lower(borough) == "brooklyn" then base * 1.1
       else base * 1.0)
    else base
  }

  /** `_model_citywide_intervention` */
  method ModelCitywidePattern(lats: seq<real>, lons: seq<real>, borough: string, base: real)
    returns (pattern: array2<real>)
    ensures fresh(pattern) && pattern.Length0 == |lats| && pattern.Length1 == |lons|
    ensures forall i, j :: 0 <= i < |lats| && 0 <= j < |lons| ==> pattern[i, j] == CitywideCell(lats[i], lons[j], borough, base)
  {
    pattern := new real[|lats|, |lons|]((i, j) => base);
    MapCells(pattern, (i, j, v) =>
      if 0 <= i < |lats| && 0 <= j < |lons| && IsInTargetArea(lats[i], lons[j], borough) then
        (if Lower(borough) == "manhattan" then v * 1.3
         else if Lower(borough) == "brooklyn" then v * 1.1
         else v * 1.0)
      else v);
  }

  /** The pattern intensity of one cell, as `_create_ai_spatial_pattern` dispatches on the sector */
  function SpatialPatternCell(lat: real, lon: real, borough: string, sector: string, description: string,
                              reductionPercent: real, noise: real, sqrt: SqrtFn): (r: real)
    ensures r <= 2.0
    ensures reductionPercent >= 0.0 ==> 0.0 <= r
    ensures SectorKind(sector).Some? ==> 0.0 <= r
  {
    var base := Min(reductionPercent / 100.0, 1.0);
    match SectorKind(sector)
    case Some(kind) =>
      PatternCell(kind, ZonesFor(kind, borough), KeywordEffectOf(kind, Lower(description)), lat, lon, borough, base, noise, sqrt)
    case None => CitywideCell(lat, lon, borough, base)
  }

  /** `_create_ai_spatial_pattern`: the base intensity is the percentage over 100, capped at 1 */
  method CreateAiSpatialPattern(lats: seq<real>, lons: seq<real>, borough: string, sector: string,
                                description: string, reductionPercent: real, noise: (int, int) -> real, sqrt: SqrtFn)
    returns (pattern: array2<real>)
    ensures fresh(pattern) && pattern.Length0 == |lats| && pattern.Length1 == |lons|
    ensures forall i, j :: 0 <= i < |lats| && 0 <= j < |lons| ==>
      pattern[i, j] == SpatialPatternCell(lats[i], lons[j], borough, sector, description, reductionPercent, noise(i, j), sqrt)
  {
    var base := Min(reductionPercent / 100.0, 1.0);
    if sector == "transport" {
      pattern := ModelSectorPattern(Transport, lats, lons, borough, description, base, noise, sqrt);
    } else if sector == "buildings" {
      pattern := ModelSectorPattern(Buildings, lats, lons, borough, description, base, noise, sqrt);
    } else if sector == "industry" {
      pattern := ModelSectorPattern(Industry, lats, lons, borough, description, base, noise, sqrt);
    } else if sector == "energy" {
      pattern := ModelSectorPattern(Energy, lats, lons, borough, description, base, noise, sqrt);
    } else {
      pattern := ModelCitywidePattern(lats, lons, borough, base);
    }
  }
}
