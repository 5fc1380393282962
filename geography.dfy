/**
 * Static geography shared by the grid engine and the scraper: the city's bounding box, the
 * fallback borough rectangles (the same five rectangles appear in both of those components),
 * and first-match lookup in ordered key/value tables (Python dicts keep insertion order).
 */
module Geography {
  import opened Common

  /** An axis-aligned rectangle `(min_lat, max_lat, min_lon, max_lon)` */
  datatype Rect = Rect(minLat: real, maxLat: real, minLon: real, maxLon: real)

  /** Inclusive containment, as both components test it */
  predicate InRect(r: Rect, lat: real, lon: real) {
    r.minLat <= lat <= r.maxLat && r.minLon <= lon <= r.maxLon
  }

  /** `a` lies inside `b` */
  predicate RectWithin(a: Rect, b: Rect) {
    b.minLat <= a.minLat && a.maxLat <= b.maxLat && b.minLon <= a.minLon && a.maxLon <= b.maxLon
  }

  /**
   * `np.sqrt`, known only to be non-negative. Distances are planar in degrees and are
   * computed through a caller-supplied square root of this type.
   */
  type SqrtFn = f: real -> real | forall x :: 0.0 <= f(x) witness (x: real) => 0.0

  /** Planar distance in degrees between two points */
  function Distance(sqrt: SqrtFn, lat1: real, lon1: real, lat2: real, lon2: real): (d: real)
    ensures d >= 0.0
  {
    sqrt((lat1 - lat2) * (lat1 - lat2) + (lon1 - lon2) * (lon1 - lon2))
  }

  /** South, north, west and east edges of the modelled area */
  const NycBounds: Rect := Rect(40.49, 40.92, -74.26, -73.70)

  const ManhattanRect: Rect := Rect(40.70, 40.80, -74.02, -73.93)
  const BrooklynRect: Rect := Rect(40.57, 40.70, -74.05, -73.82)
  const QueensRect: Rect := Rect(40.54, 40.80, -74.05, -73.70)
  const BronxRect: Rect := Rect(40.78, 40.92, -73.95, -73.77)
  const StatenIslandRect: Rect := Rect(40.49, 40.65, -74.26, -74.05)

  /** The borough rectangles in the order both components iterate them */
  const BoroughBounds: seq<(string, Rect)> := [
    ("Manhattan", ManhattanRect),
    ("Brooklyn", BrooklynRect),
    ("Queens", QueensRect),
    ("Bronx", BronxRect),
    ("Staten Island", StatenIslandRect)
  ]

  /** Keys of an ordered table are pairwise different (true of every Python dict). */
  predicate DistinctKeys<V>(table: seq<(string, V)>) {
    forall i, j :: 0 <= i < j < |table| ==> table[i].0 != table[j].0
  }

  /** `d.get(key)` on an ordered table: the entry stored under exactly `key`, if any */
  function Lookup<V>(table: seq<(string, V)>, key: string): (r: Option<V>)
    ensures r.None? <==> forall k :: 0 <= k < |table| ==> table[k].0 != key
    ensures r.Some? ==> exists k :: 0 <= k < |table| && table[k] == (key, r.value)
    decreases |table|
  {
    if |table| == 0 then None
    else if table[0].0 == key then Some(table[0].1)
    else Lookup(table[1..], key)
  }

  /** With distinct keys the lookup finds the one entry stored under the key. */
  lemma {:induction false} LookupFinds<V>(table: seq<(string, V)>, k: nat)
    requires DistinctKeys(table) && k < |table|
    ensures Lookup(table, table[k].0) == Some(table[k].1)
    decreases k
  {
    if k > 0 {
      assert table[0].0 != table[k].0;
      assert table[1..][k - 1] == table[k];
      LookupFinds(table[1..], k - 1);
    }
  }

  lemma BoroughBoundsDistinct()
    ensures DistinctKeys(BoroughBounds)
  {
  }

  /** Every borough rectangle lies inside the city's bounding box. */
  lemma BoroughsInsideCity()
    ensures forall k :: 0 <= k < |BoroughBounds| ==> RectWithin(BoroughBounds[k].1, NycBounds)
  {
  }

  /** Manhattan's rectangle is nested in Queens's, so the iteration order decides between them. */
  lemma ManhattanInsideQueens()
    ensures RectWithin(ManhattanRect, QueensRect)
    ensures forall lat: real, lon: real :: InRect(ManhattanRect, lat, lon) ==> InRect(QueensRect, lat, lon)
  {
  }
}
