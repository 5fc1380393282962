/**
 * The numpy grid operations the engine relies on, as loops over `array2<real>`:
 * `np.linspace`, cell-by-cell passes, `.copy()`, and the row-major conversion of a grid
 * into `(lat, lon, value)` points.
 */
module Grids {

  /** One output point of the grid engine: `(lat, lon, value)` */
  datatype GridPoint = GridPoint(lat: real, lon: real, value: real)

  /** The `k`-th of a run of evenly spaced values */
  function Spaced(start: real, step: real, k: nat): real {
    start + (k as real) * step
  }

  /** `np.linspace(start, stop, n)`: n evenly spaced values from `start` to `stop` inclusive */
  function Linspace(start: real, stop: real, n: nat): (r: seq<real>)
    ensures |r| == n
    ensures n >= 1 ==> r[0] == start
    ensures n >= 2 ==> r[n - 1] == stop
    ensures start <= stop ==> forall k :: 0 <= k < n ==> start <= r[k] <= stop
    ensures start < stop ==> forall a, b :: 0 <= a < b < n ==> r[a] < r[b]
  {
    if n <= 1 then seq(n, k requires 0 <= k < n => start)
    else
      var step := (stop - start) / ((n - 1) as real);
      LinspaceStep(start, stop, n, step);
      seq(n, k requires 0 <= k < n => Spaced(start, step, k))
  }

  lemma LinspaceStep(start: real, stop: real, n: nat, step: real)
    requires n >= 2 && step == (stop - start) / ((n - 1) as real)
    ensures Spaced(start, step, n - 1) == stop
    ensures start <= stop ==> forall k: nat :: k < n ==> start <= Spaced(start, step, k) <= stop
    ensures start < stop ==> forall a: nat, b: nat :: a < b < n ==> Spaced(start, step, a) < Spaced(start, step, b)
  {
    assert ((n - 1) as real) * step == stop - start;
    if start <= stop {
      forall k: nat | k < n
        ensures start <= Spaced(start, step, k) <= stop
      {
        SpacedBetween(start, stop, n, step, k);
      }
    }
    if start < stop {
      assert step > 0.0;
      forall a: nat, b: nat | a < b < n
        ensures Spaced(start, step, a) < Spaced(start, step, b)
      {
        SpacedIncreasing(start, step, a, b);
      }
    }
  }

  lemma SpacedBetween(start: real, stop: real, n: nat, step: real, k: nat)
    requires n >= 2 && ((n - 1) as real) * step == stop - start && start <= stop && k < n
    ensures start <= Spaced(start, step, k) <= stop
  {
    assert step >= 0.0;
    assert (k as real) * step <= ((n - 1) as real) * step;
  }

  lemma SpacedIncreasing(start: real, step: real, a: nat, b: nat)
    requires step > 0.0 && a < b
    ensures Spaced(start, step, a) < Spaced(start, step, b)
  {
    var gap := (b - a) as real;
    assert 0.0 < gap * step;
    assert (b as real) * step == (a as real) * step + gap * step;
  }

  /** One vectorised pass `a[i, j] = f(i, j, a[i, j])` over every cell */
  method MapCells(a: array2<real>, f: (int, int, real) -> real)
    modifies a
    ensures forall i, j :: 0 <= i < a.Length0 && 0 <= j < a.Length1 ==> a[i, j] == f(i, j, old(a[i, j]))
  {
    for i := 0 to a.Length0
      invariant forall r, c :: 0 <= r < i && 0 <= c < a.Length1 ==> a[r, c] == f(r, c, old(a[r, c]))
      invariant forall r, c :: i <= r < a.Length0 && 0 <= c < a.Length1 ==> a[r, c] == old(a[r, c])
    {
      for j := 0 to a.Length1
        invariant forall r, c :: 0 <= r < i && 0 <= c < a.Length1 ==> a[r, c] == f(r, c, old(a[r, c]))
        invariant forall c :: 0 <= c < j ==> a[i, c] == f(i, c, old(a[i, c]))
        invariant forall r, c :: i <= r < a.Length0 && 0 <= c < a.Length1 && (r > i || c >= j) ==> a[r, c] == old(a[r, c])
      {
        a[i, j] := f(i, j, a[i, j]);
      }
    }
  }

  /** A pass that combines each cell with the same cell of a second, unchanged grid */
  method MapCellsWith(a: array2<real>, b: array2<real>, f: (int, int, real, real) -> real)
    requires a != b && b.Length0 == a.Length0 && b.Length1 == a.Length1
    modifies a
    ensures forall i, j :: 0 <= i < a.Length0 && 0 <= j < a.Length1 ==> a[i, j] == f(i, j, old(a[i, j]), b[i, j])
  {
    for i := 0 to a.Length0
      invariant forall r, c :: 0 <= r < i && 0 <= c < a.Length1 ==> a[r, c] == f(r, c, old(a[r, c]), b[r, c])
      invariant forall r, c :: i <= r < a.Length0 && 0 <= c < a.Length1 ==> a[r, c] == old(a[r, c])
    {
      for j := 0 to a.Length1
        invariant forall r, c :: 0 <= r < i && 0 <= c < a.Length1 ==> a[r, c] == f(r, c, old(a[r, c]), b[r, c])
        invariant forall c :: 0 <= c < j ==> a[i, c] == f(i, c, old(a[i, c]), b[i, c])
        invariant forall r, c :: i <= r < a.Length0 && 0 <= c < a.Length1 && (r > i || c >= j) ==> a[r, c] == old(a[r, c])
      {
        a[i, j] := f(i, j, a[i, j], b[i, j]);
      }
    }
  }

  /** `grid.copy()` */
  method CopyGrid(a: array2<real>) returns (b: array2<real>)
    ensures fresh(b)
    ensures b.Length0 == a.Length0 && b.Length1 == a.Length1
    ensures forall i, j :: 0 <= i < a.Length0 && 0 <= j < a.Length1 ==> b[i, j] == a[i, j]
  {
    b := new real[a.Length0, a.Length1];
    for i := 0 to a.Length0
      invariant forall r, c :: 0 <= r < i && 0 <= c < a.Length1 ==> b[r, c] == a[r, c]
    {
      for j := 0 to a.Length1
        invariant forall r, c :: 0 <= r < i && 0 <= c < a.Length1 ==> b[r, c] == a[r, c]
        invariant forall c :: 0 <= c < j ==> b[i, c] == a[i, c]
      {
        b[i, j] := a[i, j];
      }
    }
  }

  lemma RowMajorBelow(r: nat, c: nat, i: nat, m: nat)
    requires r < i && c < m
    ensures r * m + c < i * m
  {
    assert r * m + c < r * m + m == (r + 1) * m;
    assert (r + 1) * m <= i * m;
  }

  lemma RowMajorNext(i: nat, m: nat)
    ensures (i + 1) * m == i * m + m
  {
  }

  lemma RowMajorLast(i: nat, c: nat, m: nat)
    requires c < m
    ensures i * m <= i * m + c < (i + 1) * m
  {
    assert (i + 1) * m == i * m + m;
  }

  /** `points` holds the first `i` rows of `a`, row after row */
  ghost predicate RowMajorPrefix(points: seq<GridPoint>, lats: seq<real>, lons: seq<real>, a: array2<real>, i: nat)
    reads a
  {
    i <= |lats| && a.Length0 == |lats| && a.Length1 == |lons| && |points| == i * |lons| &&
    forall r, c :: 0 <= r < i && 0 <= c < |lons| ==>
      r * |lons| + c < |points| && points[r * |lons| + c] == GridPoint(lats[r], lons[c], a[r, c])
  }

  /**
   * `points` lists every cell of `a` row by row: there are `|lats| * |lons|` of them, and point
   * `i * |lons| + j` is cell (i, j) with its latitude and longitude
   */
  ghost predicate RowMajor(points: seq<GridPoint>, lats: seq<real>, lons: seq<real>, a: array2<real>)
    reads a
  {
    RowMajorPrefix(points, lats, lons, a, |lats|)
  }

  lemma AppendRow(points: seq<GridPoint>, row: seq<GridPoint>, lats: seq<real>, lons: seq<real>, a: array2<real>, i: nat)
    requires RowMajorPrefix(points, lats, lons, a, i) && i < |lats|
    requires |row| == |lons| && forall c :: 0 <= c < |lons| ==> row[c] == GridPoint(lats[i], lons[c], a[i, c])
    ensures RowMajorPrefix(points + row, lats, lons, a, i + 1)
  {
    var m := |lons|;
    var all := points + row;
    RowMajorNext(i, m);
    assert |all| == (i + 1) * m;
    forall r, c | 0 <= r < i + 1 && 0 <= c < m
      ensures r * m + c < |all| && all[r * m + c] == GridPoint(lats[r], lons[c], a[r, c])
    {
      if r < i {
        RowMajorBelow(r, c, i, m);
        assert all[r * m + c] == points[r * m + c];
      } else {
        RowMajorLast(i, c, m);
        assert all[i * m + c] == row[c];
      }
    }
  }

  /** The points of row `i`, left to right */
  method RowPoints(lats: seq<real>, lons: seq<real>, a: array2<real>, i: nat) returns (row: seq<GridPoint>)
    requires a.Length0 == |lats| && a.Length1 == |lons| && i < |lats|
    ensures |row| == |lons|
    ensures forall c :: 0 <= c < |lons| ==> row[c] == GridPoint(lats[i], lons[c], a[i, c])
  {
    row := [];
    for j := 0 to |lons|
      invariant |row| == j
      invariant forall c :: 0 <= c < j ==> row[c] == GridPoint(lats[i], lons[c], a[i, c])
    {
      row := row + [GridPoint(lats[i], lons[j], a[i, j])];
    }
  }

  /**
   * Walks the grid row by row: point `i * |lons| + j` is cell `(i, j)` with its coordinates,
   * and there is exactly one point per cell.
   */
  method ToPoints(lats: seq<real>, lons: seq<real>, a: array2<real>) returns (points: seq<GridPoint>)
    requires a.Length0 == |lats| && a.Length1 == |lons|
    ensures RowMajor(points, lats, lons, a)
  {
    points := [];
    for i := 0 to |lats|
      invariant RowMajorPrefix(points, lats, lons, a, i)
    {
      var row := RowPoints(lats, lons, a, i);
      AppendRow(points, row, lats, lons, a, i);
      points := points + row;
    }
  }
}
