/**
 * The grid engine's area predicates: which grid points an intervention targets, and the
 * rectangles treated as open water.
 */
module TargetAreas {
  import opened Common
  import opened Geography

  /** Hudson River, East River and the Upper Bay, each an open (strict) rectangle */
  predicate IsOverWater(lat: real, lon: real) {
    (lon < -74.02 && 40.70 < lat < 40.88) ||
    (-73.98 < lon < -73.93 && 40.70 < lat < 40.80) ||
    (lat < 40.62 && -74.05 < lon < -74.00)
  }

  /** The "near water" test used by the port/shipping pattern, written separately in the source */
  predicate IsNearWater(lat: real, lon: real) {
    if lon < -74.02 && 40.70 < lat < 40.88 then true
    else if -73.98 < lon < -73.93 && 40.70 < lat < 40.80 then true
    else lat < 40.62 && -74.05 < lon < -74.00
  }

  /** The two water tests are the same predicate. */
  lemma WaterTestsAgree(lat: real, lon: real)
    ensures IsNearWater(lat, lon) <==> IsOverWater(lat, lon)
  {
  }

  /** No borough name lower-cases to one of the two whole-city words. */
  lemma BoroughNamesAreNotWildcards()
    ensures forall k :: 0 <= k < |BoroughBounds| ==>
      Lower(BoroughBounds[k].0) != "citywide" && Lower(BoroughBounds[k].0) != "all"
  {
    forall k | 0 <= k < |BoroughBounds|
      ensures Lower(BoroughBounds[k].0) != "citywide" && Lower(BoroughBounds[k].0) != "all"
    {
      var name := BoroughBounds[k].0;
      assert |Lower(name)| == |name|;
      assert Lower(name)[0] == LowerChar(name[0]);
    }
  }

  /**
   * Whether a grid point lies in the intervention's target: "citywide" and "all" (in any case)
   * cover the whole grid, a borough name covers its inclusive rectangle, and any other name
   * also covers the whole grid.
   */
  predicate IsInTargetArea(lat: real, lon: real, target: string) {
    if Lower(target) == "citywide" || Lower(target) == "all" then true
    else match Lookup(BoroughBounds, target)
      case Some(rect) => InRect(rect, lat, lon)
      case None => true
  }

  /** The three cases of the target test */
  lemma TargetAreaCases(lat: real, lon: real, target: string)
    ensures Lower(target) == "citywide" || Lower(target) == "all" ==> IsInTargetArea(lat, lon, target)
    ensures (forall k :: 0 <= k < |BoroughBounds| ==> BoroughBounds[k].0 != target) ==>
      IsInTargetArea(lat, lon, target)
    ensures forall k :: 0 <= k < |BoroughBounds| && BoroughBounds[k].0 == target ==>
      (IsInTargetArea(lat, lon, target) <==> InRect(BoroughBounds[k].1, lat, lon))
  {
    BoroughNamesAreNotWildcards();
  }
}
