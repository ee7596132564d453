/**
 * Piecewise-linear lookup over a list of (index, value) control points
 * (scripts/calibration/lib/Interpolator.js). The thruster engine's five
 * angle tables use the same lookup.
 */
module Interpolation {
  import opened Wrappers

  /** One control point `{index, value}`. */
  datatype Point = Point(index: real, value: real)

  /** Indices strictly increase along the list. */
  ghost predicate StrictlyIncreasing(data: seq<Point>)
  {
    forall i, j :: 0 <= i < j < |data| ==> data[i].index < data[j].index
  }

  /** Every value lies in [lo, hi]. */
  ghost predicate ValuesWithin(data: seq<Point>, lo: real, hi: real)
  {
    forall i :: 0 <= i < |data| ==> lo <= data[i].value <= hi
  }

  /** The straight line through `start` and `end`, evaluated at `target`. */
  function Lerp(start: Point, end: Point, target: real): (r: real)
    requires start.index < end.index
    ensures target == start.index ==> r == start.value
    ensures target == end.index ==> r == end.value
  {
    var indexDelta := end.index - start.index;
    var percent := (target - start.index) / indexDelta;
    var valueDelta := end.value - start.value;
    start.value + valueDelta * percent
  }

  /** Between its two control points the line stays between their values. */
  lemma LerpBetween(start: Point, end: Point, target: real)
    requires start.index <= target <= end.index && start.index < end.index
    ensures start.value <= end.value ==> start.value <= Lerp(start, end, target) <= end.value
    ensures end.value <= start.value ==> end.value <= Lerp(start, end, target) <= start.value
  {
    var indexDelta := end.index - start.index;
    var percent := (target - start.index) / indexDelta;
    var valueDelta := end.value - start.value;
    assert percent * indexDelta == target - start.index;
    assert 0.0 <= percent <= 1.0;
    if valueDelta >= 0.0 {
      assert 0.0 <= valueDelta * percent <= valueDelta;
    } else {
      assert valueDelta <= valueDelta * percent <= 0.0;
    }
  }

  /**
   * The position of the first point whose index is at or above `target`
   * (|data| when there is none): where the scan of `valueAtIndex` stops.
   */
  function FirstAtOrAbove(data: seq<Point>, target: real): (j: nat)
    ensures j <= |data|
    ensures forall k :: 0 <= k < j ==> data[k].index < target
    ensures j < |data| ==> target <= data[j].index
  {
    if data == [] then 0
    else if target <= data[0].index then 0
    else 1 + FirstAtOrAbove(data[1..], target)
  }

  /**
   * What `valueAtIndex` returns: null (None) outside [first index, last
   * index]; otherwise the value of the first point at or above the target
   * when its index equals the target, and else the line between that point
   * and the one before it. Indices need not be sorted.
   */
  function ValueAt(data: seq<Point>, target: real): (r: Option<real>)
    requires |data| > 0
    ensures r.None? <==> target < data[0].index || data[|data| - 1].index < target
  {
    if target < data[0].index || data[|data| - 1].index < target then None
    else
      var j := FirstAtOrAbove(data, target);
      if data[j].index == target then Some(data[j].value)
      else Some(Lerp(data[j - 1], data[j], target))
  }

  /** On a target equal to a stored index the stored value comes back. */
  lemma ValueAtStoredIndex(data: seq<Point>, k: nat)
    requires StrictlyIncreasing(data) && k < |data|
    ensures ValueAt(data, data[k].index) == Some(data[k].value)
  {
    var target := data[k].index;
    var j := FirstAtOrAbove(data, target);
    assert data[0].index <= target;
    assert data[|data| - 1].index >= target;
    assert j <= k;
    assert target <= data[j].index;
  }

  /** Strictly between two neighbouring points the result is their line. */
  lemma ValueAtBetween(data: seq<Point>, k: nat, target: real)
    requires StrictlyIncreasing(data) && k + 1 < |data|
    requires data[k].index < target < data[k + 1].index
    ensures ValueAt(data, target) == Some(Lerp(data[k], data[k + 1], target))
    ensures data[k].value <= data[k + 1].value ==>
      data[k].value <= ValueAt(data, target).value <= data[k + 1].value
    ensures data[k + 1].value <= data[k].value ==>
      data[k + 1].value <= ValueAt(data, target).value <= data[k].value
  {
    var j := FirstAtOrAbove(data, target);
    assert data[0].index <= data[k].index;
    assert data[k + 1].index <= data[|data| - 1].index;
    assert j <= k + 1;
    assert target <= data[j].index;
    assert j == k + 1;
    LerpBetween(data[k], data[k + 1], target);
  }

  /**
   * When every value lies in [lo, hi], so does every in-range result, sorted
   * indices or not.
   */
  lemma ValueAtWithin(data: seq<Point>, target: real, lo: real, hi: real)
    requires |data| > 0 && ValuesWithin(data, lo, hi)
    requires data[0].index <= target <= data[|data| - 1].index
    ensures ValueAt(data, target).Some?
    ensures lo <= ValueAt(data, target).value <= hi
  {
    var j := FirstAtOrAbove(data, target);
    if data[j].index != target {
      LerpBetween(data[j - 1], data[j], target);
    }
  }

  /** The calibration page's sample table gives 0 half-way between 0 and 90. */
  lemma SampleMidpoint()
    ensures ValueAt([Point(0.0, -1.0), Point(90.0, 1.0)], 45.0) == Some(0.0)
  {
  }

  /** A list of control points filled by `addIndexValue` (the JS `Interpolator`). */
  class Interpolator {
    var data: seq<Point>

    constructor ()
      ensures data == []
    {
      data := [];
    }

    /** Appends at the end; the list is not re-sorted. */
    method AddIndexValue(index: real, value: real)
      modifies this
      ensures data == old(data) + [Point(index, value)]
    {
      data := data + [Point(index, value)];
    }

    /**
     * The scan of `valueAtIndex`. An empty list makes the first comparison
     * fail on `this.data[0]`, so callers must have added a point.
     */
    method ValueAtIndex(target: real) returns (r: Option<real>)
      requires |data| > 0
      ensures r == ValueAt(data, target)
    {
      if target < data[0].index || data[|data| - 1].index < target {
        return None;
      }
      var start: Option<Point> := None;
      var end: Option<Point> := None;
      var i := 0;
      while i < |data|
        invariant 0 <= i <= |data|
        invariant forall k :: 0 <= k < i ==> data[k].index < target
        invariant start == if i == 0 then None else Some(data[i - 1])
        invariant end == None
      {
        var current := data[i];
        if current.index == target {
          return Some(current.value);
        } else {
          if current.index <= target {
            start := Some(current);
          } else if target < current.index {
            end := Some(current);
            break;
          }
        }
        i := i + 1;
      }
      assert 0 < i < |data| && end == Some(data[i]) && i == FirstAtOrAbove(data, target);
      assert target < data[i].index;
      assert ValueAt(data, target) == Some(Lerp(data[i - 1], data[i], target));
      var s := start.value;
      var e := end.value;
      var indexDelta := e.index - s.index;
      var percent := (target - s.index) / indexDelta;
      var valueDelta := e.value - s.value;
      assert s == data[i - 1] && e == data[i];
      assert Lerp(s, e, target) == s.value + valueDelta * percent;
      return Some(s.value + valueDelta * percent);
    }
  }
}
