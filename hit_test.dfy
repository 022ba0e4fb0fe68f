/** Axis-aligned hit testing: a point is inside a rectangle when each of its
    two coordinates lies in the half-open interval the rectangle spans on
    that axis. */
module HitTest {

  /** The interval [lo, hi) of one axis, stored as the pair [lo, hi]. */
  type AxisBounds = b: seq<int> | |b| == 2 witness [0, 0]

  /** One interval per axis: index 0 is x, index 1 is y. */
  type Bounds = b: seq<AxisBounds> | |b| == 2 witness [NoArea, NoArea]

  /** The empty interval [0, 0). */
  const NoArea: AxisBounds := [0, 0]

  /** A position per axis: index 0 is x, index 1 is y. */
  type Point = p: seq<int> | |p| == 2 witness [0, 0]

  /** Lower bound inclusive, upper bound exclusive. */
  predicate PositionInAxisBounds(position: int, axisBounds: AxisBounds)
  {
    position >= axisBounds[0] && position < axisBounds[1]
  }

  /** The reference meaning of a hit: every axis accepts its coordinate. */
  ghost predicate InAllAxes(point: Point, bounds: Bounds)
  {
    forall axis :: 0 <= axis < 2 ==> PositionInAxisBounds(point[axis], bounds[axis])
  }

  /** The interval is half-open: it holds its lower end exactly when it is
      non-empty, never its upper end, and it holds some position exactly when
      lo < hi, so bounds with hi <= lo contain nothing. */
  lemma AxisBoundsHalfOpen(axisBounds: AxisBounds)
    ensures PositionInAxisBounds(axisBounds[0], axisBounds) <==> axisBounds[0] < axisBounds[1]
    ensures !PositionInAxisBounds(axisBounds[1], axisBounds)
    ensures (exists p :: PositionInAxisBounds(p, axisBounds)) <==> axisBounds[0] < axisBounds[1]
  {
  }

  /** Splitting [lo, hi) at mid gives two intervals that share no position
      and together cover exactly the original one: the common end belongs
      to the upper half only. */
  lemma AdjacentAxisBoundsPartition(position: int, lo: int, mid: int, hi: int)
    requires lo <= mid <= hi
    ensures PositionInAxisBounds(position, [lo, hi]) <==>
      PositionInAxisBounds(position, [lo, mid]) || PositionInAxisBounds(position, [mid, hi])
    ensures !(PositionInAxisBounds(position, [lo, mid]) && PositionInAxisBounds(position, [mid, hi]))
  {
  }

  /** Checks the axes in order and answers false at the first one that
      rejects its coordinate; true only once both axes were checked. */
  method PointInBounds(point: Point, bounds: Bounds) returns (inside: bool)
    ensures inside <==> InAllAxes(point, bounds)
    ensures inside <==>
      bounds[0][0] <= point[0] < bounds[0][1] && bounds[1][0] <= point[1] < bounds[1][1]
  {
    var axis := 0;
    while axis < 2
      invariant 0 <= axis <= 2
      invariant forall a :: 0 <= a < axis ==> PositionInAxisBounds(point[a], bounds[a])
    {
      if !PositionInAxisBounds(point[axis], bounds[axis]) {
        return false;
      }
      axis := axis + 1;
    }
    return true;
  }
}
