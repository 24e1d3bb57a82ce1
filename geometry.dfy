/**
  Plane geometry used by the drag area: points, the four drag directions and the
  three geometric decisions taken on every touch update (the cone test, the
  direction test and the distance threshold test).
*/
module Geometry {

  datatype Point = Point(x: real, y: real)

  datatype Direction = Upwards | Downwards | Leftwards | Rightwards {
    predicate IsHorizontal() { this == Leftwards || this == Rightwards }
  }

  function Abs(v: real): (r: real)
    ensures r >= 0.0 && (r == v || r == -v)
  {
    if v < 0.0 then -v else v
  }

  /** Signed displacement from `from` to `to` along the direction's axis
      (the value behind the distance() and sceneDistance() read-outs). */
  function AxisDisplacement(direction: Direction, from: Point, to: Point): real
  {
    if direction.IsHorizontal() then to.x - from.x else to.y - from.y
  }

  // Independent, direction-agnostic view of a displacement, used to state the
  // cone and direction tests once for all four directions.

  /** Progress from `from` to `to` in the direction itself (positive = the right way). */
  function Along(direction: Direction, from: Point, to: Point): real
  {
    match direction
    case Upwards => from.y - to.y
    case Downwards => to.y - from.y
    case Leftwards => from.x - to.x
    case Rightwards => to.x - from.x
  }

  /** Displacement across the direction's axis. */
  function Across(direction: Direction, from: Point, to: Point): real
  {
    if direction.IsHorizontal() then to.y - from.y else to.x - from.x
  }

  /** The cone test: the damped position lies in the wedge that opens from the
      start position around the configured direction. */
  predicate PointInsideAllowedArea(direction: Direction, wideningFactor: real, start: Point, damped: Point)
  {
    var dX := damped.x - start.x;
    var dY := damped.y - start.y;
    match direction
    case Upwards => dY <= 0.0 && Abs(dX) <= Abs(dY) * wideningFactor
    case Downwards => dY >= 0.0 && Abs(dX) <= dY * wideningFactor
    case Leftwards => dX <= 0.0 && Abs(dY) <= Abs(dX) * wideningFactor
    case Rightwards => dX >= 0.0 && Abs(dY) <= dX * wideningFactor
  }

  /** The direction test: the damped position did not move back against the direction. */
  predicate MovingInRightDirection(direction: Direction, previousDamped: Point, damped: Point)
  {
    match direction
    case Upwards => damped.y <= previousDamped.y
    case Downwards => damped.y >= previousDamped.y
    case Leftwards => damped.x <= previousDamped.x
    case Rightwards => damped.x >= previousDamped.x
  }

  /** The distance test: a positive threshold must be strictly exceeded along the axis. */
  predicate MovedFarEnough(direction: Direction, distanceThreshold: real, start: Point, point: Point)
  {
    if distanceThreshold > 0.0 then
      if direction.IsHorizontal() then Abs(point.x - start.x) > distanceThreshold
      else Abs(point.y - start.y) > distanceThreshold
    else
      true
  }

  /** The four cases of the cone test are one rule: no progress backwards, and the
      sideways deviation bounded by the progress times the widening factor. */
  lemma ConeIsUniform(direction: Direction, wideningFactor: real, start: Point, damped: Point)
    ensures PointInsideAllowedArea(direction, wideningFactor, start, damped)
        <==> Along(direction, start, damped) >= 0.0
             && Abs(Across(direction, start, damped)) <= Along(direction, start, damped) * wideningFactor
  {
  }

  /** With a zero widening factor only movement along the axis, the right way, passes. */
  lemma ZeroWideningIsAxisAligned(direction: Direction, start: Point, damped: Point)
    ensures PointInsideAllowedArea(direction, 0.0, start, damped)
        <==> Along(direction, start, damped) >= 0.0 && Across(direction, start, damped) == 0.0
  {
    ConeIsUniform(direction, 0.0, start, damped);
  }

  /** A bound `progress * factor` on a non-negative progress only grows with the factor. */
  lemma BoundGrowsWithFactor(deviation: real, progress: real, f1: real, f2: real)
    requires progress >= 0.0 && f1 <= f2 && deviation <= progress * f1
    ensures deviation <= progress * f2
  {
    var d := f2 - f1;
    assert progress * f2 == progress * f1 + progress * d;
    assert progress * d >= 0.0 by {
      if progress > 0.0 && d > 0.0 {
        assert progress * d > 0.0;
      }
    }
  }

  /** Widening the cone never rejects a point a narrower cone accepted. */
  lemma ConeGrowsWithWidening(direction: Direction, f1: real, f2: real, start: Point, damped: Point)
    requires f1 <= f2
    requires PointInsideAllowedArea(direction, f1, start, damped)
    ensures PointInsideAllowedArea(direction, f2, start, damped)
  {
    var dX, dY := damped.x - start.x, damped.y - start.y;
    match direction
    case Upwards => BoundGrowsWithFactor(Abs(dX), Abs(dY), f1, f2);
    case Downwards => BoundGrowsWithFactor(Abs(dX), dY, f1, f2);
    case Leftwards => BoundGrowsWithFactor(Abs(dY), Abs(dX), f1, f2);
    case Rightwards => BoundGrowsWithFactor(Abs(dY), dX, f1, f2);
  }

  /** For a non-negative factor every point on the axis ahead of the start passes. */
  lemma AxisAheadIsInside(direction: Direction, wideningFactor: real, start: Point, damped: Point)
    requires wideningFactor >= 0.0
    requires Along(direction, start, damped) >= 0.0 && Across(direction, start, damped) == 0.0
    ensures PointInsideAllowedArea(direction, wideningFactor, start, damped)
  {
    ConeIsUniform(direction, wideningFactor, start, damped);
  }

  /** The direction test accepts exactly the steps with no backward progress. */
  lemma DirectionIsNonNegativeProgress(direction: Direction, previousDamped: Point, damped: Point)
    ensures MovingInRightDirection(direction, previousDamped, damped)
        <==> Along(direction, previousDamped, damped) >= 0.0
  {
  }

  /** Steps that each pass the direction test compose into one that passes it. */
  lemma DirectionComposes(direction: Direction, p0: Point, p1: Point, p2: Point)
    requires MovingInRightDirection(direction, p0, p1)
    requires MovingInRightDirection(direction, p1, p2)
    ensures MovingInRightDirection(direction, p0, p2)
  {
  }

  /** The distance test compares the magnitude of the axis displacement. */
  lemma FarEnoughIsAxisDistance(direction: Direction, distanceThreshold: real, start: Point, point: Point)
    ensures MovedFarEnough(direction, distanceThreshold, start, point)
        <==> distanceThreshold <= 0.0 || Abs(AxisDisplacement(direction, start, point)) > distanceThreshold
  {
  }

  /** Lowering the threshold never turns a passing distance test into a failing one. */
  lemma FarEnoughForLowerThreshold(direction: Direction, t1: real, t2: real, start: Point, point: Point)
    requires t1 <= t2
    requires MovedFarEnough(direction, t2, start, point)
    ensures MovedFarEnough(direction, t1, start, point)
  {
  }
}
