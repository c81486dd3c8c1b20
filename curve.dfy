/** The edge curve builder (YtoZline): the four control points d3's bundle
    spline is drawn through, from a positioned Y node to a positioned Z node. */
module Curve {
  import opened Graph

  datatype Point = Point(x: real, y: real)

  /** The coordinates of a positioned node. */
  function Position(n: Node): Point
    requires Placed(n)
  {
    Point(n.x.value, n.y.value)
  }

  /** [p1, p2, p3, p4] for an edge from `src` (a Y node) to `dst` (a Z node)
      with control point offset coefficient k. The curve starts and ends on
      the nodes; p2 leaves p1 along the line of slope -tan at horizontal
      offset k * (p4.x - p1.x); p3 is level with p4 and as far from it
      horizontally as p2 is from p1. */
  function ControlPoints(src: Node, dst: Node, k: real): (p: seq<Point>)
    requires PlacedWithTangent(src) && Placed(dst)
    ensures |p| == 4
    ensures p[0] == Position(src) && p[3] == Position(dst)
    ensures p[2].y == p[3].y
    ensures p[1].x - p[0].x == k * (p[3].x - p[0].x)
    ensures p[2].x - p[0].x == (1.0 - k) * (p[3].x - p[0].x)
    ensures p[1].y - p[0].y == -src.tan.value * (p[1].x - p[0].x)
    ensures p[1].x + p[2].x == p[0].x + p[3].x
  {
    var p1 := Point(src.x.value, src.y.value);
    var p4 := Point(dst.x.value, dst.y.value);
    var p3 := Point(p1.x + (1.0 - k) * (p4.x - p1.x), p4.y);
    var dx := k * (p4.x - p1.x);
    var p2 := Point(p1.x + dx, p1.y - src.tan.value * dx);
    [p1, p2, p3, p4]
  }

  /** v lies between a and b, whichever is larger. */
  predicate Between(v: real, a: real, b: real) {
    (a <= v <= b) || (b <= v <= a)
  }

  /** For k in [0, 1] the inner control points lie horizontally between the
      two nodes. */
  lemma InnerPointsBetween(src: Node, dst: Node, k: real)
    requires PlacedWithTangent(src) && Placed(dst) && 0.0 <= k <= 1.0
    ensures var p := ControlPoints(src, dst, k);
            Between(p[1].x, p[0].x, p[3].x) && Between(p[2].x, p[0].x, p[3].x)
  {
    var p := ControlPoints(src, dst, k);
    var d := p[3].x - p[0].x;
    MulBetween(k, d);
    MulBetween(1.0 - k, d);
    assert p[1].x == p[0].x + k * d;
    assert p[2].x == p[0].x + (1.0 - k) * d;
  }

  /** A fraction k in [0, 1] of d lies between 0 and d. */
  lemma MulBetween(k: real, d: real)
    requires 0.0 <= k <= 1.0
    ensures d >= 0.0 ==> 0.0 <= k * d <= d
    ensures d < 0.0 ==> d <= k * d <= 0.0
  {
    assert d - k * d == (1.0 - k) * d;
    if d >= 0.0 {
      MulNonNegative(k, d);
      MulNonNegative(1.0 - k, d);
    } else {
      MulNonNegative(k, -d);
      MulNonNegative(1.0 - k, -d);
      assert k * -d == -(k * d);
      assert (1.0 - k) * -d == -((1.0 - k) * d);
    }
  }

  /** The product of two non-negative reals is non-negative. */
  lemma MulNonNegative(a: real, b: real)
    requires 0.0 <= a && 0.0 <= b
    ensures 0.0 <= a * b
  {
  }

  /** At k == 0 the inner points sit on the nodes (p2 on p1, p3 on p4); at
      k == 1 they have swapped ends horizontally (p2 level with p4's x, p3
      with p1's x). */
  lemma InnerPointsAtLimits(src: Node, dst: Node)
    requires PlacedWithTangent(src) && Placed(dst)
    ensures var p := ControlPoints(src, dst, 0.0); p[1] == p[0] && p[2] == p[3]
    ensures var p := ControlPoints(src, dst, 1.0); p[1].x == p[3].x && p[2].x == p[0].x
  {
  }

  /** Raising k moves p2 away from p1 and p3 away from p4, each by the same
      horizontal distance |k * (p4.x - p1.x)|. */
  lemma InnerPointsMonotone(src: Node, dst: Node, k1: real, k2: real)
    requires PlacedWithTangent(src) && Placed(dst) && 0.0 <= k1 <= k2
    ensures var p, q := ControlPoints(src, dst, k1), ControlPoints(src, dst, k2);
            && Abs(p[1].x - p[0].x) <= Abs(q[1].x - q[0].x)
            && Abs(p[2].x - p[3].x) <= Abs(q[2].x - q[3].x)
            && Abs(q[1].x - q[0].x) == Abs(q[2].x - q[3].x)
  {
    var p, q := ControlPoints(src, dst, k1), ControlPoints(src, dst, k2);
    var d := p[3].x - p[0].x;
    assert q[3].x - q[0].x == d;
    var a1, a2 := k1 * d, k2 * d;
    assert p[1].x - p[0].x == a1 && q[1].x - q[0].x == a2;
    assert p[2].x - p[3].x == -a1 && q[2].x - q[3].x == -a2;
    assert a2 - a1 == (k2 - k1) * d;
    if d >= 0.0 {
      MulNonNegative(k1, d);
      MulNonNegative(k2 - k1, d);
      assert 0.0 <= a1 <= a2;
    } else {
      MulNonNegative(k1, -d);
      MulNonNegative(k2 - k1, -d);
      assert k1 * -d == -a1 && (k2 - k1) * -d == a1 - a2;
      assert a2 <= a1 <= 0.0;
    }
  }

  function Abs(v: real): real {
    if v < 0.0 then -v else v
  }
}
