/** Left-right symmetry of the diagram. With arc options that mirror each
    other about the Z column (as the defaults do), the two Y groups are
    placed as mirror images, and so are the curves drawn from them to Z. */
module Symmetry {
  import opened Graph
  import opened Config
  import opened Layout
  import opened Curve
  import opened Render

  /** q is p reflected in the vertical line x == cx, point by point. */
  predicate MirrorImages(p: seq<Point>, q: seq<Point>, cx: real) {
    |p| == |q| && forall j :: 0 <= j < |p| ==> p[j].x + q[j].x == 2.0 * cx && p[j].y == q[j].y
  }

  /** Node i of the left arc and node i of the right arc are reflections of
      each other in x == cx, at the same height, with opposite tangent hints. */
  lemma ArcNodesMirror(left: seq<Node>, right: seq<Node>, l: ArcOptions, r: ArcOptions,
                       cx: real, trig: Trig, i: nat)
    requires MirroredArcs(l, r, cx) && |left| == |right| && |left| != 1 && i < |left|
    ensures var a, b := OnArc(left, l, trig)[i], OnArc(right, r, trig)[i];
            && a.x.value + b.x.value == 2.0 * cx
            && a.y == b.y
            && a.tan.value == -b.tan.value
  {
    var t := ArcAngle(l.angle, |left|, i);
    assert ArcAngle(r.angle, |right|, i) == t;
    assert ArcX(r, trig, t) == r.xOffset - l.xRadius * trig.Cos(t);
    assert ArcY(r, trig, t) == ArcY(l, trig, t);
    assert ArcTangent(r, trig, t) == -(l.tanDir * trig.Tan(t));
  }

  /** Curves from two mirrored Y nodes to the same Z node on the mirror line
      are reflections of each other, all four control points included. */
  lemma CurvesMirror(a: Node, b: Node, dst: Node, k: real, cx: real)
    requires PlacedWithTangent(a) && PlacedWithTangent(b) && Placed(dst)
    requires a.x.value + b.x.value == 2.0 * cx && a.y == b.y && a.tan.value == -b.tan.value
    requires dst.x.value == cx
    ensures MirrorImages(ControlPoints(a, dst, k), ControlPoints(b, dst, k), cx)
  {
    var p, q := ControlPoints(a, dst, k), ControlPoints(b, dst, k);
    var d := cx - a.x.value;
    assert q[3].x - q[0].x == -d;
    assert p[1].x - p[0].x == k * d && q[1].x - q[0].x == -(k * d);
    assert q[1].y - q[0].y == -b.tan.value * -(k * d) == -a.tan.value * (k * d);
  }

  /** With mirrored arc options and the same edge list drawn from both
      sides, path i of the Y_right->Z group is the reflection of path i of
      the Y_left->Z group in the Z column. */
  lemma DiagramMirror(yLeft: seq<Node>, yRight: seq<Node>, z: seq<Node>, edges: seq<Edge>,
                      o: Options, trig: Trig, i: nat)
    requires MirroredArcs(o.yLeft, o.yRight, o.z.x)
    requires |yLeft| == |yRight| && |yLeft| != 1 && |z| != 1
    requires InRange(edges, |yLeft|, |z|) && i < |edges|
    ensures var left, right, column := OnArc(yLeft, o.yLeft, trig), OnArc(yRight, o.yRight, trig), OnLine(z, o.z);
            && Drawable(edges, left, column) && Drawable(edges, right, column)
            && MirrorImages(EdgeGroup(edges, left, column, o)[i].d.points,
                            EdgeGroup(edges, right, column, o)[i].d.points, o.z.x)
  {
    var left, right, column := OnArc(yLeft, o.yLeft, trig), OnArc(yRight, o.yRight, trig), OnLine(z, o.z);
    var e := edges[i];
    ArcNodesMirror(yLeft, yRight, o.yLeft, o.yRight, o.z.x, trig, e.y);
    CurvesMirror(left[e.y], right[e.y], column[e.z], o.ctrlPointOffsetCoeff, o.z.x);
    EdgeGroupPath(edges, left, column, o, i);
    EdgeGroupPath(edges, right, column, o, i);
  }

  /** Under the built-in options, Y_left and Y_right nodes at the same index
      are mirror images about x == width / 2. */
  lemma DefaultArcsMirror(yLeft: seq<Node>, yRight: seq<Node>, trig: Trig, i: nat)
    requires |yLeft| == |yRight| && |yLeft| != 1 && i < |yLeft|
    ensures var o := DefaultOptions();
            var a, b := OnArc(yLeft, o.yLeft, trig)[i], OnArc(yRight, o.yRight, trig)[i];
            && a.x.value - o.width / 2.0 == o.width / 2.0 - b.x.value
            && a.y == b.y
            && a.tan.value == -b.tan.value
  {
    var o := DefaultOptions();
    ArcNodesMirror(yLeft, yRight, o.yLeft, o.yRight, o.z.x, trig, i);
  }
}
