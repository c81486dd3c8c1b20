/** The layout engine: positionZ puts the Z nodes on a vertical line and
    positionY puts a Y group on part of an ellipse. Both write into the
    caller's node array in place; OnLine and OnArc say what the array holds
    afterwards. */
module Layout {
  import opened Graph
  import opened Config

  /** The y coordinate positionZ gives node i of n: y0 plus i steps of
      (y1 - y0) / (n - 1). */
  function LineY(g: LineOptions, n: nat, i: nat): real
    requires n != 1
  {
    g.y0 + i as real * ((g.y1 - g.y0) / (n - 1) as real)
  }

  /** The Z nodes after positionZ. Every node sits at x on the line, carries
      the configured radius, and keeps its colour, label and tangent; the
      first node is at y0, the last at y1, and consecutive nodes are one
      uniform step apart. */
  function OnLine(nodes: seq<Node>, g: LineOptions): (placed: seq<Node>)
    requires |nodes| != 1
    ensures |placed| == |nodes|
    ensures forall i :: 0 <= i < |nodes| ==>
              && placed[i].c == nodes[i].c
              && placed[i].labelText == nodes[i].labelText
              && placed[i].tan == nodes[i].tan
              && placed[i].x == Some(g.x)
              && placed[i].r == Some(g.nodeSize)
              && placed[i].y.Some?
    ensures |nodes| >= 2 ==> placed[0].y == Some(g.y0) && placed[|nodes| - 1].y == Some(g.y1)
    ensures forall i :: 0 <= i < |nodes| - 1 ==>
              placed[i + 1].y.value - placed[i].y.value == (g.y1 - g.y0) / (|nodes| - 1) as real
  {
    var n := |nodes|;
    if n >= 2 then
      var step := (g.y1 - g.y0) / (n - 1) as real;
      assert (n - 1) as real * step == g.y1 - g.y0;
      assert LineY(g, n, n - 1) == g.y1;
      seq(n, i requires 0 <= i < n =>
        nodes[i].(x := Some(g.x), y := Some(LineY(g, n, i)), r := Some(g.nodeSize)))
    else
      []
  }

  /** The angle parameter positionY gives node i of n: it starts at -angle/2
      and ends at +angle/2. */
  function ArcAngle(angle: real, n: nat, i: nat): (t: real)
    requires 2 <= n && i < n
    ensures i == 0 ==> t == -angle / 2.0
    ensures i == n - 1 ==> t == angle / 2.0
  {
    var dt := angle / (n - 1) as real;
    assert (n - 1) as real * dt == angle;
    -0.5 * angle + i as real * dt
  }

  /** The nodes of one Y group after positionY: node i sits on the ellipse
      with centre (xOffset, yOffset) and radii xRadius, yRadius at angle
      ArcAngle(i), gets the tangent hint tanDir * tan(ArcAngle(i)) and the
      configured radius, and keeps its colour and label. */
  function OnArc(nodes: seq<Node>, g: ArcOptions, trig: Trig): (placed: seq<Node>)
    requires |nodes| != 1
    ensures |placed| == |nodes|
    ensures forall i :: 0 <= i < |nodes| ==>
              && placed[i].c == nodes[i].c
              && placed[i].labelText == nodes[i].labelText
              && placed[i].r == Some(g.nodeSize)
    ensures forall i :: 0 <= i < |nodes| ==>
              placed[i].x == Some(ArcX(g, trig, ArcAngle(g.angle, |nodes|, i)))
    ensures forall i :: 0 <= i < |nodes| ==>
              placed[i].y == Some(ArcY(g, trig, ArcAngle(g.angle, |nodes|, i)))
    ensures forall i :: 0 <= i < |nodes| ==>
              placed[i].tan == Some(ArcTangent(g, trig, ArcAngle(g.angle, |nodes|, i)))
  {
    var n := |nodes|;
    var placed := seq(n, i requires 0 <= i < n => AtAngle(nodes[i], g, trig, ArcAngle(g.angle, n, i)));
    placed
  }

  /** The x coordinate of the point at angle t of the ellipse: the centre
      xOffset plus xRadius times cos t. */
  function ArcX(g: ArcOptions, trig: Trig, t: real): real {
    g.xOffset + g.xRadius * trig.Cos(t)
  }

  /** The y coordinate of the point at angle t of the ellipse: the centre
      yOffset plus yRadius times sin t. */
  function ArcY(g: ArcOptions, trig: Trig, t: real): real {
    g.yOffset + g.yRadius * trig.Sin(t)
  }

  /** The tangent hint at angle t: tan t, its sign set by tanDir. */
  function ArcTangent(g: ArcOptions, trig: Trig, t: real): real {
    g.tanDir * trig.Tan(t)
  }

  /** The node as positionY leaves it when its angle parameter is t. */
  function AtAngle(node: Node, g: ArcOptions, trig: Trig, t: real): Node {
    node.(x := Some(ArcX(g, trig, t)), y := Some(ArcY(g, trig, t)),
          tan := Some(ArcTangent(g, trig, t)), r := Some(g.nodeSize))
  }

  /** positionZ: writes x, y and r into every node of the array. */
  method PositionZ(nodes: array<Node>, g: LineOptions)
    requires nodes.Length != 1
    modifies nodes
    ensures nodes[..] == OnLine(old(nodes[..]), g)
  {
    var dy := (g.y1 - g.y0) / (nodes.Length - 1) as real;
    for i := 0 to nodes.Length
      invariant forall j :: 0 <= j < i ==>
                  nodes[j] == old(nodes[j]).(x := Some(g.x), y := Some(LineY(g, nodes.Length, j)),
                                             r := Some(g.nodeSize))
      invariant forall j :: i <= j < nodes.Length ==> nodes[j] == old(nodes[j])
    {
      ghost var before := nodes[i];
      assert before == old(nodes[i]);
      nodes[i] := nodes[i].(x := Some(g.x));
      nodes[i] := nodes[i].(y := Some(g.y0 + i as real * dy));
      nodes[i] := nodes[i].(r := Some(g.nodeSize));
      assert g.y0 + i as real * dy == LineY(g, nodes.Length, i);
      assert nodes[i] == before.(x := Some(g.x), y := Some(LineY(g, nodes.Length, i)),
                                        r := Some(g.nodeSize));
    }
  }

  /** positionY: writes x, y, tan and r into every node of the array. */
  method PositionY(nodes: array<Node>, g: ArcOptions, trig: Trig)
    requires nodes.Length != 1
    modifies nodes
    ensures nodes[..] == OnArc(old(nodes[..]), g, trig)
  {
    var dt := g.angle / (nodes.Length - 1) as real;
    for i := 0 to nodes.Length
      invariant forall j :: 0 <= j < i ==>
                  nodes[j] == AtAngle(old(nodes[j]), g, trig, ArcAngle(g.angle, nodes.Length, j))
      invariant forall j :: i <= j < nodes.Length ==> nodes[j] == old(nodes[j])
    {
      ghost var before := nodes[i];
      assert before == old(nodes[i]);
      ghost var t := ArcAngle(g.angle, nodes.Length, i);
      assert -0.5 * g.angle + i as real * dt == t;
      nodes[i] := nodes[i].(x := Some(g.xOffset + g.xRadius * trig.Cos(-0.5 * g.angle + i as real * dt)));
      nodes[i] := nodes[i].(y := Some(g.yOffset + g.yRadius * trig.Sin(-0.5 * g.angle + i as real * dt)));
      nodes[i] := nodes[i].(tan := Some(g.tanDir * trig.Tan(-0.5 * g.angle + i as real * dt)));
      nodes[i] := nodes[i].(r := Some(g.nodeSize));
      assert nodes[i].x.value == ArcX(g, trig, t) && nodes[i].y.value == ArcY(g, trig, t);
      assert nodes[i].tan.value == ArcTangent(g, trig, t);
    }
  }

  /** Consecutive arc nodes are one uniform angular step angle / (n - 1) apart. */
  lemma ArcSpacing(angle: real, n: nat, i: nat)
    requires 2 <= n && i + 1 < n
    ensures ArcAngle(angle, n, i + 1) - ArcAngle(angle, n, i) == angle / (n - 1) as real
  {
  }

  /** With y0 < y1 the Z nodes go strictly down the line in array order. */
  lemma LineOrdered(nodes: seq<Node>, g: LineOptions, i: nat, j: nat)
    requires |nodes| >= 2 && g.y0 < g.y1 && i < j < |nodes|
    ensures OnLine(nodes, g)[i].y.value < OnLine(nodes, g)[j].y.value
  {
    var step := (g.y1 - g.y0) / (|nodes| - 1) as real;
    assert 0.0 < step;
    LineGap(nodes, g, i, j);
    assert 0.0 < (j - i) as real * step;
  }

  /** Nodes i <= j of the line are j - i uniform steps apart. */
  lemma {:induction false} LineGap(nodes: seq<Node>, g: LineOptions, i: nat, j: nat)
    requires |nodes| >= 2 && i <= j < |nodes|
    ensures OnLine(nodes, g)[j].y.value - OnLine(nodes, g)[i].y.value
            == (j - i) as real * ((g.y1 - g.y0) / (|nodes| - 1) as real)
  {
    var placed := OnLine(nodes, g);
    var step := (g.y1 - g.y0) / (|nodes| - 1) as real;
    if j > i {
      LineGap(nodes, g, i, j - 1);
      assert placed[j].y.value - placed[j - 1].y.value == step;
      assert (j - i) as real * step == (j - 1 - i) as real * step + step;
    }
  }

  /** With a positive angle the arc angles increase strictly in array order. */
  lemma {:induction false} ArcAnglesOrdered(angle: real, n: nat, i: nat, j: nat)
    requires 2 <= n && 0.0 < angle && i < j < n
    ensures ArcAngle(angle, n, i) < ArcAngle(angle, n, j)
  {
    if j == i + 1 {
      ArcSpacing(angle, n, i);
    } else {
      ArcAnglesOrdered(angle, n, i, j - 1);
      ArcSpacing(angle, n, j - 1);
    }
  }
}
