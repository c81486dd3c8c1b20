/** The renderer: draw_edges, draw_nodes and the call order of draw_diagram.
    d3's selection calls become records appended to an svg object: one
    group per draw call, one path per edge, one circle and (when labels are
    drawn) one text per node. */
module Render {
  import opened Graph
  import opened Config
  import opened Layout
  import opened Curve

  /** The `d` attribute of a path: d3's bundle line through the control
      points at the given tension. The path string d3 makes of it is a
      function of these two values and is not modelled further. */
  datatype PathData = Bundle(points: seq<Point>, tension: real)

  /** One drawn element. A path has class "line" and a circle class "nodes";
      an attribute whose value is undefined is absent, as d3 leaves it. */
  datatype Element =
    | Path(strokeWidth: real, strokeOpacity: real, stroke: string, d: PathData)
    | Circle(cx: Option<real>, cy: Option<real>, radius: Option<real>, fill: string)
    | Text(tx: Option<real>, ty: Option<real>, dx: real, dy: real, anchor: string, content: string)

  /** A child of the svg root: the style block (its fixed CSS text is not
      modelled) or a `g` group of drawn elements. */
  datatype Child = StyleSheet | Group(elements: seq<Element>)

  const SvgNamespace: string := "http://www.w3.org/2000/svg"

  /** The svg root element that the drawing appends to. */
  class Svg {
    var xmlns: Option<string>
    var width: real
    var height: real
    var children: seq<Child>

    /** A new svg element with namespace, width and height set. */
    constructor Create(width: real, height: real)
      ensures xmlns == Some(SvgNamespace) && this.width == width && this.height == height
      ensures children == []
    {
      xmlns := Some(SvgNamespace);
      this.width := width;
      this.height := height;
      children := [];
    }

    /** Sets width and height of an existing element; its content stays. */
    method Resize(width: real, height: real)
      modifies this
      ensures this.width == width && this.height == height
      ensures xmlns == old(xmlns) && children == old(children)
    {
      this.width := width;
      this.height := height;
    }

    /** Appends the defs/style block. */
    method AppendStyle()
      modifies this
      ensures children == old(children) + [StyleSheet]
      ensures xmlns == old(xmlns) && width == old(width) && height == old(height)
    {
      children := children + [StyleSheet];
    }

    /** Appends an empty `g` group. */
    method AppendGroup()
      modifies this
      ensures children == old(children) + [Group([])]
      ensures xmlns == old(xmlns) && width == old(width) && height == old(height)
    {
      children := children + [Group([])];
    }

    /** Appends one element to the last group. */
    method AppendToLastGroup(e: Element)
      requires |children| > 0 && children[|children| - 1].Group?
      modifies this
      ensures children == old(children[..|children| - 1])
                          + [Group(old(children[|children| - 1].elements) + [e])]
      ensures xmlns == old(xmlns) && width == old(width) && height == old(height)
    {
      var last := |children| - 1;
      children := children[..last] + [Group(children[last].elements + [e])];
    }
  }

  /** Every edge indexes an existing node of its Y group and of Z, and both
      endpoints are positioned (the Y node with its tangent hint). */
  predicate Drawable(edges: seq<Edge>, ys: seq<Node>, zs: seq<Node>) {
    forall i :: 0 <= i < |edges| ==>
      && 0 <= edges[i].y < |ys| && 0 <= edges[i].z < |zs|
      && PlacedWithTangent(ys[edges[i].y]) && Placed(zs[edges[i].z])
  }

  /** The path drawn for one edge: its stroke attributes and YtoZline's
      control points at the configured tension. */
  function EdgePath(e: Edge, ys: seq<Node>, zs: seq<Node>, o: Options): Element
    requires 0 <= e.y < |ys| && 0 <= e.z < |zs|
    requires PlacedWithTangent(ys[e.y]) && Placed(zs[e.z])
  {
    Path(e.w, e.o, e.c, Bundle(ControlPoints(ys[e.y], zs[e.z], o.ctrlPointOffsetCoeff), o.tension))
  }

  /** The content of the group draw_edges appends: one path per edge. */
  function EdgeGroup(edges: seq<Edge>, ys: seq<Node>, zs: seq<Node>, o: Options): (group: seq<Element>)
    requires Drawable(edges, ys, zs)
    ensures |group| == |edges|
    ensures forall i :: 0 <= i < |edges| ==> group[i].Path?
  {
    seq(|edges|, i requires 0 <= i < |edges| => EdgePath(edges[i], ys, zs, o))
  }

  /** Path i of an edge group belongs to edge i: it carries that edge's
      width, opacity and colour, and its control points, at the configured
      tension, run from the edge's Y node to its Z node. */
  lemma EdgeGroupPath(edges: seq<Edge>, ys: seq<Node>, zs: seq<Node>, o: Options, i: nat)
    requires Drawable(edges, ys, zs) && i < |edges|
    ensures var p := EdgeGroup(edges, ys, zs, o)[i];
            && p.strokeWidth == edges[i].w
            && p.strokeOpacity == edges[i].o
            && p.stroke == edges[i].c
            && p.d.tension == o.tension
            && p.d.points == ControlPoints(ys[edges[i].y], zs[edges[i].z], o.ctrlPointOffsetCoeff)
            && p.d.points[0] == Position(ys[edges[i].y])
            && p.d.points[3] == Position(zs[edges[i].z])
  {
  }

  /** The circle drawn for a node. */
  function CircleOf(n: Node): Element {
    Circle(n.x, n.y, n.r, n.c)
  }

  /** The text d3 writes for a label: the label, or nothing when undefined. */
  function LabelText(text: Option<string>): string {
    if text.Some? then text.value else ""
  }

  /** The label drawn for a node, offset and anchored as the group says. */
  function LabelOf(n: Node, g: GroupOptions): Element {
    Text(n.x, n.y, g.labelsDx, g.labelsDy, g.labelsAnchor, LabelText(n.labelText))
  }

  function Circles(nodes: seq<Node>): seq<Element> {
    seq(|nodes|, i requires 0 <= i < |nodes| => CircleOf(nodes[i]))
  }

  function Labels(nodes: seq<Node>, g: GroupOptions): seq<Element> {
    seq(|nodes|, i requires 0 <= i < |nodes| => LabelOf(nodes[i], g))
  }

  /** The content of the group draw_nodes appends: a circle per node, in
      node order, at the node's position with its radius and colour; then,
      only when the group draws labels, a text per node in node order. */
  function NodeGroup(nodes: seq<Node>, g: GroupOptions): (group: seq<Element>)
    ensures |group| == if g.drawLabels then 2 * |nodes| else |nodes|
    ensures forall i :: 0 <= i < |nodes| ==>
              group[i] == Circle(nodes[i].x, nodes[i].y, nodes[i].r, nodes[i].c)
    ensures g.drawLabels ==> forall i :: 0 <= i < |nodes| ==>
              group[|nodes| + i] == Text(nodes[i].x, nodes[i].y, g.labelsDx, g.labelsDy,
                                         g.labelsAnchor, LabelText(nodes[i].labelText))
  {
    Circles(nodes) + (if g.drawLabels then Labels(nodes, g) else [])
  }

  /** draw_edges: appends a group with one path per edge. */
  method DrawEdges(svg: Svg, edges: seq<Edge>, ys: array<Node>, zs: array<Node>, o: Options)
    requires Drawable(edges, ys[..], zs[..])
    modifies svg
    ensures svg.children == old(svg.children) + [Group(EdgeGroup(edges, ys[..], zs[..], o))]
    ensures svg.xmlns == old(svg.xmlns) && svg.width == old(svg.width) && svg.height == old(svg.height)
  {
    svg.AppendGroup();
    for i := 0 to |edges|
      invariant svg.children == old(svg.children) + [Group(EdgeGroup(edges[..i], ys[..], zs[..], o))]
      invariant svg.xmlns == old(svg.xmlns) && svg.width == old(svg.width) && svg.height == old(svg.height)
    {
      svg.AppendToLastGroup(EdgePath(edges[i], ys[..], zs[..], o));
      assert EdgeGroup(edges[..i + 1], ys[..], zs[..], o)
          == EdgeGroup(edges[..i], ys[..], zs[..], o) + [EdgePath(edges[i], ys[..], zs[..], o)];
    }
    assert edges[..|edges|] == edges;
  }

  /** draw_nodes: appends a group with a circle per node, then a text per
      node when the group draws labels. */
  method DrawNodes(svg: Svg, nodes: array<Node>, g: GroupOptions)
    modifies svg
    ensures svg.children == old(svg.children) + [Group(NodeGroup(nodes[..], g))]
    ensures svg.xmlns == old(svg.xmlns) && svg.width == old(svg.width) && svg.height == old(svg.height)
  {
    svg.AppendGroup();
    assert Circles(nodes[..0]) == [];
    for i := 0 to nodes.Length
      invariant svg.children == old(svg.children) + [Group(Circles(nodes[..i]))]
      invariant svg.xmlns == old(svg.xmlns) && svg.width == old(svg.width) && svg.height == old(svg.height)
    {
      svg.AppendToLastGroup(CircleOf(nodes[i]));
      assert Circles(nodes[..i + 1]) == Circles(nodes[..i]) + [CircleOf(nodes[i])];
    }
    assert nodes[..nodes.Length] == nodes[..];
    if g.drawLabels {
      assert Circles(nodes[..]) + Labels(nodes[..0], g) == Circles(nodes[..]);
      for i := 0 to nodes.Length
        invariant svg.children == old(svg.children) + [Group(Circles(nodes[..]) + Labels(nodes[..i], g))]
        invariant svg.xmlns == old(svg.xmlns) && svg.width == old(svg.width) && svg.height == old(svg.height)
      {
        svg.AppendToLastGroup(LabelOf(nodes[i], g));
        assert Labels(nodes[..i + 1], g) == Labels(nodes[..i], g) + [LabelOf(nodes[i], g)];
        assert Circles(nodes[..]) + Labels(nodes[..i + 1], g)
            == Circles(nodes[..]) + Labels(nodes[..i], g) + [LabelOf(nodes[i], g)];
      }
      assert nodes[..nodes.Length] == nodes[..];
    } else {
      assert Circles(nodes[..]) + [] == Circles(nodes[..]);
    }
  }

  /** Every edge indexes an existing node of its Y group and of Z. */
  predicate InRange(edges: seq<Edge>, yCount: nat, zCount: nat) {
    forall i :: 0 <= i < |edges| ==> 0 <= edges[i].y < yCount && 0 <= edges[i].z < zCount
  }

  /** The groups draw_diagram appends, in order: the Y_left->Z paths, the
      Y_right->Z paths, then the Z, Y_left and Y_right nodes. */
  function Diagram(yLeft: seq<Node>, yRight: seq<Node>, z: seq<Node>,
                   leftEdges: seq<Edge>, rightEdges: seq<Edge>, o: Options): (d: seq<Child>)
    requires Drawable(leftEdges, yLeft, z) && Drawable(rightEdges, yRight, z)
    ensures |d| == 5 && forall k :: 0 <= k < 5 ==> d[k].Group?
    ensures |d[0].elements| == |leftEdges| && |d[1].elements| == |rightEdges|
    ensures forall k, i :: 0 <= k < 2 && 0 <= i < |d[k].elements| ==> d[k].elements[i].Path?
    ensures forall k, i :: 2 <= k < 5 && 0 <= i < |d[k].elements| ==> !d[k].elements[i].Path?
  {
    [Group(EdgeGroup(leftEdges, yLeft, z, o)),
     Group(EdgeGroup(rightEdges, yRight, z, o)),
     Group(NodeGroup(z, o.z)),
     Group(NodeGroup(yLeft, o.yLeft)),
     Group(NodeGroup(yRight, o.yRight))]
  }

  /** The shared body of draw_diagram: position the three node groups, then
      draw both edge groups and the three node groups. */
  method DrawAll(svg: Svg, yLeft: array<Node>, yRight: array<Node>, z: array<Node>,
                 leftEdges: seq<Edge>, rightEdges: seq<Edge>, o: Options, trig: Trig)
    requires yLeft != yRight && yLeft != z && yRight != z
    requires yLeft.Length != 1 && yRight.Length != 1 && z.Length != 1
    requires InRange(leftEdges, yLeft.Length, z.Length) && InRange(rightEdges, yRight.Length, z.Length)
    modifies svg, yLeft, yRight, z
    ensures z[..] == OnLine(old(z[..]), o.z)
    ensures yLeft[..] == OnArc(old(yLeft[..]), o.yLeft, trig)
    ensures yRight[..] == OnArc(old(yRight[..]), o.yRight, trig)
    ensures Drawable(leftEdges, yLeft[..], z[..]) && Drawable(rightEdges, yRight[..], z[..])
    ensures svg.children == old(svg.children) + Diagram(yLeft[..], yRight[..], z[..], leftEdges, rightEdges, o)
    ensures svg.xmlns == old(svg.xmlns) && svg.width == old(svg.width) && svg.height == old(svg.height)
  {
    PositionZ(z, o.z);
    PositionY(yLeft, o.yLeft, trig);
    PositionY(yRight, o.yRight, trig);
    DrawEdges(svg, leftEdges, yLeft, z, o);
    DrawEdges(svg, rightEdges, yRight, z, o);
    DrawNodes(svg, z, o.z);
    DrawNodes(svg, yLeft, o.yLeft);
    DrawNodes(svg, yRight, o.yRight);
  }

  /** draw_diagram of the Node version: a new svg root with namespace, the
      configured size and the style block, then the drawing. */
  method DrawDiagram(yLeft: array<Node>, yRight: array<Node>, z: array<Node>,
                     leftEdges: seq<Edge>, rightEdges: seq<Edge>, o: Options, trig: Trig)
    returns (svg: Svg)
    requires yLeft != yRight && yLeft != z && yRight != z
    requires yLeft.Length != 1 && yRight.Length != 1 && z.Length != 1
    requires InRange(leftEdges, yLeft.Length, z.Length) && InRange(rightEdges, yRight.Length, z.Length)
    modifies yLeft, yRight, z
    ensures fresh(svg)
    ensures svg.xmlns == Some(SvgNamespace) && svg.width == o.width && svg.height == o.height
    ensures z[..] == OnLine(old(z[..]), o.z)
    ensures yLeft[..] == OnArc(old(yLeft[..]), o.yLeft, trig)
    ensures yRight[..] == OnArc(old(yRight[..]), o.yRight, trig)
    ensures Drawable(leftEdges, yLeft[..], z[..]) && Drawable(rightEdges, yRight[..], z[..])
    ensures svg.children == [StyleSheet] + Diagram(yLeft[..], yRight[..], z[..], leftEdges, rightEdges, o)
  {
    svg := new Svg.Create(o.width, o.height);
    svg.AppendStyle();
    DrawAll(svg, yLeft, yRight, z, leftEdges, rightEdges, o, trig);
  }

  /** draw_diagram of the browser version: an existing svg element gets the
      configured size and the drawing is appended to what it holds. */
  method DrawDiagramInto(svg: Svg, yLeft: array<Node>, yRight: array<Node>, z: array<Node>,
                         leftEdges: seq<Edge>, rightEdges: seq<Edge>, o: Options, trig: Trig)
    requires yLeft != yRight && yLeft != z && yRight != z
    requires yLeft.Length != 1 && yRight.Length != 1 && z.Length != 1
    requires InRange(leftEdges, yLeft.Length, z.Length) && InRange(rightEdges, yRight.Length, z.Length)
    modifies svg, yLeft, yRight, z
    ensures svg.xmlns == old(svg.xmlns) && svg.width == o.width && svg.height == o.height
    ensures z[..] == OnLine(old(z[..]), o.z)
    ensures yLeft[..] == OnArc(old(yLeft[..]), o.yLeft, trig)
    ensures yRight[..] == OnArc(old(yRight[..]), o.yRight, trig)
    ensures Drawable(leftEdges, yLeft[..], z[..]) && Drawable(rightEdges, yRight[..], z[..])
    ensures svg.children == old(svg.children) + Diagram(yLeft[..], yRight[..], z[..], leftEdges, rightEdges, o)
  {
    svg.Resize(o.width, o.height);
    DrawAll(svg, yLeft, yRight, z, leftEdges, rightEdges, o, trig);
  }
}
