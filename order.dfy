/** The drawing order of draw_diagram, stated over the document: the drawn
    elements in document order, and how many of each kind there are. */
module DrawOrder {
  import opened Graph
  import opened Config
  import opened Render

  /** The drawn elements of the svg children in document order (the style
      block holds none). */
  function Flatten(children: seq<Child>): seq<Element> {
    if children == [] then []
    else Flatten(children[..|children| - 1]) + ElementsOf(children[|children| - 1])
  }

  function ElementsOf(c: Child): seq<Element> {
    if c.Group? then c.elements else []
  }

  datatype Kind = PathKind | CircleKind | TextKind

  function KindOf(e: Element): Kind {
    match e
    case Path(_, _, _, _) => PathKind
    case Circle(_, _, _, _) => CircleKind
    case Text(_, _, _, _, _, _) => TextKind
  }

  /** The number of elements of kind k. */
  function Count(s: seq<Element>, k: Kind): nat {
    if s == [] then 0
    else Count(s[..|s| - 1], k) + (if KindOf(s[|s| - 1]) == k then 1 else 0)
  }

  /** The number of texts draw_nodes adds for n nodes. */
  function LabelCount(g: GroupOptions, n: nat): nat {
    if g.drawLabels then n else 0
  }

  lemma {:induction false} CountConcat(a: seq<Element>, b: seq<Element>, k: Kind)
    ensures Count(a + b, k) == Count(a, k) + Count(b, k)
  {
    if b == [] {
      assert a + b == a;
    } else {
      assert (a + b)[..|a + b| - 1] == a + b[..|b| - 1];
      CountConcat(a, b[..|b| - 1], k);
    }
  }

  /** In a sequence of elements all of one kind, that kind is counted once
      per element and every other kind not at all. */
  lemma {:induction false} CountUniform(s: seq<Element>, same: Kind, k: Kind)
    requires forall i :: 0 <= i < |s| ==> KindOf(s[i]) == same
    ensures Count(s, k) == if k == same then |s| else 0
  {
    if s != [] {
      CountUniform(s[..|s| - 1], same, k);
    }
  }

  /** Appending children appends their elements: what the browser version
      draws comes after whatever its svg element already held. */
  lemma {:induction false} FlattenConcat(a: seq<Child>, b: seq<Child>)
    ensures Flatten(a + b) == Flatten(a) + Flatten(b)
  {
    if b == [] {
      assert a + b == a;
    } else {
      assert (a + b)[..|a + b| - 1] == a + b[..|b| - 1];
      FlattenConcat(a, b[..|b| - 1]);
    }
  }

  lemma FlattenOne(c: Child)
    ensures Flatten([c]) == ElementsOf(c)
  {
    assert [c][..0] == [];
  }

  /** The elements of the five groups draw_diagram appends, in order. */
  lemma DiagramDocument(yLeft: seq<Node>, yRight: seq<Node>, z: seq<Node>,
                        leftEdges: seq<Edge>, rightEdges: seq<Edge>, o: Options)
    requires Drawable(leftEdges, yLeft, z) && Drawable(rightEdges, yRight, z)
    ensures Flatten(Diagram(yLeft, yRight, z, leftEdges, rightEdges, o))
            == EdgeGroup(leftEdges, yLeft, z, o) + EdgeGroup(rightEdges, yRight, z, o)
               + (NodeGroup(z, o.z) + NodeGroup(yLeft, o.yLeft) + NodeGroup(yRight, o.yRight))
  {
    var d := Diagram(yLeft, yRight, z, leftEdges, rightEdges, o);
    assert d == [d[0]] + [d[1]] + ([d[2]] + [d[3]] + [d[4]]);
    FlattenConcat([d[0]] + [d[1]], [d[2]] + [d[3]] + [d[4]]);
    FlattenConcat([d[0]], [d[1]]);
    FlattenConcat([d[2]] + [d[3]], [d[4]]);
    FlattenConcat([d[2]], [d[3]]);
    FlattenOne(d[0]);
    FlattenOne(d[1]);
    FlattenOne(d[2]);
    FlattenOne(d[3]);
    FlattenOne(d[4]);
  }

  /** Count over a concatenation, for the three kinds at once. */
  lemma CountConcatAll(a: seq<Element>, b: seq<Element>)
    ensures forall k :: Count(a + b, k) == Count(a, k) + Count(b, k)
  {
    CountConcat(a, b, PathKind);
    CountConcat(a, b, CircleKind);
    CountConcat(a, b, TextKind);
  }

  /** Count over a sequence of one kind, for the three kinds at once. */
  lemma CountUniformAll(s: seq<Element>, same: Kind)
    requires forall i :: 0 <= i < |s| ==> KindOf(s[i]) == same
    ensures forall k :: Count(s, k) == if k == same then |s| else 0
  {
    CountUniform(s, same, PathKind);
    CountUniform(s, same, CircleKind);
    CountUniform(s, same, TextKind);
  }

  /** The counts of a node group: one circle per node, one text per node
      when labels are drawn, no path. */
  lemma NodeGroupCounts(nodes: seq<Node>, g: GroupOptions)
    ensures Count(NodeGroup(nodes, g), PathKind) == 0
    ensures Count(NodeGroup(nodes, g), CircleKind) == |nodes|
    ensures Count(NodeGroup(nodes, g), TextKind) == LabelCount(g, |nodes|)
  {
    var labels := if g.drawLabels then Labels(nodes, g) else [];
    assert NodeGroup(nodes, g) == Circles(nodes) + labels;
    CountConcatAll(Circles(nodes), labels);
    CountUniformAll(Circles(nodes), CircleKind);
    CountUniformAll(labels, TextKind);
  }

  /** A node group holds circles and texts only. */
  lemma NodeGroupHasNoPaths(nodes: seq<Node>, g: GroupOptions)
    ensures forall i :: 0 <= i < |NodeGroup(nodes, g)| ==> !NodeGroup(nodes, g)[i].Path?
  {
    var group := NodeGroup(nodes, g);
    forall i | 0 <= i < |group| ensures !group[i].Path? {
      if i >= |nodes| {
        assert group[|nodes| + (i - |nodes|)].Text?;
      }
    }
  }

  /** Two runs of paths followed by elements that are not paths: the paths
      are exactly the first |l| + |r| elements. */
  lemma PathsThenOthers(l: seq<Element>, r: seq<Element>, others: seq<Element>)
    requires forall i :: 0 <= i < |l| ==> l[i].Path?
    requires forall i :: 0 <= i < |r| ==> r[i].Path?
    requires forall i :: 0 <= i < |others| ==> !others[i].Path?
    ensures var doc := l + r + others;
            && (forall i :: 0 <= i < |l| + |r| ==> doc[i].Path?)
            && (forall i :: |l| + |r| <= i < |doc| ==> !doc[i].Path?)
  {
    var doc := l + r + others;
    forall i | 0 <= i < |doc| ensures doc[i].Path? <==> i < |l| + |r| {
      if i < |l| {
        assert doc[i] == l[i];
      } else if i < |l| + |r| {
        assert doc[i] == r[i - |l|];
      } else {
        assert doc[i] == others[i - |l| - |r|];
      }
    }
  }

  /** Elements that are not paths, joined, are still not paths. */
  lemma NoPathsConcat(a: seq<Element>, b: seq<Element>)
    requires forall i :: 0 <= i < |a| ==> !a[i].Path?
    requires forall i :: 0 <= i < |b| ==> !b[i].Path?
    ensures forall i :: 0 <= i < |a + b| ==> !(a + b)[i].Path?
  {
    forall i | 0 <= i < |a + b| ensures !(a + b)[i].Path? {
      if i >= |a| {
        assert (a + b)[i] == b[i - |a|];
      }
    }
  }

  /** The paths of draw_diagram come first, the Y_left->Z group and then
      the Y_right->Z group. */
  lemma DiagramEdgeGroups(yLeft: seq<Node>, yRight: seq<Node>, z: seq<Node>,
                          leftEdges: seq<Edge>, rightEdges: seq<Edge>, o: Options)
    requires Drawable(leftEdges, yLeft, z) && Drawable(rightEdges, yRight, z)
    ensures var doc := Flatten(Diagram(yLeft, yRight, z, leftEdges, rightEdges, o));
            && |leftEdges| + |rightEdges| <= |doc|
            && doc[..|leftEdges|] == EdgeGroup(leftEdges, yLeft, z, o)
            && doc[|leftEdges|..|leftEdges| + |rightEdges|] == EdgeGroup(rightEdges, yRight, z, o)
  {
    DiagramDocument(yLeft, yRight, z, leftEdges, rightEdges, o);
    var l, r := EdgeGroup(leftEdges, yLeft, z, o), EdgeGroup(rightEdges, yRight, z, o);
    var nz, nl, nr := NodeGroup(z, o.z), NodeGroup(yLeft, o.yLeft), NodeGroup(yRight, o.yRight);
    FrontParts(l, r, nz + nl + nr);
  }

  /** The first two parts of a three-part concatenation, recovered by slicing. */
  lemma FrontParts(l: seq<Element>, r: seq<Element>, rest: seq<Element>)
    ensures (l + r + rest)[..|l|] == l && (l + r + rest)[|l|..|l| + |r|] == r
  {
    assert (l + r + rest)[..|l|] == l;
    assert (l + r + rest)[|l|..|l| + |r|] == r;
  }

  /** The drawing order of draw_diagram: node groups are drawn after both
      edge groups, so every path comes before every circle and text. */
  lemma DiagramOrder(yLeft: seq<Node>, yRight: seq<Node>, z: seq<Node>,
                     leftEdges: seq<Edge>, rightEdges: seq<Edge>, o: Options)
    requires Drawable(leftEdges, yLeft, z) && Drawable(rightEdges, yRight, z)
    ensures var doc := Flatten(Diagram(yLeft, yRight, z, leftEdges, rightEdges, o));
            var paths := |leftEdges| + |rightEdges|;
            && paths <= |doc|
            && (forall i :: 0 <= i < paths ==> doc[i].Path?)
            && (forall i :: paths <= i < |doc| ==> !doc[i].Path?)
  {
    DiagramDocument(yLeft, yRight, z, leftEdges, rightEdges, o);
    var l, r := EdgeGroup(leftEdges, yLeft, z, o), EdgeGroup(rightEdges, yRight, z, o);
    var nz, nl, nr := NodeGroup(z, o.z), NodeGroup(yLeft, o.yLeft), NodeGroup(yRight, o.yRight);
    var others := nz + nl + nr;
    assert forall i :: 0 <= i < |others| ==> !others[i].Path? by {
      NodeGroupHasNoPaths(z, o.z);
      NodeGroupHasNoPaths(yLeft, o.yLeft);
      NodeGroupHasNoPaths(yRight, o.yRight);
      NoPathsConcat(nz, nl);
      NoPathsConcat(nz + nl, nr);
    }
    PathsThenOthers(l, r, others);
  }

  /** What draw_diagram draws: one path per edge of the two edge lists, one
      circle per node of the three groups, and one text per node of each
      group that draws labels. */
  lemma DiagramCounts(yLeft: seq<Node>, yRight: seq<Node>, z: seq<Node>,
                      leftEdges: seq<Edge>, rightEdges: seq<Edge>, o: Options)
    requires Drawable(leftEdges, yLeft, z) && Drawable(rightEdges, yRight, z)
    ensures var doc := Flatten(Diagram(yLeft, yRight, z, leftEdges, rightEdges, o));
            && Count(doc, PathKind) == |leftEdges| + |rightEdges|
            && Count(doc, CircleKind) == |z| + |yLeft| + |yRight|
            && Count(doc, TextKind) == LabelCount(o.z, |z|) + LabelCount(o.yLeft, |yLeft|)
                                       + LabelCount(o.yRight, |yRight|)
  {
    DiagramDocument(yLeft, yRight, z, leftEdges, rightEdges, o);
    var l, r := EdgeGroup(leftEdges, yLeft, z, o), EdgeGroup(rightEdges, yRight, z, o);
    var nz, nl, nr := NodeGroup(z, o.z), NodeGroup(yLeft, o.yLeft), NodeGroup(yRight, o.yRight);
    NodeGroupCounts(z, o.z);
    NodeGroupCounts(yLeft, o.yLeft);
    NodeGroupCounts(yRight, o.yRight);
    CountUniformAll(l, PathKind);
    CountUniformAll(r, PathKind);
    CountConcatAll(l + r, nz + nl + nr);
    CountConcatAll(l, r);
    CountConcatAll(nz + nl, nr);
    CountConcatAll(nz, nl);
  }
}
