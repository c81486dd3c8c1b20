# Eye diagram layout and drawing, modelled in Dafny

An eye diagram has three node groups. The Z nodes stand on a vertical line in
the middle. The Y_left and Y_right nodes sit on two arcs of an ellipse, one on
each side. Curved edges join Y nodes to Z nodes. The drawing code comes in two
copies: `eye_diagram_lib.js` (the Node version) and `eye_diagram_browser.js`
(the browser version). Both copies run the same engine:

- `positionZ` writes `x`, `y` and `r` into every Z node, in place. The nodes
  are spaced evenly from `y0` to `y1`.
- `positionY` writes `x`, `y`, `tan` and `r` into every node of a Y group, in
  place. The angle runs from `-angle/2` to `+angle/2` in equal steps.
- `YtoZline` builds the four control points `[p1, p2, p3, p4]` that d3's
  bundle spline draws an edge through.
- `draw_edges` and `draw_nodes` add one `g` group each to the svg root. An
  edge group holds a path per edge. A node group holds a circle per node and,
  when labels are on, a text per node. `draw_diagram` positions all three
  groups, then draws the Y_left→Z edges, the Y_right→Z edges, and the Z,
  Y_left and Y_right nodes.
- `get_default_options` (Node version only) builds the configuration record.

The model follows the code's own form:

- The node arrays are Dafny `array<Node>`. `PositionZ` and `PositionY` update
  them in place with `for` loops. `OnLine` and `OnArc` say what each array
  holds afterwards.
- The svg root is a class `Svg`. Its methods append element records (path,
  circle, text) in place of d3's DOM calls.
- Control points and defaults are pure functions.
- JavaScript numbers are `real`.
- `Math.cos`, `Math.sin` and `Math.tan` are passed in as a `Trig` value.
  Nothing is assumed about them.
- A node property that is still `undefined` is `None`.

Files and modules:

- `graph.dfy` (`Graph`): nodes, edges, `Trig`.
- `config.dfy` (`Config`): options and defaults.
- `layout.dfy` (`Layout`): the two positioning loops.
- `curve.dfy` (`Curve`): the control points.
- `render.dfy` (`Render`): the svg object and the drawing methods.
- `order.dfy` (`DrawOrder`): document order and element counts.
- `symmetry.dfy` (`Symmetry`): left–right mirror properties.

Behaviour of the code that the model keeps:

- Neither copy raises an error for a group of one node or for an edge index
  out of range. A one-node group makes `positionZ`/`positionY` divide by zero
  and write NaN. A bad index makes `YtoZline` fail at run time with a
  TypeError. Here both are preconditions: each group's length must not be 1,
  and every edge index must be in range. An empty group is allowed, as in the
  code: its loop does nothing.
- At k = 0, p2 coincides with p1 and p3 with p4. At k = 1, p2.x = p4.x and
  p3.x = p1.x. This is because p3.x is `p1.x + (1-k)(p4.x-p1.x)` and p3.y is
  `p4.y`. `InnerPointsAtLimits` and `InnerPointsMonotone` state it.
- `positionZ` and `positionY` write into the caller's node objects, and so
  does the model.
- In a node group, d3 appends all the circles first and then all the texts.
  Circles and texts are not interleaved.
- Only the Node version sets `xmlns` and adds the style block. The browser
  version only sets the width and height of an existing element, and keeps
  what that element already holds.

## Model

| member | source | states |
|---|---|---|
| Config.DefaultOptions | eye_diagram_lib.js:6-90 | Height 600 and width 700. Z runs from 0.25·height to 0.75·height (so y0 < y1) at x = width/2. Y_left.x_radius = −Y_right.x_radius; tan_dir is 1 on the left and −1 on the right. The two arcs mirror each other about the Z column. k lies in (0,1). Every group draws labels. |
| Layout.OnLine | eye_diagram_lib.js:125-132 | After positionZ: the length is unchanged. Every node has x = opts.x and r = nodesize, and keeps its c, label and tan (positionZ never writes tan). With n ≥ 2, node 0 is at y0 and node n−1 at y1. Consecutive nodes differ in y by exactly (y1−y0)/(n−1). The same code is eye_diagram_browser.js:15-22. |
| Layout.PositionZ | eye_diagram_lib.js:125-132 | The in-place loop leaves the array equal to OnLine of its old contents. Requires length ≠ 1 (division by length−1). Same code: eye_diagram_browser.js:15-22. |
| Layout.LineOrdered | eye_diagram_lib.js:126-129 | When y0 < y1, the Z nodes' y grows strictly with the index. |
| Layout.LineGap | eye_diagram_lib.js:126-129 | Z nodes i ≤ j are exactly j−i steps of (y1−y0)/(n−1) apart in y. |
| Layout.ArcAngle | eye_diagram_lib.js:135-139 | Node i's angle parameter. Node 0 has −angle/2 and node n−1 has +angle/2. |
| Layout.ArcSpacing | eye_diagram_lib.js:135-139 | Consecutive angle parameters differ by exactly angle/(n−1). |
| Layout.ArcAnglesOrdered | eye_diagram_lib.js:135-139 | When angle > 0, the angle parameter grows strictly with the index. |
| Layout.OnArc | eye_diagram_lib.js:134-142 | After positionY: the length is unchanged and each node keeps its c and label. Node i has x = x_offset + x_radius·cos tᵢ, y = y_offset + y_radius·sin tᵢ, tan = tan_dir·tan tᵢ and r = nodesize, where tᵢ = ArcAngle(i). Same code: eye_diagram_browser.js:24-32. |
| Layout.PositionY | eye_diagram_lib.js:134-142 | The in-place loop leaves the array equal to OnArc of its old contents. Requires length ≠ 1. Same code: eye_diagram_browser.js:24-32. |
| Curve.ControlPoints | eye_diagram_lib.js:144-151 | The control points have four entries. p1 is the Y node's position and p4 is the Z node's position. p3.y = p4.y. p2.x−p1.x = k(p4.x−p1.x) and p3.x−p1.x = (1−k)(p4.x−p1.x). p2 lies on the slope −tan line through p1. p2.x + p3.x = p1.x + p4.x. Same code: eye_diagram_browser.js:34-41. |
| Curve.InnerPointsBetween | eye_diagram_lib.js:148-150 | For k in [0,1], p2.x and p3.x lie between p1.x and p4.x. |
| Curve.InnerPointsAtLimits | eye_diagram_lib.js:148-150 | At k = 0, p2 = p1 and p3 = p4. At k = 1, p2.x = p4.x and p3.x = p1.x. |
| Curve.InnerPointsMonotone | eye_diagram_lib.js:148-150 | A larger k moves p2 horizontally farther from p1, and p3 farther from p4, by the same amount. |
| Render.Svg.Create | eye_diagram_lib.js:93-96 | A new svg root with the svg namespace, the given width and height, and no children. |
| Render.Svg.Resize | eye_diagram_browser.js:5-7 | Sets the width and height of an existing element. Its namespace and children are unchanged. |
| Render.Svg.AppendStyle | eye_diagram_lib.js:99-117 | Appends the style block after the existing children. Nothing else changes. |
| Render.Svg.AppendGroup | eye_diagram_lib.js:157 | `svg.append("g")`: appends one empty group after the existing children. Nothing else changes. Also at eye_diagram_lib.js:169. |
| Render.Svg.AppendToLastGroup | eye_diagram_lib.js:158-160 | One `enter().append(...)` for one datum: adds the element at the end of the last group. The earlier children and the root's other fields are unchanged. Also at eye_diagram_lib.js:172 and 179. |
| Render.EdgeGroup | eye_diagram_lib.js:156-166 | The group draw_edges fills has exactly one path per edge. |
| Render.EdgeGroupPath | eye_diagram_lib.js:156-166 | Path i carries edge i's w, o and c. Its d is d3's bundle at opts.tension through YtoZline's points for that edge, so it runs from the edge's Y node to its Z node. Same code: eye_diagram_browser.js:46-56. |
| Render.NodeGroup | eye_diagram_lib.js:168-187 | The group draw_nodes fills holds a circle per node, in node order, with cx = x, cy = y, r = r and fill = c. Then, if and only if draw_labels, it holds a text per node with the node's x and y, the configured dx, dy and anchor, and the label ("" when undefined). Same code: eye_diagram_browser.js:58-77. |
| Render.DrawEdges | eye_diagram_lib.js:156-166 | Appends exactly one group, EdgeGroup of the edges. The root's namespace and size are unchanged. |
| Render.DrawNodes | eye_diagram_lib.js:168-187 | Appends exactly one group, NodeGroup of the nodes: first a loop of circles, then a loop of texts. |
| Render.DrawAll | eye_diagram_lib.js:189-196 | Positions Z, Y_left and Y_right. Then appends the five groups of Diagram (Y_left→Z paths, Y_right→Z paths, Z, Y_left and Y_right nodes) after the existing children. Same code: eye_diagram_browser.js:79-86. |
| Render.DrawDiagram | eye_diagram_lib.js:92-197 | The Node version returns a fresh root with the namespace, the configured width and height, the style block, and then the five groups. The node arrays end up positioned. |
| Render.DrawDiagramInto | eye_diagram_browser.js:4-87 | The browser version resizes the given element. It keeps the element's namespace and existing children and appends the five groups after them. The node arrays end up positioned. |
| Render.Diagram | eye_diagram_lib.js:189-196 | The five groups draw_diagram appends, in order. The first two hold only paths, one per Y_left→Z and one per Y_right→Z edge. The last three (Z, Y_left and Y_right nodes) hold no path. |
| DrawOrder.DiagramDocument | eye_diagram_lib.js:189-196 | In document order, the drawn elements are the Y_left→Z group, the Y_right→Z group, then the Z, Y_left and Y_right node groups. |
| DrawOrder.DiagramEdgeGroups | eye_diagram_lib.js:192-193 | The first #Y_left_to_Z elements are the Y_left→Z paths. The next #Y_right_to_Z elements are the Y_right→Z paths. |
| DrawOrder.DiagramOrder | eye_diagram_lib.js:189-196 | Exactly the first #Y_left_to_Z+#Y_right_to_Z elements are paths. Every circle and text comes after every path. |
| DrawOrder.NodeGroupCounts | eye_diagram_lib.js:168-187 | A node group holds no path, one circle per node, and one text per node if and only if labels are drawn. |
| DrawOrder.DiagramCounts | eye_diagram_lib.js:156-196 | Paths = #Y_left_to_Z+#Y_right_to_Z. Circles = #Z+#Y_left+#Y_right. Texts = the sizes of the groups that draw labels. |
| DrawOrder.FlattenConcat | eye_diagram_browser.js:79-86 | The elements of appended children follow the elements already present. So the browser version's drawing comes after whatever its element held. |
| Symmetry.ArcNodesMirror | eye_diagram_lib.js:134-142 | Take two arcs whose options mirror each other about x = cx. Their nodes at the same index have x-coordinates summing to 2·cx, the same y, and opposite tan. |
| Symmetry.CurvesMirror | eye_diagram_lib.js:144-151 | Curves from two mirrored Y nodes to one Z node on the axis are reflections of each other, in all four control points. |
| Symmetry.DiagramMirror | eye_diagram_lib.js:189-193 | With mirrored arc options and the same edge list on both sides, path i of the Y_right→Z group reflects path i of the Y_left→Z group in the Z column. |
| Symmetry.DefaultArcsMirror | eye_diagram_lib.js:58-80 | Under the defaults, Y_left and Y_right nodes at the same index mirror each other about x = width/2, with opposite tangent hints. |

## Left out

- d3's `line().interpolate("bundle").tension(...)` and the path string it
  produces. A path's `d` is modelled as the pair (control points, tension)
  that the string is computed from.
- IEEE floating point. Numbers are exact reals, so rounding is not modelled,
  and neither is the NaN that a one-node group produces (a precondition
  excludes it). The trigonometric functions are arbitrary functions supplied
  by the caller, so nothing about `tan` near ±π/2 is modelled. The default
  angle uses 3.1415, as in the code.
- The style block's CSS text and the serialization to markup are not
  modelled. The style block is a single record, and the document is the
  record sequence.
- `export_eye_diagram.js` (command line, reading files, JSON parsing, jsdom,
  printing) is not part of this model.
- The Node version appends its new svg root to a parent `elem`. The parent is
  not modelled; `DrawDiagram` returns the new root.
- The `class` attributes ("line" on paths, "nodes" on circles) are constants
  fixed by the record kind, so they are not stored.
- Node objects are values. A node object that appears twice in one array, or
  in two arrays, is not modelled. The three node arrays must be distinct.
- Options are a complete, typed record. An options file with missing or
  wrongly typed fields (the code would compute NaN or `undefined`) is not
  modelled. Edge fields are always present.
- `ControlPoints` requires positioned end nodes. The code always positions
  the groups before drawing edges. Unpositioned nodes would give NaN there.
- Render.EdgeGroup: its own contract states only one path per edge. The
  attributes and control points of each path are stated by
  `Render.EdgeGroupPath`.
