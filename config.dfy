/** The configuration record of the eye diagram and the built-in defaults of
    get_default_options. JavaScript numbers are modelled as reals. */
module Config {

  /** Options of one node group. The line group (Z) and the two arc groups
      (Y_left, Y_right) share the node size and the label fields, which is
      all that drawing the nodes reads. */
  datatype GroupOptions =
    | LineGroup(y0: real, y1: real, x: real, nodeSize: real,
                drawLabels: bool, labelsDx: real, labelsDy: real, labelsAnchor: string)
    | ArcGroup(angle: real, yRadius: real, yOffset: real,
               xRadius: real, xOffset: real, tanDir: real, nodeSize: real,
               drawLabels: bool, labelsDx: real, labelsDy: real, labelsAnchor: string)

  /** Options of the Z group: nodes on a vertical line from y0 to y1. */
  type LineOptions = g: GroupOptions | g.LineGroup?
    witness LineGroup(0.0, 0.0, 0.0, 0.0, false, 0.0, 0.0, "")

  /** Options of a Y group: nodes on part of an ellipse. */
  type ArcOptions = g: GroupOptions | g.ArcGroup?
    witness ArcGroup(0.0, 0.0, 0.0, 0.0, 0.0, 0.0, 0.0, false, 0.0, 0.0, "")

  /** The whole configuration. `tension` shapes d3's bundle spline and
      `ctrlPointOffsetCoeff` places the inner control points of an edge. */
  datatype Options = Options(height: real, width: real, tension: real,
                             ctrlPointOffsetCoeff: real,
                             z: LineOptions, yLeft: ArcOptions, yRight: ArcOptions)

  /** The two arcs are mirror images about the vertical line x == cx: same
      angle and vertical ellipse, opposite horizontal radius, centres placed
      symmetrically and opposite tangent directions. */
  predicate MirroredArcs(left: ArcOptions, right: ArcOptions, cx: real) {
    && left.angle == right.angle
    && left.yRadius == right.yRadius
    && left.yOffset == right.yOffset
    && left.xRadius == -right.xRadius
    && left.xOffset + right.xOffset == 2.0 * cx
    && left.tanDir == -right.tanDir
  }

  /** The built-in options. Z runs over the middle half of the height at
      mid-width; the two arcs are mirror images about that column. */
  function DefaultOptions(): (o: Options)
    ensures o.height == 600.0 && o.width == 700.0 && 0.0 < o.ctrlPointOffsetCoeff < 1.0
    ensures o.z.y0 == 0.25 * o.height && o.z.y1 == 0.75 * o.height && o.z.y0 < o.z.y1
    ensures o.z.x == o.width / 2.0
    ensures o.yLeft.xRadius == -o.yRight.xRadius
    ensures o.yLeft.tanDir == 1.0 && o.yRight.tanDir == -1.0
    ensures MirroredArcs(o.yLeft, o.yRight, o.z.x)
    ensures o.z.drawLabels && o.yLeft.drawLabels && o.yRight.drawLabels
  {
    var height := 600.0;
    var width := 700.0;
    var tension := 1.0;
    var ctrlPointOffsetCoeff := 0.3;
    var zYMarginCoeff := 0.25;
    var radius := 400.0;
    var nodeSize := 3.0;
    var zLabelsDy := 15.0;
    var zLabelsDx := 0.0;
    var yLabelsDy := 3.0;
    var yLabelsDx := 5.0;
    var yLeftAngle := 3.1415 / 2.0;
    var yRightAngle := 3.1415 / 2.0;
    Options(height, width, tension, ctrlPointOffsetCoeff,
            LineGroup(zYMarginCoeff * height, (1.0 - zYMarginCoeff) * height, width / 2.0,
                      nodeSize, true, zLabelsDx, zLabelsDy, "middle"),
            ArcGroup(yLeftAngle, radius, height / 2.0, -radius, radius + 0.05 * width, 1.0,
                     nodeSize, true, -yLabelsDx, yLabelsDy, "end"),
            ArcGroup(yRightAngle, radius, height / 2.0, radius, 0.95 * width - radius, -1.0,
                     nodeSize, true, yLabelsDx, yLabelsDy, "start"))
  }
}
