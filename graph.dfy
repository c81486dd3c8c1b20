/** The records an eye diagram is drawn from: the node and edge objects of the
    input data, and the trigonometric primitives the layout calls. */
module Graph {

  /** A JavaScript property that may be missing (`undefined`). */
  datatype Option<T> = None | Some(value: T)

  /** One node object of the Z, Y_left or Y_right array. The input supplies
      the colour `c` and, optionally, a label (`labelText`); the layout writes `x`, `y`
      and `r` into every node and `tan` into arc nodes only. */
  datatype Node = Node(c: string, labelText: Option<string>,
                       x: Option<real>, y: Option<real>, r: Option<real>,
                       tan: Option<real>)

  /** One edge object of Y_left_to_Z or Y_right_to_Z: the index `y` of its
      node in the Y group, the index `z` of its node in Z, its stroke width
      `w`, stroke opacity `o` and colour `c`. */
  datatype Edge = Edge(y: int, z: int, w: real, o: real, c: string)

  /** Math.cos, Math.sin and Math.tan, supplied by the caller. Nothing is
      assumed about them. */
  datatype Trig = Trig(Cos: real -> real, Sin: real -> real, Tan: real -> real)

  /** The node has coordinates (the layout has run over it). */
  predicate Placed(n: Node) {
    n.x.Some? && n.y.Some?
  }

  /** The node has coordinates and a tangent hint (an arc node after layout). */
  predicate PlacedWithTangent(n: Node) {
    Placed(n) && n.tan.Some?
  }
}
