/** Shape records: the solids the builders hand to the geometry library,
    and the boolean solids they compose from them. The library itself is not
    modelled; a shape is the record it is given. */
module Shapes {
  import opened Placements

  datatype BoolOp = Union | Subtraction

  /** A solid (half-lengths and radii in cm). A boolean solid combines its
      `first` operand with its `second` operand placed at `pos` (a position
      named `posName`) and rotated by `rot`. */
  datatype Shape =
    | Box(name: string, dx: real, dy: real, dz: real)
    | Tubs(name: string, rmin: real, rmax: real, dz: real)
    | Torus(name: string, rmin: real, rmax: real, rtor: real)
    | Boolean(name: string, op: BoolOp, first: Shape, second: Shape, posName: string, pos: Vec3, rot: string)

  /** A logical volume: a name, a material, a shape and auxiliary
      (name, value) parameters. */
  datatype Volume = Volume(name: string, material: string, shape: Shape, params: seq<(string, string)>)

  /** The innermost operand of a chain of boolean solids. */
  function Base(s: Shape): (b: Shape)
    ensures !b.Boolean?
  {
    if s.Boolean? then Base(s.first) else s
  }

  /** The boolean solids of the chain through the `first` operands, the
      innermost first: the order in which they were built. */
  function Layers(s: Shape): (l: seq<Shape>)
    ensures |l| == 0 <==> !s.Boolean?
    ensures |l| > 0 ==> l[|l| - 1] == s
  {
    if s.Boolean? then Layers(s.first) + [s] else []
  }

  /** Each layer of a chain is built on the previous one, the first on the
      base. */
  lemma {:induction false} LayersChain(s: Shape, m: int)
    requires 0 <= m < |Layers(s)|
    ensures Layers(s)[m].Boolean?
    ensures Layers(s)[m].first == if m == 0 then Base(s) else Layers(s)[m - 1]
  {
    if m < |Layers(s)| - 1 {
      LayersChain(s.first, m);
    }
  }

  /** Putting a boolean solid on top of a shape adds one layer and keeps the base. */
  lemma OnTop(s: Shape)
    requires s.Boolean?
    ensures Layers(s) == Layers(s.first) + [s] && Base(s) == Base(s.first)
  {
  }
}
