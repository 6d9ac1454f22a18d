/** Pixel-space vectors, regions and the shape interface of the layer library.
    The C program indexes a vector by axis (`axes[0]` is the column, `axes[1]`
    the row); Get and Set give that view of a Vec2. */
module Geometry {

  /** An axis index: 0 is x (column), 1 is y (row). */
  type Axis = a: int | 0 <= a < 2

  datatype Vec2 = Vec2(x: int, y: int) {

    function Get(a: Axis): int {
      if a == 0 then x else y
    }

    /** The vector with axis `a` replaced by `v`; the other axis is kept. */
    function Set(a: Axis, v: int): (r: Vec2)
      ensures r.Get(a) == v
      ensures r.Get(1 - a) == Get(1 - a)
    {
      if a == 0 then Vec2(v, y) else Vec2(x, v)
    }

    /** vec2Add of the shape library. */
    function Add(o: Vec2): (r: Vec2)
      ensures forall a: Axis :: r.Get(a) == Get(a) + o.Get(a)
    {
      Vec2(x + o.x, y + o.y)
    }
  }

  /** An axis-aligned box, both corners inclusive. */
  datatype Region = Region(topLeft: Vec2, botRight: Vec2)

  /** The shape interface: a bounds computation and a containment test, both
      taking the shape's centre. The concrete shapes (rectangles, the outline,
      the 14-pixel circle) live in the shape library, so a shape here is just
      the pair of functions it dispatches to. */
  datatype AbShape = AbShape(getBounds: Vec2 -> Region, check: (Vec2, Vec2) -> bool)
}
