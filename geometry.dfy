/**
 * Bounding boxes of canvas items, as `canvas.coords` reports them:
 * (x0, y0) is the top-left corner and (x1, y1) the bottom-right one.
 * Coordinates are exact reals: the game only adds, halves and uses 37.5.
 */
module Geometry {

  datatype Box = Box(x0: real, y0: real, x1: real, y1: real)

  function Width(b: Box): real { b.x1 - b.x0 }

  function Height(b: Box): real { b.y1 - b.y0 }

  /** Horizontal centre, `(coords[0] + coords[2]) * 0.5`. */
  function CenterX(b: Box): real { (b.x0 + b.x1) * 0.5 }

  /** The box `create_oval`/`create_rectangle` get for a shape of half-extents (hw, hh) centred on (x, y). */
  function BoxAround(x: real, y: real, hw: real, hh: real): (r: Box)
    ensures CenterX(r) == x && r.y0 == y - hh && r.y1 == y + hh
    ensures Width(r) == 2.0 * hw && Height(r) == 2.0 * hh
  {
    Box(x - hw, y - hh, x + hw, y + hh)
  }

  /** `canvas.move(item, dx, dy)`: a translation, so the size never changes. */
  function Translate(b: Box, dx: real, dy: real): (r: Box)
    ensures Width(r) == Width(b) && Height(r) == Height(b)
    ensures CenterX(r) == CenterX(b) + dx
    ensures r.x0 == b.x0 + dx && r.y0 == b.y0 + dy
  {
    Box(b.x0 + dx, b.y0 + dy, b.x1 + dx, b.y1 + dy)
  }

  /** Two closed boxes share at least one point. */
  predicate Overlaps(a: Box, b: Box)
  {
    a.x0 <= b.x1 && b.x0 <= a.x1 && a.y0 <= b.y1 && b.y0 <= a.y1
  }

  lemma TranslateUndone(b: Box, dx: real, dy: real)
    ensures Translate(Translate(b, dx, dy), -dx, -dy) == b
  {
  }
}
