/** Real-valued plane geometry shared by both drawing conventions.

    A `Rect` is stored by its minimum corner: on a raster canvas (y grows
    downwards) that is the top-left corner, as `fillRect` takes it; on a PDF
    page (y grows upwards) it is the lower-left corner, as `drawRectangle`
    takes it. Either way `x .. x + w` and `y .. y + h` are its extents.
 */
module Geometry {

  datatype Option<+T> = None | Some(value: T)

  datatype Point = Point(x: real, y: real)

  const Origin: Point := Point(0.0, 0.0)

  datatype Rect = Rect(x: real, y: real, w: real, h: real) {

    function Right(): real { x + w }

    function YEnd(): real { y + h }

    function CenterX(): real { x + w / 2.0 }

    function CenterY(): real { y + h / 2.0 }

    /** The rectangle lies within the horizontal extent [0, width]. */
    predicate WithinWidth(width: real) {
      0.0 <= x && Right() <= width
    }

    /** The rectangle lies within [0, width] x [0, height]. */
    predicate WithinSurface(width: real, height: real) {
      WithinWidth(width) && 0.0 <= y && YEnd() <= height
    }
  }

  /** A length given either absolutely or relative to some base length. */
  datatype Measure =
    | Scaled(factor: real)   // factor * base
    | Fixed(value: real)     // independent of the base
    | Inset(distance: real)  // base - distance
  {
    function Of(base: real): (r: real)
      ensures Scaled? ==> r == factor * base
      ensures Fixed? ==> r == value
      ensures Inset? ==> r + distance == base
    {
      match this
      case Scaled(f) => f * base
      case Fixed(v) => v
      case Inset(d) => base - d
    }
  }

  function Min(a: real, b: real): (m: real)
    ensures m <= a && m <= b
    ensures m == a || m == b
  {
    if a <= b then a else b
  }

  /** `outer` surrounds `inner` with margin `mx` on the left and on the
      right, and margin `my` at either end of the y extent. */
  predicate Surrounds(outer: Rect, inner: Rect, mx: real, my: real) {
    && inner.x - outer.x == mx
    && outer.Right() - inner.Right() == mx
    && inner.y - outer.y == my
    && outer.YEnd() - inner.YEnd() == my
  }

  /** Surrounding with equal margins preserves the centre. */
  lemma SurroundsSameCentre(outer: Rect, inner: Rect, mx: real, my: real)
    requires Surrounds(outer, inner, mx, my)
    ensures outer.CenterX() == inner.CenterX()
    ensures outer.CenterY() == inner.CenterY()
    ensures outer.w == inner.w + 2.0 * mx
    ensures outer.h == inner.h + 2.0 * my
  {
  }

  /** A rectangle centred on the middle of [0, width] fits inside it
      exactly when it is no wider than it. */
  lemma CentredFitsIff(r: Rect, width: real)
    requires r.CenterX() == width / 2.0 && r.w >= 0.0
    ensures r.WithinWidth(width) <==> r.w <= width
  {
  }
}
