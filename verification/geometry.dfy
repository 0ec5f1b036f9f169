/** Optional values, standing in for Swift optionals. */
module Wrappers {

  datatype Option<+T> = None | Some(value: T) {

    /** Returns the wrapped value, or `default` when there is none (Swift's `??`). */
    function GetOr(default: T): T {
      match this
      case Some(v) => v
      case None => default
    }
  }
}

/**
  Core Graphics values used by the panel: points, sizes, rectangles and
  edge insets, all over `real` (floating-point rounding is not modelled).
 */
module Geometry {

  datatype Point = Point(x: real, y: real)

  datatype Size = Size(width: real, height: real)

  datatype Rect = Rect(origin: Point, size: Size)

  datatype Insets = Insets(top: real, left: real, bottom: real, right: real)

  const ZeroInsets: Insets := Insets(0.0, 0.0, 0.0, 0.0)

  function Max(a: real, b: real): real {
    if a >= b then a else b
  }

  function Min(a: real, b: real): real {
    if a <= b then a else b
  }

  function Abs(a: real): real {
    if a < 0.0 then -a else a
  }

  /**
    `CGRect.contains(_:)`: the rectangle is standardized first (a negative
    size extends to the left or upwards); lower edges are inclusive and upper
    edges exclusive, so an empty rectangle contains nothing.
   */
  predicate Contains(r: Rect, p: Point) {
    var minX := Min(r.origin.x, r.origin.x + r.size.width);
    var maxX := Max(r.origin.x, r.origin.x + r.size.width);
    var minY := Min(r.origin.y, r.origin.y + r.size.height);
    var maxY := Max(r.origin.y, r.origin.y + r.size.height);
    minX <= p.x < maxX && minY <= p.y < maxY
  }

  /** For a rectangle with a non-negative size, containment is the half-open box test. */
  lemma ContainsHalfOpen(r: Rect, p: Point)
    requires r.size.width >= 0.0 && r.size.height >= 0.0
    ensures Contains(r, p) <==>
              r.origin.x <= p.x < r.origin.x + r.size.width &&
              r.origin.y <= p.y < r.origin.y + r.size.height
  {
  }

  /**
    Height of a rectangle of height `h` after `inset(by:)` removed `top` and
    `bottom`. The inset itself does no clamping; reading `.height` returns the
    standardized (absolute) height.
   */
  function InsetHeight(h: real, top: real, bottom: real): (r: real)
    ensures r >= 0.0
    ensures top + bottom <= h ==> r == h - top - bottom
    ensures top + bottom > h ==> r == top + bottom - h
  {
    Abs(h - top - bottom)
  }
}
