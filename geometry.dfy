/**
 * Document-space geometry used by the guided-dragging tool: points,
 * rectangles (go.Point, go.Rect), and the reference lines an alignment
 * pass compares. Coordinates are reals; NaN and infinities are not modelled.
 */
module Geometry {

  datatype Point = Point(x: real, y: real)

  /** An axis-aligned rectangle: top-left corner, width and height. */
  datatype Rect = Rect(x: real, y: real, width: real, height: real)

  /**
   * The horizontal pass lines up y-values (top, center, bottom) and draws
   * horizontal guidelines; the vertical pass lines up x-values (left,
   * center, right) and draws vertical guidelines.
   */
  datatype Axis = Horizontal | Vertical

  /**
   * A reference line of a part on the compared axis: Near is Top on the
   * horizontal pass and Left on the vertical one, Far is Bottom or Right.
   */
  datatype Spot = Near | Center | Far

  function Abs(v: real): real {
    if v < 0.0 then -v else v
  }

  function Min(a: real, b: real): real {
    if a <= b then a else b
  }

  function Max(a: real, b: real): real {
    if a >= b then a else b
  }

  /** Where the rectangle starts on the compared axis (y for horizontal lines). */
  function Start(r: Rect, axis: Axis): real {
    if axis == Horizontal then r.y else r.x
  }

  /** A point's coordinate on the compared axis (y for horizontal lines). */
  function Coord(p: Point, axis: Axis): real {
    if axis == Horizontal then p.y else p.x
  }

  /** A point's coordinate across the compared axis (x for horizontal lines). */
  function CrossCoord(p: Point, axis: Axis): real {
    if axis == Horizontal then p.x else p.y
  }

  /** The rectangle's extent on the compared axis (height for horizontal lines). */
  function Size(r: Rect, axis: Axis): real {
    if axis == Horizontal then r.height else r.width
  }

  /** Where the rectangle starts across the compared axis, the direction a guideline runs. */
  function CrossStart(r: Rect, axis: Axis): real {
    if axis == Horizontal then r.x else r.y
  }

  /** Where the rectangle ends across the compared axis. */
  function CrossEnd(r: Rect, axis: Axis): real {
    if axis == Horizontal then r.x + r.width else r.y + r.height
  }

  /** How far a spot lies from the rectangle's start on the compared axis. */
  function SpotOffset(size: real, s: Spot): real {
    match s
    case Near => 0.0
    case Center => size / 2.0
    case Far => size
  }

  /** The coordinate of a spot on the compared axis: p0, p1, p2 (or q0, q1, q2) of a pass. */
  function Line(r: Rect, axis: Axis, s: Spot): real {
    Start(r, axis) + SpotOffset(Size(r, axis), s)
  }

  /** go.Rect.inflate(w, h): w more on the left and on the right, h more on the top and on the bottom. */
  function Inflate(r: Rect, w: real, h: real): (a: Rect)
    ensures a.x == r.x - w && a.x + a.width == r.x + r.width + w
    ensures a.y == r.y - h && a.y + a.height == r.y + r.height + h
  {
    Rect(r.x - w, r.y - h, r.width + 2.0 * w, r.height + 2.0 * h)
  }

  function Translate(r: Rect, dx: real, dy: real): Rect {
    Rect(r.x + dx, r.y + dy, r.width, r.height)
  }
}
