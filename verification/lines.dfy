/**
 * The line primitive as the composites see it. Its rasterisation
 * (`Line::from_points(a, b).draw(image)`) is not part of this model: a
 * composite's drawing is the sequence of segments it asks Line to draw.
 */
module Lines {
  import opened Points

  /** One request `Line::from_points(start, end).draw(image)`. */
  datatype Segment = Segment(start: Point, end: Point)

  /** The point moved by `offset` along both axes. */
  function Nudge(p: Point, offset: int): Point
  {
    Point(p.x + offset, p.y + offset)
  }

  /** The segment moved diagonally by (offset, offset): both ends shift alike. */
  function Shift(s: Segment, offset: int): Segment
  {
    Segment(Nudge(s.start, offset), Nudge(s.end, offset))
  }
}
