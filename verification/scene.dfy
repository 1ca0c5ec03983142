/**
 * The scene setup of drawing/src/main.rs: the 800x600 canvas and the table
 * that turns a `shape_choice` draw into the kind of shape drawn.
 */
module Scene {
  import opened Canvas
  import opened Points

  const Width := 800
  const Height := 600

  datatype Option<T> = None | Some(value: T)

  /** The shape kinds `main` dispatches to. */
  datatype ShapeKind = PointKind | LineKind | RectangleKind | TriangleKind | CircleKind

  /**
   * The `match shape_choice` of `main`: the kind drawn for a choice, or
   * None for the `_ => {}` arm, which draws nothing.
   */
  function ShapeFor(choice: int): (kind: Option<ShapeKind>)
    ensures kind.Some? <==> 0 <= choice < 10
    ensures kind == Some(CircleKind) <==> 4 <= choice < 10
  {
    match choice
    case 0 => Some(PointKind)
    case 1 => Some(LineKind)
    case 2 => Some(RectangleKind)
    case 3 => Some(TriangleKind)
    case 4 | 5 | 6 | 7 | 8 | 9 => Some(CircleKind)
    case _ => None
  }

  /** The choices in [0, 10) that select a given kind. */
  function ChoicesFor(kind: ShapeKind): set<int>
  {
    set c | 0 <= c < 10 && ShapeFor(c) == Some(kind)
  }

  /**
   * For a draw of `gen_range(0..10)` every kind but the circle is selected by
   * exactly one choice and the circle by the other six, so the `_` arm is
   * never taken.
   */
  lemma ChoiceTable()
    ensures ChoicesFor(PointKind) == {0} && ChoicesFor(LineKind) == {1}
    ensures ChoicesFor(RectangleKind) == {2} && ChoicesFor(TriangleKind) == {3}
    ensures ChoicesFor(CircleKind) == {4, 5, 6, 7, 8, 9} && |ChoicesFor(CircleKind)| == 6
    ensures forall c :: 0 <= c < 10 ==> ShapeFor(c) != None
  {
  }

  /** `Image::blank(width, height)` for the scene: an 800x600 canvas. */
  method BlankCanvas(background: Color) returns (image: Image)
    ensures fresh(image) && fresh(image.pixels) && image.Valid()
    ensures image.width == Width && image.height == Height && image.displayed == []
    ensures forall i, j :: 0 <= i < Width && 0 <= j < Height ==> image.pixels[i, j] == background
  {
    image := new Image.Blank(Width, Height, background);
  }

  /**
   * A point drawn at the corner (0, 0) of the 800x600 canvas colours exactly
   * the four pixels (0, 0), (0, 1), (1, 0) and (1, 1); the other five
   * requests of its stamp fall off the canvas.
   */
  method DrawCornerPoint(image: Image, color: Color)
    requires image.Valid() && image.width == Width && image.height == Height
    requires StampColor(color)
    modifies image, image.pixels
    ensures image.Valid()
    ensures forall i, j :: 0 <= i < Width && 0 <= j < Height ==>
              image.pixels[i, j] == if (i, j) in {(0, 0), (0, 1), (1, 0), (1, 1)} then color
                                    else old(image.pixels[i, j])
  {
    Points.Draw(Point(0, 0), image, color);
  }
}
