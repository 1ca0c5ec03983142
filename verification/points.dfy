/**
 * The point primitive (drawing/src/geometrical_shapes/point.rs): integer
 * coordinates, a random point on a canvas, and the 3x3 stamp drawn around it.
 */
module Points {
  import opened Canvas

  /** A pixel position; `Point(x, y)` is `Point::new(x, y)`. */
  datatype Point = Point(x: int, y: int)

  /**
   * `Point::random(width, height)`, with the two draws of `gen_range(0..width)`
   * and `gen_range(0..height)` passed in as `drawX` and `drawY`.
   */
  function Random(width: int, height: int, drawX: int, drawY: int): (p: Point)
    requires 0 <= drawX < width && 0 <= drawY < height
    ensures InCanvas(width, height, p.x, p.y)
  {
    Point(drawX, drawY)
  }

  /** The colours Point::draw picks from: every channel in [50, 200). */
  predicate StampColor(c: Color)
  {
    50 <= c.red < 200 && 50 <= c.green < 200 && 50 <= c.blue < 200
  }

  /** (i, j) lies in the 3x3 block centred on p. */
  predicate InBlock(p: Point, i: int, j: int)
  {
    -1 <= i - p.x <= 1 && -1 <= j - p.y <= 1
  }

  /**
   * The display requests Point::draw issues, in order: dx runs over -1, 0, 1
   * in the outer loop and dy over -1, 0, 1 in the inner one, all in one colour.
   */
  function Stamp(p: Point, color: Color): (ws: seq<Write>)
    ensures |ws| == 9
    ensures ws[0] == Write(p.x - 1, p.y - 1, color) && ws[8] == Write(p.x + 1, p.y + 1, color)
    ensures forall k :: 0 <= k < 9 ==> ws[k].color == color && InBlock(p, ws[k].x, ws[k].y)
  {
    seq(9, k => Write(p.x + k / 3 - 1, p.y + k % 3 - 1, color))
  }

  /** The stamp requests a pixel exactly when it lies in the 3x3 block. */
  lemma StampCoversBlock(p: Point, color: Color, i: int, j: int)
    ensures Hits(Stamp(p, color), i, j) <==> InBlock(p, i, j)
  {
    var ws := Stamp(p, color);
    if InBlock(p, i, j) {
      var k := 3 * (i - p.x + 1) + (j - p.y + 1);
      assert ws[k].x == i && ws[k].y == j;
    }
  }

  /**
   * The stamp's coordinates strictly increase in (x, y) order: dx is the
   * outer loop and dy the inner one, and no pixel is requested twice.
   */
  lemma StampOrdered(p: Point, color: Color)
    ensures forall k, m :: 0 <= k < m < 9 ==>
              Stamp(p, color)[k].x < Stamp(p, color)[m].x ||
              (Stamp(p, color)[k].x == Stamp(p, color)[m].x && Stamp(p, color)[k].y < Stamp(p, color)[m].y)
  {
  }

  /**
   * Displaying the stamp colours exactly the pixels of the 3x3 block and
   * leaves every other pixel as it was.
   */
  lemma {:induction false} PaintStamp(p: Point, color: Color, i: int, j: int, before: Color)
    ensures Paint(Stamp(p, color), i, j, before) == if InBlock(p, i, j) then color else before
  {
    PaintUniform(Stamp(p, color), color, i, j, before);
    StampCoversBlock(p, color, i, j);
  }

  /**
   * `Point::draw`: nine display requests around p, in one colour chosen
   * before the loops. Only the pixels of the block that lie on the image change.
   */
  method Draw(p: Point, image: Image, color: Color)
    requires image.Valid() && StampColor(color)
    modifies image, image.pixels
    ensures image.Valid()
    ensures image.displayed == old(image.displayed) + Stamp(p, color)
    ensures forall i, j :: 0 <= i < image.width && 0 <= j < image.height ==>
              image.pixels[i, j] == if InBlock(p, i, j) then color else old(image.pixels[i, j])
  {
    ghost var ws := Stamp(p, color);
    ghost var before := image.displayed;
    for dx := -1 to 2
      invariant image.Valid()
      invariant image.displayed == before + ws[..3 * (dx + 1)]
    {
      for dy := -1 to 2
        invariant image.Valid()
        invariant image.displayed == before + ws[..3 * (dx + 1) + (dy + 1)]
      {
        ghost var n := 3 * (dx + 1) + (dy + 1);
        assert ws[..n + 1] == ws[..n] + [Write(p.x + dx, p.y + dy, color)];
        image.Display(p.x + dx, p.y + dy, color);
      }
    }
    assert ws[..9] == ws;
    forall i, j | 0 <= i < image.width && 0 <= j < image.height
      ensures image.pixels[i, j] == if InBlock(p, i, j) then color else old(image.pixels[i, j])
    {
      PaintAppend(before, ws, i, j, image.background);
      PaintStamp(p, color, i, j, old(image.pixels[i, j]));
    }
  }
}
