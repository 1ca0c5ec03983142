/**
 * The pixel sink every shape draws into: a fixed-size grid of colours whose
 * only write operation silently discards coordinates outside the grid
 * (`impl Displayable for Image` in drawing/src/main.rs).
 */
module Canvas {

  /** An 8-bit colour channel. */
  newtype byte = x: int | 0 <= x < 256

  /** A colour given by its red, green and blue channels. */
  datatype Color = Rgb(red: byte, green: byte, blue: byte)

  /** One request to display a pixel: the coordinates asked for and the colour. */
  datatype Write = Write(x: int, y: int, color: Color)

  /** (x, y) names a pixel of a width x height grid. */
  predicate InCanvas(width: int, height: int, x: int, y: int)
  {
    0 <= x < width && 0 <= y < height
  }

  /**
   * The colour pixel (i, j) of the grid has after `writes` are displayed in
   * order, when it had colour `before`: the last write aimed at (i, j) wins,
   * and a pixel no write aims at keeps its colour.
   */
  function Paint(writes: seq<Write>, i: int, j: int, before: Color): Color
  {
    if writes == [] then before
    else
      var last := writes[|writes| - 1];
      if last.x == i && last.y == j then last.color
      else Paint(writes[..|writes| - 1], i, j, before)
  }

  /** Displaying one more write changes only the pixel that write is aimed at. */
  lemma PaintSnoc(writes: seq<Write>, w: Write, i: int, j: int, before: Color)
    ensures Paint(writes + [w], i, j, before)
            == if w.x == i && w.y == j then w.color else Paint(writes, i, j, before)
  {
  }

  /** Displaying `first` and then `rest` is displaying `rest` over the result of `first`. */
  lemma {:induction false} PaintAppend(first: seq<Write>, rest: seq<Write>, i: int, j: int, before: Color)
    ensures Paint(first + rest, i, j, before) == Paint(rest, i, j, Paint(first, i, j, before))
  {
    if rest == [] {
      assert first + rest == first;
    } else {
      var n := |rest| - 1;
      PaintAppend(first, rest[..n], i, j, before);
      assert (first + rest)[..|first| + n] == first + rest[..n];
    }
  }

  /** Some write of `writes` is aimed at pixel (i, j). */
  predicate Hits(writes: seq<Write>, i: int, j: int)
  {
    exists k :: 0 <= k < |writes| && writes[k].x == i && writes[k].y == j
  }

  /**
   * When every write carries the same colour, a pixel ends up in that
   * colour exactly when some write is aimed at it, and is untouched otherwise.
   */
  lemma {:induction false} PaintUniform(writes: seq<Write>, color: Color, i: int, j: int, before: Color)
    requires forall k :: 0 <= k < |writes| ==> writes[k].color == color
    ensures Paint(writes, i, j, before) == if Hits(writes, i, j) then color else before
  {
    if writes != [] {
      var n := |writes| - 1;
      var init := writes[..n];
      PaintUniform(init, color, i, j, before);
      if Hits(writes, i, j) && !(writes[n].x == i && writes[n].y == j) {
        var k :| 0 <= k < |writes| && writes[k].x == i && writes[k].y == j;
        assert init[k] == writes[k];
      }
      if Hits(init, i, j) {
        var k :| 0 <= k < |init| && init[k].x == i && init[k].y == j;
        assert writes[k] == init[k];
      }
    }
  }

  /**
   * An image of fixed width and height. `pixels[x, y]` is the colour at
   * column x, row y; `displayed` records every call of Display, in order,
   * and `background` is the colour the image was created with.
   */
  class Image {
    const width: int
    const height: int
    const pixels: array2<Color>
    ghost const background: Color
    ghost var displayed: seq<Write>

    /** Every pixel is what displaying the log on the blank image gives. */
    ghost predicate Valid()
      reads this, pixels
    {
      pixels.Length0 == width && pixels.Length1 == height &&
      forall i, j :: 0 <= i < width && 0 <= j < height ==>
        pixels[i, j] == Paint(displayed, i, j, background)
    }

    /** A blank image: every pixel has the colour `background`. */
    constructor Blank(width: nat, height: nat, background: Color)
      ensures Valid() && fresh(pixels)
      ensures this.width == width && this.height == height
      ensures displayed == []
      ensures forall i, j :: 0 <= i < width && 0 <= j < height ==> pixels[i, j] == background
    {
      this.width := width;
      this.height := height;
      this.background := background;
      pixels := new Color[width, height]((_, _) => background);
      displayed := [];
    }

    /**
     * Display pixel (x, y) in `color` when it lies on the image; otherwise
     * the image is left as it was and no error is raised. Either way the
     * request is recorded.
     */
    method Display(x: int, y: int, color: Color)
      requires Valid()
      modifies this, pixels
      ensures Valid()
      ensures displayed == old(displayed) + [Write(x, y, color)]
      ensures forall i, j :: 0 <= i < width && 0 <= j < height ==>
                pixels[i, j] == if i == x && j == y then color else old(pixels[i, j])
      ensures !InCanvas(width, height, x, y) ==>
                forall i, j :: 0 <= i < width && 0 <= j < height ==> pixels[i, j] == old(pixels[i, j])
    {
      if x >= 0 && x < width && y >= 0 && y < height {
        pixels[x, y] := color;
      }
      displayed := displayed + [Write(x, y, color)];
      forall i, j | 0 <= i < width && 0 <= j < height
        ensures pixels[i, j] == Paint(displayed, i, j, background)
      {
        PaintSnoc(old(displayed), Write(x, y, color), i, j, background);
      }
    }
  }
}
