/**
 * The rectangle composite (drawing/src/geometrical_shapes/rectangle.rs): a
 * list of corner pairs made from random draws, each outlined three times
 * with the far corners of the outline jittered by -1, 0 and 1.
 */
module Rectangles {
  import opened Points
  import opened Lines

  /**
   * The draws one iteration of `Rectangle::new` makes: a width in [100, 250),
   * a height in [80, 180) and a position from `Point::random(800, 800)`.
   */
  datatype Sizing = Sizing(width: int, height: int, posX: int, posY: int)

  predicate SizingInRange(d: Sizing)
  {
    100 <= d.width < 250 && 80 <= d.height < 180 && 0 <= d.posX < 800 && 0 <= d.posY < 800
  }

  /** The stored corner pairs (p1, p2), in the order they were made. */
  datatype Rectangle = Rectangle(rects: seq<(Point, Point)>)

  /**
   * `Rectangle::new(_p1, _p2)`: the two points are ignored; one corner pair
   * is pushed per draw, `|draws|` being the `gen_range(2..4)` count.
   */
  method New(p1: Point, p2: Point, draws: seq<Sizing>) returns (r: Rectangle)
    requires 2 <= |draws| < 4
    requires forall k :: 0 <= k < |draws| ==> SizingInRange(draws[k])
    ensures 2 <= |r.rects| < 4 && |r.rects| == |draws|
    ensures forall k :: 0 <= k < |draws| ==>
              r.rects[k].0 == Point(draws[k].posX, draws[k].posY) &&
              r.rects[k].1.x - r.rects[k].0.x == draws[k].width &&
              r.rects[k].1.y - r.rects[k].0.y == draws[k].height
    ensures forall k :: 0 <= k < |r.rects| ==>
              0 <= r.rects[k].0.x < 800 && 0 <= r.rects[k].0.y < 800 &&
              r.rects[k].0.x < r.rects[k].1.x && r.rects[k].0.y < r.rects[k].1.y
  {
    var rects: seq<(Point, Point)> := [];
    var i := 0;
    while i < |draws|
      invariant 0 <= i <= |draws| && |rects| == i
      invariant forall k :: 0 <= k < i ==>
                  rects[k].0 == Point(draws[k].posX, draws[k].posY) &&
                  rects[k].1 == Point(draws[k].posX + draws[k].width, draws[k].posY + draws[k].height)
    {
      var d := draws[i];
      var pos := Random(800, 800, d.posX, d.posY);
      rects := rects + [(pos, Point(pos.x + d.width, pos.y + d.height))];
      i := i + 1;
    }
    r := Rectangle(rects);
  }

  /**
   * One pass of `Rectangle::draw` for corners p1, p2 at the given offset:
   * p1 -> top_right -> p2 -> bottom_left -> p1.
   */
  function Pass(p1: Point, p2: Point, offset: int): (s: seq<Segment>)
    ensures |s| == 4
    ensures s[0].start == p1 && s[3].end == p1
    ensures forall e :: 0 <= e < 3 ==> s[e].end == s[e + 1].start
    ensures s[1].end == p2 && s[2].start == p2
    ensures s[0].end.y == p1.y && s[0].end.x - p2.x == offset
    ensures s[2].end.x == p1.x && s[2].end.y - p2.y == offset
  {
    var topRight := Point(p2.x + offset, p1.y);
    var bottomLeft := Point(p1.x, p2.y + offset);
    [Segment(p1, topRight), Segment(topRight, p2), Segment(p2, bottomLeft), Segment(bottomLeft, p1)]
  }

  /** The first n passes for one corner pair; pass i uses offset i - 1. */
  function Passes(p1: Point, p2: Point, n: nat): (s: seq<Segment>)
    ensures |s| == 4 * n
  {
    if n == 0 then [] else Passes(p1, p2, n - 1) + Pass(p1, p2, n - 2)
  }

  /** Every segment `Rectangle::draw` asks Line to draw, rectangle after rectangle. */
  function Outlines(rects: seq<(Point, Point)>): (s: seq<Segment>)
    ensures |s| == 12 * |rects|
  {
    if rects == [] then []
    else
      var last := rects[|rects| - 1];
      Outlines(rects[..|rects| - 1]) + Passes(last.0, last.1, 3)
  }

  /** `Rectangle::draw`: the line requests, in the order they are made. */
  method Draw(r: Rectangle) returns (lines: seq<Segment>)
    ensures lines == Outlines(r.rects)
  {
    lines := [];
    for k := 0 to |r.rects|
      invariant lines == Outlines(r.rects[..k])
    {
      var (p1, p2) := r.rects[k];
      for i := 0 to 3
        invariant lines == Outlines(r.rects[..k]) + Passes(p1, p2, i)
      {
        var offset := i - 1;
        var topRight := Point(p2.x + offset, p1.y);
        var bottomLeft := Point(p1.x, p2.y + offset);
        lines := lines + [Segment(p1, topRight), Segment(topRight, p2), Segment(p2, bottomLeft), Segment(bottomLeft, p1)];
      }
      assert r.rects[..k + 1][..k] == r.rects[..k];
    }
    assert r.rects[..|r.rects|] == r.rects;
  }

  /** Segment e of pass i of the corner pair is line 4 * i + e of its passes. */
  lemma {:induction false} PassesAt(p1: Point, p2: Point, n: nat, i: nat, e: nat)
    requires i < n && e < 4
    ensures Passes(p1, p2, n)[4 * i + e] == Pass(p1, p2, i - 1)[e]
  {
    if i < n - 1 {
      PassesAt(p1, p2, n - 1, i, e);
    }
  }

  /**
   * Line 12 * k + 4 * i + e of the drawing is segment e of pass i (offset
   * i - 1) of the k-th stored rectangle: rectangles in stored order, three
   * passes each, offsets -1, 0, 1.
   */
  lemma {:induction false} OutlinesAt(rects: seq<(Point, Point)>, k: nat, i: nat, e: nat)
    requires k < |rects| && i < 3 && e < 4
    ensures Outlines(rects)[12 * k + 4 * i + e] == Pass(rects[k].0, rects[k].1, i - 1)[e]
  {
    var n := |rects| - 1;
    var init := rects[..n];
    var last := rects[n];
    assert Outlines(rects) == Outlines(init) + Passes(last.0, last.1, 3);
    if k < n {
      OutlinesAt(init, k, i, e);
      assert init[k] == rects[k];
      assert 12 * k + 4 * i + e < 12 * n;
    } else {
      assert 12 * k + 4 * i + e == |Outlines(init)| + (4 * i + e);
      PassesAt(rects[k].0, rects[k].1, 3, i, e);
    }
  }

  /**
   * Every line the drawing requests has a stored corner p1 or p2 of its
   * rectangle as an end: those two corners are never shifted.
   */
  lemma CornersNeverShifted(rects: seq<(Point, Point)>, k: nat, i: nat, e: nat)
    requires k < |rects| && i < 3 && e < 4
    ensures var (p1, p2) := rects[k];
            var s := Outlines(rects)[12 * k + 4 * i + e];
            s.start == p1 || s.start == p2 || s.end == p1 || s.end == p2
  {
    OutlinesAt(rects, k, i, e);
  }
}
