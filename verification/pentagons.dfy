/**
 * The pentagon composite (drawing/src/geometrical_shapes/pentagon.rs): a
 * list of (centre, radius) pairs, each drawn as five edges between derived
 * vertices, every edge three times, shifted diagonally by -1, 0 and 1.
 */
module Pentagons {
  import opened Canvas
  import opened Points
  import opened Lines

  /** The stored (centre, radius) pairs, in the order they were made. */
  datatype Pentagon = Pentagon(pentagons: seq<(Point, int)>)

  /**
   * The draws one iteration of `Pentagon::new` makes: an offset of the centre
   * in [-100, 100) on each axis, and a radius in [radius - 20, radius + 20).
   */
  datatype Jitter = Jitter(offsetX: int, offsetY: int, radius: int)

  predicate JitterInRange(d: Jitter, radius: int)
  {
    -100 <= d.offsetX < 100 && -100 <= d.offsetY < 100 && radius - 20 <= d.radius < radius + 20
  }

  /** `i32::max`. */
  function Max(a: int, b: int): int
  {
    if a < b then b else a
  }

  /**
   * `Pentagon::new(center, radius)`: one pair per draw, `|draws|` being the
   * `gen_range(3..6)` count; radii below 10 are raised to 10.
   */
  method New(center: Point, radius: int, draws: seq<Jitter>) returns (pg: Pentagon)
    requires 3 <= |draws| < 6
    requires forall k :: 0 <= k < |draws| ==> JitterInRange(draws[k], radius)
    ensures 3 <= |pg.pentagons| < 6 && |pg.pentagons| == |draws|
    ensures forall k :: 0 <= k < |draws| ==>
              pg.pentagons[k].0 == Point(center.x + draws[k].offsetX, center.y + draws[k].offsetY) &&
              pg.pentagons[k].1 == Max(draws[k].radius, 10)
    ensures forall k :: 0 <= k < |pg.pentagons| ==>
              pg.pentagons[k].1 >= 10 && pg.pentagons[k].1 < Max(radius + 20, 11) &&
              -100 <= pg.pentagons[k].0.x - center.x < 100 && -100 <= pg.pentagons[k].0.y - center.y < 100
  {
    var pentagons: seq<(Point, int)> := [];
    var i := 0;
    while i < |draws|
      invariant 0 <= i <= |draws| && |pentagons| == i
      invariant forall k :: 0 <= k < i ==>
                  pentagons[k] == (Point(center.x + draws[k].offsetX, center.y + draws[k].offsetY),
                                   Max(draws[k].radius, 10))
    {
      var d := draws[i];
      pentagons := pentagons + [(Point(center.x + d.offsetX, center.y + d.offsetY), Max(d.radius, 10))];
      i := i + 1;
    }
    pg := Pentagon(pentagons);
  }

  /**
   * The draws one iteration of `Pentagon::random` makes: a centre from
   * `Point::random(width, height)` and a radius in [30, 80).
   */
  datatype Spot = Spot(x: int, y: int, radius: int)

  predicate SpotInRange(d: Spot, width: int, height: int)
  {
    0 <= d.x < width && 0 <= d.y < height && 30 <= d.radius < 80
  }

  /** `Pentagon::random(width, height)`: one pair per draw, `|draws|` in [3, 6). */
  method Random(width: int, height: int, draws: seq<Spot>) returns (pg: Pentagon)
    requires 3 <= |draws| < 6
    requires forall k :: 0 <= k < |draws| ==> SpotInRange(draws[k], width, height)
    ensures 3 <= |pg.pentagons| < 6 && |pg.pentagons| == |draws|
    ensures forall k :: 0 <= k < |draws| ==>
              pg.pentagons[k] == (Point(draws[k].x, draws[k].y), draws[k].radius)
    ensures forall k :: 0 <= k < |pg.pentagons| ==>
              InCanvas(width, height, pg.pentagons[k].0.x, pg.pentagons[k].0.y) &&
              30 <= pg.pentagons[k].1 < 80
  {
    var pentagons: seq<(Point, int)> := [];
    var i := 0;
    while i < |draws|
      invariant 0 <= i <= |draws| && |pentagons| == i
      invariant forall k :: 0 <= k < i ==>
                  pentagons[k] == (Point(draws[k].x, draws[k].y), draws[k].radius)
    {
      var d := draws[i];
      pentagons := pentagons + [(Points.Random(width, height, d.x, d.y), d.radius)];
      i := i + 1;
    }
    pg := Pentagon(pentagons);
  }

  /**
   * The vertex offset `get_vertices` computes for a radius and a vertex index
   * i: `((radius * cos a) as i32, (radius * sin a) as i32)` with a = 2 pi i / 5.
   * Floating point is not modelled, so the offsets are a parameter.
   */
  type Polar = (int, int) -> Point

  /** `Pentagon::get_vertices`: the five vertices, centre plus polar offset. */
  function Vertices(center: Point, radius: int, polar: Polar): (vs: seq<Point>)
    ensures |vs| == 5
  {
    seq(5, i => Point(center.x + polar(radius, i).x, center.y + polar(radius, i).y))
  }

  /** The three copies of edge a -> b, shifted by offsets -1, 0 and 1. */
  function Copies(a: Point, b: Point): seq<Segment>
  {
    [Shift(Segment(a, b), -1), Shift(Segment(a, b), 0), Shift(Segment(a, b), 1)]
  }

  /** The copies of the first n edges; edge i runs from vertex i to vertex (i + 1) % 5. */
  function Edges(vs: seq<Point>, n: nat): (s: seq<Segment>)
    requires |vs| == 5 && n <= 5
    ensures |s| == 3 * n
  {
    if n == 0 then [] else Edges(vs, n - 1) + Copies(vs[n - 1], vs[n % 5])
  }

  /** Every segment `Pentagon::draw` asks Line to draw, pentagon after pentagon. */
  function Outlines(pentagons: seq<(Point, int)>, polar: Polar): (s: seq<Segment>)
    ensures |s| == 15 * |pentagons|
  {
    if pentagons == [] then []
    else
      var last := pentagons[|pentagons| - 1];
      Outlines(pentagons[..|pentagons| - 1], polar) + Edges(Vertices(last.0, last.1, polar), 5)
  }

  /** `Pentagon::draw`: the line requests, in the order they are made. */
  method Draw(pg: Pentagon, polar: Polar) returns (lines: seq<Segment>)
    ensures lines == Outlines(pg.pentagons, polar)
  {
    lines := [];
    for k := 0 to |pg.pentagons|
      invariant lines == Outlines(pg.pentagons[..k], polar)
    {
      var (center, radius) := pg.pentagons[k];
      var vertices := Vertices(center, radius, polar);
      ghost var done := lines;
      for i := 0 to 5
        invariant lines == done + Edges(vertices, i)
      {
        var start := vertices[i];
        var end := vertices[(i + 1) % 5];
        ghost var before := lines;
        for offset := -1 to 2
          invariant lines == before + Copies(start, end)[..offset + 1]
        {
          var adjustedStart := Point(start.x + offset, start.y + offset);
          var adjustedEnd := Point(end.x + offset, end.y + offset);
          lines := lines + [Segment(adjustedStart, adjustedEnd)];
        }
      }
      assert pg.pentagons[..k + 1][..k] == pg.pentagons[..k];
    }
    assert pg.pentagons[..|pg.pentagons|] == pg.pentagons;
  }

  /** Line 3 * i + j of the edges is edge i, from vertex i to vertex (i + 1) % 5, shifted by j - 1. */
  lemma {:induction false} EdgesAt(vs: seq<Point>, n: nat, i: nat, j: nat)
    requires |vs| == 5 && n <= 5 && i < n && j < 3
    ensures Edges(vs, n)[3 * i + j] == Shift(Segment(vs[i], vs[(i + 1) % 5]), j - 1)
  {
    if i < n - 1 {
      EdgesAt(vs, n - 1, i, j);
    }
  }

  /**
   * Line 15 * k + 3 * i + j of the drawing is edge i of the k-th stored
   * pentagon shifted by (j - 1, j - 1): pentagons in stored order, five
   * edges each, three offsets per edge.
   */
  lemma {:induction false} OutlinesAt(pentagons: seq<(Point, int)>, polar: Polar, k: nat, i: nat, j: nat)
    requires k < |pentagons| && i < 5 && j < 3
    ensures var vs := Vertices(pentagons[k].0, pentagons[k].1, polar);
            Outlines(pentagons, polar)[15 * k + 3 * i + j] == Shift(Segment(vs[i], vs[(i + 1) % 5]), j - 1)
  {
    var n := |pentagons| - 1;
    var init := pentagons[..n];
    var last := pentagons[n];
    assert Outlines(pentagons, polar) == Outlines(init, polar) + Edges(Vertices(last.0, last.1, polar), 5);
    if k < n {
      OutlinesAt(init, polar, k, i, j);
      assert init[k] == pentagons[k];
      assert 15 * k + 3 * i + j < 15 * n;
    } else {
      assert 15 * k + 3 * i + j == |Outlines(init, polar)| + (3 * i + j);
      EdgesAt(Vertices(pentagons[k].0, pentagons[k].1, polar), 5, i, j);
    }
  }

  /**
   * The edges close up: for each offset, edge i ends where edge (i + 1) % 5
   * starts, so edge 4 returns to vertex 0; the offset-0 copy is the
   * unshifted edge.
   */
  lemma EdgesClosed(vs: seq<Point>, i: nat, j: nat)
    requires |vs| == 5 && i < 5 && j < 3
    ensures Edges(vs, 5)[3 * i + j].end == Edges(vs, 5)[3 * ((i + 1) % 5) + j].start
    ensures Edges(vs, 5)[3 * i + 1] == Segment(vs[i], vs[(i + 1) % 5])
    ensures Edges(vs, 5)[3 * i + j].start == Nudge(vs[i], j - 1)
  {
    EdgesAt(vs, 5, i, j);
    EdgesAt(vs, 5, (i + 1) % 5, j);
    EdgesAt(vs, 5, i, 1);
  }
}
