# quad-drawing: a model of the drawing core

This project models the integer drawing logic of the `drawing` crate. That crate paints
randomly chosen shapes onto an 800x600 image. The model covers six parts:

- **Canvas** (`canvas.dfy`): the image is a class over a 2-D array of colours. `Display` is the
  one pixel write. It writes only when `0 <= x < width && 0 <= y < height`; otherwise it does
  nothing and raises no error. A ghost log `displayed` records every request. `Paint` says what
  colour a pixel has after a sequence of requests: the last request aimed at it wins. The
  image's invariant is that every pixel is what displaying the log on the blank image gives.
- **Points** (`points.dfy`): `Point(x, y)` is `Point::new`. `Random` is `Point::random` with its
  two draws passed in. `Draw` is `Point::draw`: two nested loops send nine requests, all in one
  colour, around the point.
- **Lines** (`lines.dfy`): the rasteriser of `Line` is not part of this model. A request
  `Line::from_points(a, b).draw(image)` is recorded as a `Segment(a, b)`.
- **Rectangles** (`rectangles.dfy`): `New` builds 2 or 3 corner pairs from random sizes and
  positions. `Draw` returns the segments it requests: for each pair, three passes of four edges,
  with offsets -1, 0 and 1.
- **Pentagons** (`pentagons.dfy`): `New` and `Random` build 3 to 5 (centre, radius) pairs.
  `Draw` returns the segments it requests: for each pair, five edges between the vertices, each
  edge three times, shifted diagonally by -1, 0 and 1.
- **Scene** (`scene.dfy`): the 800x600 canvas, the table from `shape_choice` to shape kind, and a
  point drawn at the canvas corner.

Every random draw (`gen_range`) is a parameter of the operation that makes it. Its range is a
precondition. The count of a `for _ in 0..rng.gen_range(a..b)` loop is the length of the
sequence of per-iteration draws.

Some facts about the crate that the model keeps:
- `Rectangle::new` ignores its two points and makes 2 or 3 random rectangles.
- `Point::draw` stamps a 3x3 block, not a single pixel.
- The rectangle and pentagon drawings outline each shape three times, with offsets -1, 0 and 1.
- `main` computes a colour (drawing/src/main.rs:18) and passes it to every `draw` call, but no
  `draw` impl takes one. `Point::draw` draws its own colour; the colours `Rectangle::draw` and
  `Pentagon::draw` draw are never used.
- Width and height are `const` fields of `Image`, so `Display` cannot alter them.

## Model

| member | source | states |
|---|---|---|
| `Canvas.Image.Display` | drawing/src/main.rs:46-52 | pixel (x, y) takes the colour exactly when 0 <= x < width and 0 <= y < height. Every other pixel is unchanged. Out of range, the whole image is unchanged. The request is appended to the log, and the image stays the log displayed on the blank image |
| `Canvas.PaintAppend` | drawing/src/main.rs:47-51 | displaying two runs of requests one after the other is displaying the second run over the result of the first |
| `Canvas.PaintUniform` | drawing/src/main.rs:47-51 | after requests that all carry one colour, a pixel has that colour exactly when some request aims at it; otherwise it keeps its colour |
| `Scene.BlankCanvas` | drawing/src/main.rs:10-12 | the canvas is 800 wide and 600 high, and every pixel is blank |
| `Scene.ShapeFor` | drawing/src/main.rs:19-39 | a choice selects a kind exactly when it lies in [0, 10), and selects the circle exactly when it lies in [4, 10) |
| `Scene.ChoiceTable` | drawing/src/main.rs:19-38 | choices 0, 1, 2 and 3 select point, line, rectangle and triangle, one each. The other six choices select the circle. No choice in [0, 10) reaches the `_` arm |
| `Points.Random` | drawing/src/geometrical_shapes/point.rs:17-23 | a random point lies in [0, width) x [0, height) |
| `Points.Stamp` | drawing/src/geometrical_shapes/point.rs:33-35 | the stamp is nine requests, all in the one colour and all inside the 3x3 block. It starts at (x-1, y-1) and ends at (x+1, y+1) |
| `Points.StampOrdered` | drawing/src/geometrical_shapes/point.rs:33-34 | the requests strictly increase in (x, y) order, dx outer and dy inner, so no pixel is requested twice |
| `Points.StampCoversBlock` | drawing/src/geometrical_shapes/point.rs:33-35 | the stamp requests a pixel exactly when the pixel lies in the 3x3 block |
| `Points.PaintStamp` | drawing/src/geometrical_shapes/point.rs:33-37 | displaying the stamp colours exactly the block's pixels and leaves all others as they were |
| `Points.Draw` | drawing/src/geometrical_shapes/point.rs:26-38 | the image receives the nine stamp requests in order. Only pixels inside both the block and the image take the colour; every other pixel is unchanged |
| `Scene.DrawCornerPoint` | drawing/src/geometrical_shapes/point.rs:33-37 | drawing a point at (0, 0) on the 800x600 canvas colours exactly the four pixels (0,0), (0,1), (1,0) and (1,1); every other pixel is unchanged |
| `Rectangles.New` | drawing/src/geometrical_shapes/rectangle.rs:11-26 | the result depends only on the draws; it holds 2 or 3 pairs in draw order. Each pair is (pos, pos + (width, height)) with pos in [0, 800)^2, so p2 lies strictly right of and below p1 |
| `Rectangles.Pass` | drawing/src/geometrical_shapes/rectangle.rs:38-46 | a pass is four segments forming the closed chain p1 -> top_right -> p2 -> bottom_left -> p1. top_right keeps p1's y and is offset from p2.x; bottom_left keeps p1's x and is offset from p2.y |
| `Rectangles.Passes` | drawing/src/geometrical_shapes/rectangle.rs:38-47 | n passes make 4n segments |
| `Rectangles.Outlines` | drawing/src/geometrical_shapes/rectangle.rs:31-48 | the drawing makes 12 segments per stored rectangle |
| `Rectangles.Draw` | drawing/src/geometrical_shapes/rectangle.rs:29-50 | the requested segments are exactly the outlines of the stored rectangles, in order |
| `Rectangles.PassesAt` | drawing/src/geometrical_shapes/rectangle.rs:38-46 | segment 4i + e of the passes is segment e of the pass with offset i - 1 |
| `Rectangles.OutlinesAt` | drawing/src/geometrical_shapes/rectangle.rs:31-47 | segment 12k + 4i + e is segment e of the pass with offset i - 1 of the k-th rectangle. Rectangles come in stored order, offsets run -1, 0, 1 |
| `Rectangles.CornersNeverShifted` | drawing/src/geometrical_shapes/rectangle.rs:43-46 | every requested segment has its rectangle's p1 or p2 as an end |
| `Pentagons.New` | drawing/src/geometrical_shapes/pentagon.rs:13-27 | it holds 3 to 5 pairs in draw order. Each centre is the given centre plus offsets in [-100, 100). Each radius is the draw raised to at least 10 |
| `Pentagons.Random` | drawing/src/geometrical_shapes/pentagon.rs:29-41 | it holds 3 to 5 pairs. Each centre lies on the width x height canvas and each radius lies in [30, 80) |
| `Pentagons.Vertices` | drawing/src/geometrical_shapes/pentagon.rs:43-51 | there are exactly five vertices |
| `Pentagons.Edges` | drawing/src/geometrical_shapes/pentagon.rs:65-74 | n edges make 3n segments |
| `Pentagons.Outlines` | drawing/src/geometrical_shapes/pentagon.rs:56-75 | the drawing makes 15 segments per stored pentagon |
| `Pentagons.Draw` | drawing/src/geometrical_shapes/pentagon.rs:54-77 | the requested segments are exactly the outlines of the stored pentagons, in order |
| `Pentagons.EdgesAt` | drawing/src/geometrical_shapes/pentagon.rs:65-72 | segment 3i + j is the edge from vertex i to vertex (i+1) % 5, with both ends shifted by (j-1, j-1) |
| `Pentagons.OutlinesAt` | drawing/src/geometrical_shapes/pentagon.rs:56-72 | segment 15k + 3i + j is edge i of the k-th pentagon shifted by (j-1, j-1). Pentagons come in stored order |
| `Pentagons.EdgesClosed` | drawing/src/geometrical_shapes/pentagon.rs:65-71 | at each offset, edge i ends where edge (i+1) % 5 starts, so edge 4 closes back to vertex 0. The offset-0 copy is the unshifted edge, and copy j starts at vertex i moved by (j-1, j-1) |

## Left out

- Random generation: every `gen_range` draw is a parameter with its range as a precondition.
  Nothing is said about the draws' distribution.
- Pentagons.Vertices: states only that there are five vertices. The vertex offsets come from
  `cos`/`sin` in `f64` and a truncating cast to `i32`. Floating point is not modelled, so the
  offsets are a parameter `polar` of type `(radius, index) -> Point`.
- The colours that `Rectangle::draw` and `Pentagon::draw` compute are left out. They are never
  passed to `Line`, so they have no effect. `Point::draw`'s colour draw is a parameter; its
  channels are required to lie in [50, 200).
- `Line`, `Circle` and `Triangle` are not part of this model, because their sources are not part
  of it. A line request is a recorded `Segment`; no pixels are derived from it.
- The raster crate's image storage, `set_pixel` and `raster::save` (PNG output) are I/O. The
  image is a 2-D array of colours. The colour of a blank image is a parameter of `Image.Blank`.
- The 100-shape loop of `main` is a driver. Only its dispatch table and canvas size are modelled.
- The trait declarations in `drawing/src/geometrical_shapes.rs` disagree with the impls. The
  model follows the impl bodies.
- `i32` arithmetic is modelled as unbounded integers. The overflow panics that coordinates near
  `i32::MAX` would cause in debug builds are not modelled.
- `Point::new` is the datatype constructor `Points.Point`. It stores exactly the given x and y.
