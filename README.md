# Koch curve refinement, modelled in Dafny

The repository draws the Koch snowflake curve as an SVG image. It does this in two stand-alone scripts, which share one geometric step, `gamma`. Gamma cuts a segment into thirds and erects an equilateral bump on the middle third. That gives five points: start, one-third point, apex, two-thirds point and end.

- **Koch.py (point-list variant).** The curve is a `PLine`, a list of points. `Koch.update` walks the list and inserts the three new points of each kink in place.
- **Korsh.py (segment-list variant).** The curve is a list of `Line`s. `Koch.update` replaces every line by the four lines of its kink and flattens the result.
- **Both.** `Scene.cart_mapper` maps the logical square [-1,1] x [-1,1] onto a pixel canvas, with the y axis pointing down. `Scene.add_pline` and `Scene.add_figure` map a curve in place and add it to the scene.

The Dafny files:

- `plane.dfy` (module `Plane`) holds what both scripts share.
  - Exact coordinates.
  - `Line.lx` and `Line.ly`.
  - The one-third and two-thirds points and the 60-degree apex, with their geometry proved.
  - The pixel map.
- `koch_points.dfy` (module `KochPoints`) models Koch.py.
  - `gamma`, `PLine`, `Koch` and `Scene`.
  - The update loop exactly as written.
  - The refinement that loop was evidently meant to perform, `Refine`.
- `koch_segments.dfy` (module `KochSegments`) models Korsh.py: `gamma`, `Koch` and `Scene`.
- `correspondence.dfy` (module `Correspondence`) relates the two variants. A chained list of lines and the polyline through its vertices are the same curve. Under that correspondence, Korsh's update is exactly `Refine`.

Coordinates are exact numbers a + b·√3, written `Coord(a, b)`. The only irrational constant the program uses is √3/2, the sine of 60°, and with it every coordinate the program computes stays in this field. `Plane.ValueHomomorphism` shows that the arithmetic on `Coord` is real arithmetic for any r with r·r = 3. Equality of `Coord`s is equality of the pair (a, b). For rational a and b that is the same as equality of the reals a + b·√3, since √3 is irrational. Every coordinate the program computes from its integer seed has rational a and b, so the lemmas stating that two points differ (`ThirdsCoincide`, `UpdatedSegmentReversed`, `ResubdividedMissesEnd`, `UpdateIsNotRefine`) speak of the program's actual points.

The structural results do not depend on where the kink puts its new points. The count of points or lines, what stays first and last, and chaining depend only on the kink's shape. So the update and the refinement are defined for any kink rule of the right shape: five points for Koch.py, four chained lines for Korsh.py. The program's `gamma` is then passed in as that rule (`KochPoints.Updated`, `KochSegments.Refined`).

The classes follow the source objects.

- `KochPoints.PLine`, `KochPoints.Koch` and `KochPoints.Scene` are classes whose methods update their fields.
- The curve object is shared: `Koch.structure` and the item that `Scene.add_pline` appends are the same `PLine` object, as in the program.
- Points and lines are values. `gamma` copies every coordinate pair it returns, so no two list entries of a curve share a point object, and mutating a point in place amounts to replacing the list entry.

## Model

| member | source | states |
|---|---|---|
| Plane.TimesSqrt3Half | Koch.py:122-123 | multiplying by the constant sqrt(3)/2 is the exact product in a + b·√3 |
| Plane.ValueHomomorphism | Koch.py:122-123 | for any r with r·r = 3, Coord addition, subtraction, multiplication, scaling, thirds, doubling, halving and the embedding of plain reals are those of the reals they denote |
| Plane.Sqrt3HalfSquared | Koch.py:122-123 | the constant squares to 3/4, and it denotes the positive number r/2 |
| Plane.Lx | Koch.py:99-100 | lx is the x offset of the line: the start's x plus lx is the end's x |
| Plane.Ly | Koch.py:102-103 | ly is the y offset of the line: the start's y plus ly is the end's y |
| Plane.OneThird | Koch.py:117 | three steps from the start to the one-third point make up the whole offset end − start |
| Plane.TwoThirds | Koch.py:120-121 | three steps from the two-thirds point to the end make up the whole offset end − start |
| Plane.LineOffset | Koch.py:99-103 | start + lx is the end's x, start + ly is the end's y; the offset is end − start |
| Plane.ThirdsSplitLine | Koch.py:117-128 | the one-third and two-thirds points cut the line into three equal pieces, each a third of end − start |
| Plane.ThirdsCoincide | Koch.py:117-128 | the two third points coincide only when start = end |
| Plane.Rotate60Identities | Koch.py:122-123 | the rotation R d has dot product L/2 and cross product L·√3/2 with d, where L is the squared length of d, and both R d and d − R d have squared length L |
| Plane.ApexIsRotation | Koch.py:122-123 | apex − P1 is (P3 − P1) turned counter-clockwise by 60°, and the apex is as far from P1 and from P3 as P3 is from P1 |
| Plane.LevelApex | Korsh.py:109-110 | on a level segment of length d from (x, y), the apex is (x + d/2, y + d·√3/2) |
| Plane.ApexExample | Koch.py:122-123 | on the middle third (1,0)–(2,0) of the segment (0,0)–(3,0) the apex is (1.5, √3/2) |
| Plane.ToPixel | Koch.py:58-60 | (−1, 1) goes to pixel (0, 0), (1, −1) to (width, height), and the origin to the canvas centre |
| Plane.LineToPixel | Korsh.py:57-66 | the diagonal from (−1, 1) to (1, −1) becomes the canvas diagonal from (0, 0) to (width, height) |
| Plane.LineToPixelOffset | Korsh.py:57-66 | mapping both ends stretches a line's offset by width/2 across and by −height/2 vertically |
| Plane.PixelRoundTrip | Koch.py:58-60 | on a canvas of non-zero size the pixel map is a bijection, with inverse FromPixel |
| KochPoints.Gamma | Koch.py:107-133 | gamma returns exactly five points, the first the line's start and the last its end |
| KochPoints.GammaKink | Koch.py:116-131 | points 1 and 3 cut the line in thirds; point 2 is point 1 plus the middle third turned by +60°; the apex triangle is equilateral and lies to the left |
| KochPoints.Seed | Koch.py:139-140 | the curve starts from two distinct points on one horizontal line, mirror images through the y axis |
| KochPoints.Insert | Koch.py:154-156 | list.insert(i, p) puts p at i, keeps the prefix and shifts the rest by one |
| KochPoints.InsertThrice | Koch.py:154-156 | three inserts at the same index i leave the new points in reverse order |
| KochPoints.Subdivide | Koch.py:153-157 | one loop iteration adds three points and keeps the points before i and from i on |
| KochPoints.InsertedKink | Koch.py:153-156 | the three inserts of gamma's points 1, 2, 3 at i are one Subdivide step |
| KochPoints.SubdivideKink | Koch.py:153-157 | iteration i puts start, two-thirds point, apex, one-third point, end of the pair (pts[i−1], pts[i]) at i−1 .. i+3 |
| KochPoints.Pass | Koch.py:147-158 | iterations i .. n−1 add 3(n − i) points |
| KochPoints.PassPrefix | Koch.py:147-158 | iterations i .. n−1 leave the first i points untouched |
| KochPoints.PassSuffix | Koch.py:147-158 | iterations i .. n−1 leave the points at i and later, in order, at the end of the list |
| KochPoints.UpdatedBy | Koch.py:147-158 | for any kink rule giving five points, one run of the loop turns n ≥ 1 points into 4(n−1)+1 points and leaves the empty list empty |
| KochPoints.Updated | Koch.py:147-158 | with gamma, one update turns n ≥ 1 points into 4(n−1)+1 points with the first and last point kept |
| KochPoints.UpdatedShape | Koch.py:147-158 | an update of n ≥ 1 points gives 4(n−1)+1 points, keeps the first point first and the original points 1 .. n−1 at the end, the last one last; the empty list stays empty |
| KochPoints.UpdatedSegment | Koch.py:153-157 | one update of [A, B] gives [A, two-thirds point, apex, one-third point, B] |
| KochPoints.UpdatedSegmentReversed | Koch.py:154-156 | for A ≠ B the second point after the update is the two-thirds point, not the one-third point |
| KochPoints.ResubdividedOffset | Koch.py:147-158 | three times the gap from the point iteration 2 inserts last to q is R e − 4e, where e is a third of q − p and R the turn by 60° |
| KochPoints.ResubdividedMissesEnd | Koch.py:147-158 | the one-third point of the segment from the two-thirds point to the apex is the original end only when the segment is a single point |
| KochPoints.UpdatedResubdivides | Koch.py:147-158 | on [p, q, w] with p ≠ q, iteration 2 subdivides points inserted by iteration 1, so index 4 holds a new point and not q |
| KochPoints.IteratedShape | Koch.py:178-181 | k updates of n ≥ 1 points give 4^k(n−1)+1 points with the first and last kept |
| KochPoints.SeedIterated | Koch.py:178-181 | k updates of the seed give 4^k+1 points from (−1,0) to (1,0) |
| KochPoints.Refine | Koch.py:147-158 | the intended refinement turns n ≥ 1 points into 4(n−1)+1 points, starting from the same first point |
| KochPoints.RefineVertex | Koch.py:147-158 | the intended refinement keeps original point j at index 4j |
| KochPoints.RefineKink | Koch.py:147-158 | the intended refinement puts gamma of segment j, in gamma's order, at indices 4j .. 4j+4 |
| KochPoints.UpdateIsNotRefine | Koch.py:154-156 | for A ≠ B the update of [A, B] differs from its refinement, which has the one-third point at index 1 |
| KochPoints.PLine.constructor | Koch.py:68-70 | a new polyline has no points |
| KochPoints.PLine.Add | Koch.py:72-73 | add appends one point |
| KochPoints.Koch.constructor | Koch.py:137-140 | the curve starts as the polyline [(−1,0), (1,0)] |
| KochPoints.Koch.Update | Koch.py:142-159 | the loop, with its range fixed on entry and its dead `i = i+3`, leaves exactly Updated(old points) |
| KochPoints.ApplyUpdates | Koch.py:178-181 | n calls of update leave Iterated(old points, n) |
| KochPoints.Scene.constructor | Koch.py:19-24 | a scene has the given name and size (defaults "svg", 768, 1024) and no items |
| KochPoints.Scene.CartMapper | Koch.py:58-60 | on the scene's own canvas, (−1, 1) goes to pixel (0, 0) and (1, −1) to (width, height) |
| KochPoints.Scene.AddPline | Koch.py:28-33 | every point of the curve is mapped to pixels once, in place, and the polyline object itself is appended as one item |
| KochSegments.Gamma | Korsh.py:95-120 | gamma returns exactly four chained lines from the line's start to its end |
| KochSegments.GammaPieces | Korsh.py:104-118 | the first piece is a third of the line, the second is the first turned by +60°, the third closes the triangle, the fourth repeats the first, and all four have the same length |
| KochSegments.Seed | Korsh.py:127 | the curve starts from one level line of non-zero length whose ends are mirror images through the y axis |
| KochSegments.RefinedBy | Korsh.py:133-137 | for any kink rule giving four chained lines, m lines become 4m lines |
| KochSegments.Refined | Korsh.py:133-137 | with gamma, m lines become 4m lines, a chain stays a chain, and the first start and last end are kept |
| KochSegments.RefinedAt | Korsh.py:133-137 | lines 4j .. 4j+3 after the update are gamma of old line j |
| KochSegments.RefinedKeepsChain | Korsh.py:133-137 | the update keeps the first start and the last end, and a chained list stays chained |
| KochSegments.RefinedChainedOnlyIfChained | Korsh.py:133-137 | a list whose update is chained was chained |
| KochSegments.IteratedShape | Korsh.py:150-153 | k updates of m lines give 4^k·m lines; a chain stays a chain with the same two ends |
| KochSegments.LineIterated | Korsh.py:150-153 | k updates of one line give 4^k chained lines from its start to its end |
| KochSegments.SeedIterated | Korsh.py:150-153 | k updates of the seed give 4^k chained lines from (−1,0) to (1,0) |
| KochSegments.Flatten | Korsh.py:137 | flattening blocks of four lines gives four lines per block, with the first block first |
| KochSegments.FlattenKinks | Korsh.py:137 | flattening the blocks gamma(line 0), gamma(line 1), … gives the update |
| KochSegments.LinesToPixels | Korsh.py:57-66 | every line is mapped, endpoint by endpoint, with the same affine map, and the count is kept |
| KochSegments.PixelsKeepChain | Korsh.py:57-66 | mapping to pixels keeps a chain a chain, and on a non-empty canvas it creates no chain either |
| KochSegments.Koch.constructor | Korsh.py:124-127 | k is 0 and the curve is the single line from (−1,0) to (1,0) |
| KochSegments.Koch.Update | Korsh.py:129-137 | the enumerate loop and the flattening leave exactly Refined(old lines), with k unchanged |
| KochSegments.ApplyUpdates | Korsh.py:150-153 | n calls of update leave Iterated(old lines, n) |
| KochSegments.Scene.constructor | Korsh.py:19-24 | a scene has the given name and size (defaults "svg", 768, 1024) and no items |
| KochSegments.Scene.CartMapper | Korsh.py:57-66 | on the scene's own canvas, the diagonal (−1, 1)–(1, −1) maps onto the canvas diagonal (0, 0)–(width, height) |
| KochSegments.Scene.AddFigure | Korsh.py:28-31 | every line of the curve is mapped in place, and the mapped lines are appended to the items in order, so the items grow by the number of lines |
| Correspondence.Vertices | Korsh.py:104-118 | the polyline through m ≥ 1 lines has m+1 points: the start of every line, then the end of the last |
| Correspondence.SegmentsChained | Korsh.py:104-118 | the lines between consecutive points are chained |
| Correspondence.VertexAt | Korsh.py:104-118 | in a chained list, vertex j is the start of line j and vertex j+1 its end |
| Correspondence.VerticesRoundTrip | Korsh.py:104-118 | chained line lists and polylines of at least two points determine each other |
| Correspondence.GammasAgree | Korsh.py:95-120 | the vertices of Korsh's four gamma lines are Koch's five gamma points |
| Correspondence.RefinedIsRefine | Korsh.py:129-137 | the vertices after Korsh's update of a chained list are the refinement of its vertices |
| Correspondence.RefinedThroughPoints | Korsh.py:129-137 | Korsh's update of a chained list gives the lines through the refinement of its vertices |

## Findings

| source | as written | input that shows it | evidently intended | confidence | as-written member | corrected member |
|---|---|---|---|---|---|---|
| Koch.py:154-156 | gamma's points 1, 2 and 3 are inserted one after another at the same index i, so they end up in the order two-thirds point, apex, one-third point | any segment [A, B] with A ≠ B, e.g. the seed [(−1,0), (1,0)]: after one update index 1 holds (1/3, 0), not (−1/3, 0) | the kink's points in gamma's own order: start, one-third point, apex, two-thirds point, end | high (not executed) | KochPoints.UpdatedSegmentReversed | KochPoints.RefineKink |
| Koch.py:147-158 | the range is fixed at the entry length, `i = i+3` does not skip the inserted points, and `start = points[i]` picks the point just inserted, so from iteration 2 on the loop subdivides new points and never reaches most original segments | any three points [p, q, w] with p ≠ q: after one update index 4 holds the one-third point of the segment from the two-thirds point to the apex, both inserted by iteration 1, and not q | each original segment subdivided exactly once, with original point j at index 4j | high (not executed) | KochPoints.UpdatedResubdivides | KochPoints.RefineVertex |

`KochPoints.Koch.Update` models the loop as written. `KochPoints.Refine` is the corrected refinement, and the correspondence with Korsh.py is stated in terms of it (`Correspondence.RefinedIsRefine`).

## Left out

- `Scene.write_svg` and `Scene.display` are not modelled: they open and write a file and call `os.system`.
- The SVG text is not modelled: `strarray` of `Scene`, `PLine` and `Line` formats floats as text, and `colorstr` formats colours and is never called.
- The `print` calls inside Koch.py's `update` are not modelled: they are output only and change no state.
- `Line.length` and the unused `l` and `piece` in `gamma` are not modelled: they take a floating-point square root and nothing reads them.
- `Scene.add` is not modelled: neither script calls it.
- IEEE double rounding is not modelled. Coordinates are exact numbers a + b·√3, and `np.sqrt(3)/2` is exactly √3/2. So the model states what the program computes up to rounding, never bit for bit.
- Division is true division, as in Python 3. Under Python 2, `lx()/3` on the integer seed coordinates would floor.
- The driver scripts are not modelled, except for the repeated call to `update` (`KochPoints.ApplyUpdates`, `KochSegments.ApplyUpdates`). Their `Scene('test')`, the fixed counts n = 4 and n = 3, and the file output are left out.
- Korsh.py's `update` writes each block back into the entry of the list it is enumerating, which briefly makes a list of mixed lines and lists. `KochSegments.Koch.Update` builds the blocks in a list of its own and flattens that. The final list is the same; the mixed intermediate list is not represented.
- KochSegments.Scene.AddFigure: lines are values, so after the call the scene's items and the curve's list hold equal lines rather than the same `Line` objects. A later in-place change through one of them would not show through the other, and calling `add_figure` twice on one figure maps the earlier items again in the program but not in the model.
- Plane.ApexExample: the example gives the apex on the middle third (1,0)–(2,0). That this is the middle third of (0,0)–(3,0) is stated for every line by `Plane.ThirdsSplitLine` rather than evaluated for this one.
