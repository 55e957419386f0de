# Floor mesh generator — a Dafny model

This project models the mesh engine of the Archipack floor add-on, class
`archipack_floor` in `__init__.py`. A floor is a rectangle of `width` by
`length`. The class fills three parallel lists:

- `vs`: the vertices;
- `fs`: the faces, as lists of vertex indices;
- `ms`: the material ids, one per face.

It fills them with boards or tiles in one of several patterns. The model
covers the following:

- the list helpers `append_all`, `round_tuple` and `round_2d_list`;
- the box builder `add_cube`, with its clipping to the floor rectangle;
- the polygon pipeline: intersecting boundary segments into corner points,
  sorting those points by angle around their centroid, and extruding them
  into a prism;
- the eight pattern generators;
- the `update_data` dispatcher.

Modules:

- `Wrappers`: `Option` and `Result`.
- `Geometry`: value types, the floating-point constants, the foreign
  geometry routines as parameters, and the termination measure of the
  cursor loops.
- `Rounding`: Python's `round` with ties to even, and the two rounding
  helpers.
- `FloorConfig`: the floor's parameters and the bounds the property
  declarations give them.
- `MeshShapes`: the vertex and face patterns.
  - Pure functions for the box, the parquet board and the prism.
  - Lemmas on index ranges and face orientation.
- `CornerSort`: `sort_corner_points`.
  - The centroid loop, the angle loop and the insertion sort, as methods.
  - Each method is proved against a specification function or predicate.
- `Floor`: class `ArchipackFloor`.
  - `vs`, `fs` and `ms` are `seq` fields; the parameters are a constant
    `cfg`.
  - Every builder and generator is a method whose `modifies` covers what
    it appends to.
  - `Valid()`: the parameters are within bounds, every face names existing
    vertices, and there is one material id per face.
  - `InBounds()`: no vertex lies beyond the far edges of the floor.
  - `Extends(...)`: the lists only grew, and the new material ids are the
    given one.
  - `AddedBoxes(v0, f0, n)`: since the lists held `v0` vertices and `f0`
    faces, they gained exactly `n` pieces of eight vertices and six faces.
    Each piece's vertices form an axis-aligned box in the vertex order of
    `add_cube` (`IsBox`), and its faces are the `add_cube_faces` quads on
    those eight vertices. `AddedBoards` says the same of `wood_parquet`
    boards (`IsBoard`, laid along y or along x) with the parquet quads.

Coordinates are exact reals. The foreign calls become parameters:

- `mathutils.geometry.intersect_line_line_2d`, `intersect_point_quad_2d`
  and `math.atan` are fields of a `MathLib` value.
- The `random.uniform` draws come from a stream `rand: nat -> real` with
  values in [0, 1). `Uniform(lo, hi, u)` maps a draw into the range.

## Model

| member | source | states |
|---|---|---|
| Rounding.RoundHalfEven | __init__.py:232 | the result is an integer within 1/2 of the input; at an exact half it is the even one |
| Rounding.Round | __init__.py:232 | `round(x, digits)`: the result scaled by 10^digits is the integer nearest to `x` scaled by 10^digits |
| Rounding.RoundIdempotent | __init__.py:232 | rounding a rounded number changes nothing |
| Rounding.RoundTuple | __init__.py:230-232 | same length as the tuple; every component is rounded |
| Rounding.RoundTwoDList | __init__.py:234-236 | same shape as the list; every component of every tuple is rounded |
| Rounding.RoundTupleIdempotent | __init__.py:230-232 | `round_tuple` twice equals `round_tuple` once, so a rounded corner point is a stable key for the duplicate test |
| Rounding.RoundTwoDListIdempotent | __init__.py:234-236 | `round_2d_list` twice equals `round_2d_list` once |
| Geometry.Uniform | __init__.py:413 | `uniform(lo, hi)` lies in [lo, hi] for any draw in [0, 1) |
| Floor.Spread | __init__.py:570 | the half-range of a varied board width, length or thickness is between 0 and 99% of the base size |
| Floor.OffsetSpread | __init__.py:412 | the half-range of a random first-tile offset is between 0 and 49% of the tile length |
| Floor.OffsetFraction | __init__.py:394 | `1 / (100 / offset)` lies in (0, 1] |
| Floor.ShortenedTile | __init__.py:409-410 | termination helper for the row loop: a tile shortened by that fraction is positive and no longer than the tile, so the cursor still advances |
| Floor.GroupLength | __init__.py:610 | termination helper for the parquet loops: a group is at least one board wide, so each group advances the cursor by at least one board width |
| Floor.Repeat | __init__.py:244 | `[mat_id] * n`: n copies of `mat_id` |
| MeshShapes.BoxVertices | __init__.py:267-268 | `add_cube` appends eight vertices |
| MeshShapes.BoxVerticesAreCorners | __init__.py:267-268 | vertex i of the box is corner i of the unit box, moved to (x, y, z) and stretched by (w, l, t) |
| MeshShapes.BoxVerticesIsBox | __init__.py:267-268 | the eight vertices `add_cube` appends form a box in the sense of `IsBox` |
| MeshShapes.BoardAlongY | __init__.py:630-634 | eight vertices: the four near corners at `y`, then the same four at `y + l` |
| MeshShapes.BoardAlongX | __init__.py:655-659 | eight vertices: the four near corners at `x`, then the same four at `x + l` |
| MeshShapes.BoardsAreBoards | __init__.py:630-659 | a board laid either way is a board in the sense of `IsBoard` |
| MeshShapes.BoardsAreCorners | __init__.py:630-659 | vertex i of a board laid along y (along x) is corner i of the parquet lattice for that orientation, moved to the board's corner and stretched by its extents |
| MeshShapes.CubeFaces | __init__.py:240-241 | six quads, every index in [p, p + 8) |
| MeshShapes.CubeFacesLocal | __init__.py:239-241 | the quads of a box at p, shifted down by p, are those of a box at 0 |
| MeshShapes.CubeQuadsOutwardNear | __init__.py:240-241 | each quad on one of the three near sides of the box covers the whole side and winds counter-clockwise seen from outside the box, so by the right-hand rule its normal points out |
| MeshShapes.CubeQuadsOutwardFar | __init__.py:240-241 | the same for the three far sides: whole sides, counter-clockwise seen from outside, normals pointing out |
| MeshShapes.CubeFacesOutward | __init__.py:239-241 | the six quads of `add_cube_faces` cover the six distinct sides of the box, each with an outward normal |
| MeshShapes.ParquetFaces | __init__.py:638-640 | six quads, every index in [p, p + 8) |
| MeshShapes.ParquetFacesLocal | __init__.py:638-640 | the quads of a board at p, shifted down by p, are those of a board at 0 |
| MeshShapes.ParquetQuadsOutwardAlongYNear | __init__.py:630-640 | for a board laid along y, the quads on its near sides face out |
| MeshShapes.ParquetQuadsOutwardAlongYFar | __init__.py:630-640 | for a board laid along y, the quads on its far sides face out |
| MeshShapes.ParquetQuadsOutwardAlongXNear | __init__.py:655-665 | for a board laid along x, the quads on its near sides face out |
| MeshShapes.ParquetQuadsOutwardAlongXFar | __init__.py:655-665 | for a board laid along x, the quads on its far sides face out |
| MeshShapes.ParquetFacesOutwardAlongY | __init__.py:630-640 | with the vertex order of a board laid along y, the six quads cover the six sides, each facing out |
| MeshShapes.ParquetFacesOutwardAlongX | __init__.py:655-665 | with the vertex order of a board laid along x, the same six quads again cover the six sides, each facing out |
| MeshShapes.PrismVertices | __init__.py:313-315 | 2n vertices for n points: vertex 2k is point k at height 0 and vertex 2k + 1 is point k at height `th` |
| MeshShapes.PrismVerticesAppend | __init__.py:313-315 | the vertices of two point lists joined are the two vertex lists joined |
| MeshShapes.SideQuads | __init__.py:322-323 | max(n - 1, 0) side quads for n points |
| MeshShapes.Run | __init__.py:324-330 | a run of k vertex indices |
| MeshShapes.RunsAt | __init__.py:322-330 | side quad i joins the vertex pairs of points i and i + 1; run index i is `p + 2i` |
| MeshShapes.PrismRuns | __init__.py:319-330 | `top_face` and `bottom_face` have one index per point, and at least one: the height-0 and the height-`th` vertex of each point |
| MeshShapes.PrismFaces | __init__.py:317-336 | the faces for n corner points: n + 2 of them for n >= 1 and three for none, whatever n is |
| MeshShapes.Reverse | __init__.py:334 | same length, elements in reverse order |
| MeshShapes.PrismFacesInRange | __init__.py:317-336 | for n >= 1 points: n + 2 faces, the first n quads, both caps n indices long, every index among the prism's own 2n vertices |
| MeshShapes.PrismFacesOk | __init__.py:317-336 | for n >= 3 points every face is a polygon of at least three indices, all naming existing vertices |
| MeshShapes.EmptyPrismFacesOutOfRange | __init__.py:322-336 | with no points the three faces are still appended; they name vertices p and p + 1, which do not exist |
| MeshShapes.TwoPointPrismDegenerate | __init__.py:328-336 | with two points both caps have only two indices |
| CornerSort.Centroid | __init__.py:349-353 | for a non-empty list, the centroid times the number of points is the vector sum of the points, in x and in y |
| CornerSort.SumOffsetsIsShiftedSum | __init__.py:349-353 | the offsets of the points from c add up to their vector sum minus n·c |
| CornerSort.CentroidBalances | __init__.py:349-353 | the offsets of the points from the centroid add up to the zero vector |
| CornerSort.SinglePointIsItsCentroid | __init__.py:349-360 | in exact arithmetic one point is its own centroid, so its angle key divides by zero and sorting a single corner point fails (the original's single-precision centroid need not equal the point) |
| CornerSort.FindCenter | __init__.py:349-353 | the loop computes the centroid of the points, and (0, 0) for none |
| CornerSort.Angle | __init__.py:358-362 | with `atan` in (-π/2, π/2), keys fall in three bands: right-upper points below π/2, left-half ones in (π/2, 3π/2), right-lower ones near 360 |
| CornerSort.FindAngles | __init__.py:355-364 | the loop fails exactly when some point has the center's x (the `ZeroDivisionError`); otherwise point q is paired with its angle key |
| CornerSort.InsertBefore | __init__.py:373 | reference for `sorted_.insert(i, pt)` on a sorted list: one pair longer, `pt` placed before the first pair whose angle is not smaller, so before every pair of equal angle |
| CornerSort.InsertAll | __init__.py:367-373 | reference for the third loop: the pairs inserted one after the other with `InsertBefore`; as long as the input |
| CornerSort.InsertBeforeAt | __init__.py:369-373 | putting `pt` at the index just past every smaller angle and before every other one is `InsertBefore` |
| CornerSort.InsertAllStep | __init__.py:367-373 | one round of the loop is one more `InsertBefore` of the next pair |
| CornerSort.InsertionIndex | __init__.py:369-372 | in a sorted list, the index found has every earlier pair at a smaller angle and every later one at an angle no smaller |
| CornerSort.PointsOfInsert | __init__.py:373 | inserting a pair adds its point to the multiset of points |
| CornerSort.InsertKeepsSorted | __init__.py:373 | inserting at that index keeps the list sorted by angle |
| CornerSort.InsertKeepsMembers | __init__.py:373 | inserting an element of the input keeps every element an element of the input |
| CornerSort.InsertionSortByAngle | __init__.py:366-375 | the result is `InsertAll` of the input (so each pair goes before the earlier pairs of equal angle); it is a permutation of the input, every element is from the input, and the angles do not decrease |
| CornerSort.SortCornerPoints | __init__.py:342-375 | fails exactly when a point has the centroid's x; otherwise returns a permutation of the points, all with a defined key, ordered by non-decreasing angle around the centroid; exactly the points of `InsertAll` over the keyed points in input order |
| CornerSort.PermutedMember | __init__.py:375 | every element of a permutation of a list is in the list |
| CornerSort.AngleOrderAgreesWithTwoPi | __init__.py:358-362 | with `atan` in (-π/2, π/2), the key that adds `360` orders two points as the key that adds 2π would |
| CornerSort.SortedByAngleAgreesWithTwoPi | __init__.py:356-375 | a list is sorted by the key that adds `360` exactly when it is sorted by the key that adds 2π |
| Floor.ArchipackFloor.constructor | __init__.py:73 | the three lists start empty, and the mesh is valid and in bounds |
| Floor.ArchipackFloor.AppendAll | __init__.py:225-228 | appending the items one by one yields the list followed by the items |
| Floor.ArchipackFloor.AddCubeFaces | __init__.py:238-241 | `fs` gains the six quads of the box made of the last eight vertices |
| Floor.ArchipackFloor.AddCubeMatIds | __init__.py:243-244 | `ms` gains six copies of `mat_id` |
| Floor.ArchipackFloor.AddCube | __init__.py:246-270 | with `clip`, a box starting on or beyond a far edge changes nothing. Otherwise `vs` gains the 8 box vertices, with extents clipped to `width - x` and `length - y`; `fs` gains the 6 quads on them; `ms` gains 6 copies of `mat_id`. With `clip` every new vertex is within the far edges. Validity is preserved |
| Floor.ArchipackFloor.PlaceBox | __init__.py:246-270 | a clipped box with material id 0, as every generator places one. A box starting inside the floor is added as `add_cube` adds it: its 8 vertices with extents clipped at the far edges, its 6 quads, 6 zeros; `placed` is then 1, and 0 when the box is dropped. The lists gain `placed` whole boxes; validity and bounds are kept |
| Floor.ArchipackFloor.PointInShape | __init__.py:295-306 | a point passes only when the foreign quad test accepts it and it lies in the floor rectangle, edges included |
| Floor.DistinctPairwise | __init__.py:291-292 | `Distinct` (each point differs from every point before it) holds exactly when no two positions of the list hold the same point |
| Floor.DistinctAppend | __init__.py:291-292 | appending a point that is not in a distinct list (`r_point not in out`) keeps it distinct |
| Floor.ArchipackFloor.MeetsFromExists | __init__.py:284-290 | the walk over the pairs (a, b), (a, b + 1), ... finds `pt` exactly when some pair (a, c), c ≥ b, meets in the rounded point `pt` |
| Floor.ArchipackFloor.MeetsAfterExists | __init__.py:283-290 | the walk over all pairs from segment a on finds `pt` exactly when some pair (c, d), a ≤ c < d, meets in the rounded point `pt` |
| Floor.ArchipackFloor.FromSomePairExists | __init__.py:283-290 | `FromSomePair` holds exactly for the rounded intersection points of the pairs (a, b), a < b, of the segments |
| Floor.ArchipackFloor.PairStepKeeps | __init__.py:285-292 | trying one pair keeps `CornerInvariant`: the points stay distinct, each passes `point_in_shape` against the rounded shape and each is the rounded intersection of some pair |
| Floor.ArchipackFloor.PairsFromExtends | __init__.py:284-292 | the inner loop over pairs (a, b), (a, b + 1), ... only appends: the points found before are a prefix of the result |
| Floor.ArchipackFloor.PairsFromCollects | __init__.py:284-292 | the inner loop puts the point of every accepted pair (a, c), c ≥ b, into the result |
| Floor.ArchipackFloor.PairsAfterExtends | __init__.py:283-292 | the double loop from segment a on only appends: the points found before are a prefix of the result |
| Floor.ArchipackFloor.PairsAfterCollects | __init__.py:283-292 | the double loop from segment a on puts the point of every accepted pair (c, d), a ≤ c < d, into the result |
| Floor.ArchipackFloor.AddPairPoint | __init__.py:285-292 | one pair of segments gives `PairStep`: `out` followed by the rounded intersection exactly when the lines meet, the point is not yet in `out` and it passes `point_in_shape`; `out` unchanged otherwise |
| Floor.ArchipackFloor.PairsFromKeeps | __init__.py:284-292 | trying the pairs (a, b), (a, b + 1), ... keeps `CornerInvariant`: the points stay distinct, checked by `point_in_shape` and from some pair |
| Floor.ArchipackFloor.AddSegmentPoints | __init__.py:284-292 | the inner loop for segment i: the result is `PairsFrom(out, i, i + 1)`, the pairs (i, i + 1), (i, i + 2), ... tried in loop order |
| Floor.ArchipackFloor.CornerPointsFromBoundaries | __init__.py:272-293 | the points are those the nested loops collect, in that order (`PairsAfter`). `CornerInvariant`: they are distinct, and each passed `point_in_shape` and is the rounded intersection of some pair of segments. `CollectsAccepted`: every pair whose rounded intersection passes the test contributes its point. All lie in [0, width]×[0, length] |
| Floor.ArchipackFloor.AddPrismVertices | __init__.py:311-315 | `vs` gains the prism vertices of the sorted points |
| Floor.ArchipackFloor.SideQuadsStep | __init__.py:322-323 | a further point adds one side quad, appended at the end |
| Floor.ArchipackFloor.AddSideQuads | __init__.py:318-326 | `fs` gains the side quads; the two runs lack only their last index |
| Floor.ArchipackFloor.PrismAssembly | __init__.py:328-336 | the side quads, the closing quad, the reversed `top_face` and `bottom_face`, appended one at a time, make the prism's faces |
| Floor.ArchipackFloor.AddPrismFaces | __init__.py:317-336 | `fs` gains the prism's faces |
| Floor.ArchipackFloor.AddShapeFromCornerPoints | __init__.py:308-336 | as written. It fails exactly on the sort's division by zero, and then changes nothing. Otherwise `vs` gains the prism over a permutation of the points sorted by angle, and `fs` gains the prism's faces. `ms` never changes |
| Floor.PrismVerticesWithin | __init__.py:313-315 | the prism over a permutation of points in a rectangle has every vertex in the rectangle |
| Floor.ArchipackFloor.AddShapeFromCornerPointsChecked | __init__.py:308-336 | as evidently intended. With fewer than three points it changes nothing. With three or more it builds the same prism, and adds n + 2 copies of `mat_id` to `ms`. Validity is preserved. Points in the floor give vertices in the floor |
| Floor.ArchipackFloor.CreateBoardFromBoundaries | __init__.py:338-340 | the corners are the points `get_corner_points_from_boundaries` collects, in its order. They satisfy `CornerInvariant` (distinct, each passing `point_in_shape` against the rounded shape, each from a pair of segments) and `CollectsAccepted` (one for every accepted pair), and all lie in the floor. The board fails exactly on the sort's division by zero, and then nothing changes. As written (`corrected` false), `vs` gains the prism vertices of a permutation of the corners sorted by angle, `fs` gains the prism's faces for any number of corners, and `ms` is unchanged. With the corrected builder, fewer than three corners add nothing, the prism adds n + 2 copies of `mat_id` and validity is kept. Either way every new vertex lies in the floor |
| Floor.PiecesConcat | __init__.py:225-228 | whole pieces followed, after the lists grew at the end, by more whole pieces from the old ends are all whole pieces from the first start: what lets each generator add up its boxes |
| Floor.PieceAtPrefix | __init__.py:225-228 | `append_all` only appends, so a whole piece stays whole |
| Floor.NearFarAlongY | __init__.py:630-634 | the near and far corners `wood_parquet` appends for a board along y form a board |
| Floor.NearFarAlongX | __init__.py:655-659 | the near and far corners `wood_parquet` appends for a board along x form a board |
| Floor.ArchipackFloor.TileGrout | __init__.py:377-382 | exactly one box over the whole floor, of height `thickness - mortar_depth`, with material id 1 |
| Floor.ArchipackFloor.TileRegular | __init__.py:384-419 | the loop terminates; the mesh stays valid and within the far edges; only material id 0 is added. `AddedBoxes`: the lists gain a number of tiles, each an axis-aligned box of eight vertices carrying its own six `add_cube_faces` quads; at least one, the first with its corner at the origin |
| Floor.ArchipackFloor.RowTileWidth | __init__.py:404-413 | a tile overhanging the far edge is cut to end on it and uses no draw; the random width uses a draw exactly at the start of a row with random offsets; every uncut tile is at least the shortened tile or a hundredth of a tile length wide |
| Floor.ArchipackFloor.TileRegularRow | __init__.py:404-416 | one row, whatever the random draws: validity, bounds and material id 0 kept; `AddedBoxes`: each tile added is a box with its own six quads; a row inside the floor has at least one, the first at its start (0, cur_y) |
| Floor.ArchipackFloor.RowTile | __init__.py:405-416 | one tile of a row, at a cursor inside the floor. The width is `RowTileWidth`'s (cut at the far edge, or drawn at a row start with random offsets); a draw is used exactly when `RowTileWidth` says so; the cursor moves by that width plus `spacing`. The tile is added exactly when the row starts inside the floor, as `add_cube` adds it: the box at (cur_x, cur_y) with the extents clipped at the far edges, its six quads and six zeros; otherwise nothing changes. Validity and bounds kept |
| Floor.ArchipackFloor.TileHopscotch | __init__.py:421-484 | the loop terminates; the mesh stays valid and within the far edges; only material id 0 is added. `AddedBoxes`: the lists gain tiles, each a box with its own six quads; at least one, the first at the origin |
| Floor.ArchipackFloor.HopscotchRow | __init__.py:443-476 | one row of any of the three kinds: validity, bounds and material id 0 kept; `AddedBoxes`: each tile added is a box with its own six quads; a row of kind 0 or 2 starting inside the floor has at least one, the first at (0, y) |
| Floor.ArchipackFloor.HopscotchTiles | __init__.py:450-476 | the tiles of one step: validity, bounds and material id 0 kept; `AddedBoxes`: each tile added is a box with its own six quads; at least one when the step starts inside the floor, the first at the step's start |
| Floor.ArchipackFloor.TileSteppingStone | __init__.py:486-524 | the loop terminates; the mesh stays valid and within the far edges; only material id 0 is added. `AddedBoxes`: the lists gain stones, each a box with its own six quads; at least one, the first at the origin |
| Floor.ArchipackFloor.SteppingStones | __init__.py:509-517 | the stones of one step of either kind of row: validity, bounds and material id 0 kept; `AddedBoxes`: each stone added is a box with its own six quads; at least one when the step starts inside the floor, the first at the step's start |
| Floor.ArchipackFloor.TileWindmill | __init__.py:529-557 | the loop terminates; the mesh stays valid and within the far edges; only material id 0 is added. `AddedBoxes`: the lists gain tiles, each a box with its own six quads; at least one, the first at the origin |
| Floor.ArchipackFloor.WindmillUnit | __init__.py:550-554 | the five tiles of one turn: validity, bounds and material id 0 kept; `AddedBoxes`: each tile added is a box with its own six quads; at least one when the turn starts inside the floor, the first at its start |
| Floor.ArchipackFloor.WindmillUpper | __init__.py:552-554 | the upper and left half tiles and the square of one turn: validity, bounds and material id 0 kept; `AddedBoxes`: each tile added is a box with its own six quads |
| Floor.ArchipackFloor.WoodRegular | __init__.py:559-596 | the loop terminates; the mesh stays valid and within the far edges; only material id 0 is added. `AddedBoxes`: the lists gain boards, each a box with its own six quads; at least one, the first at the origin |
| Floor.ArchipackFloor.WoodRegularColumn | __init__.py:577-594 | one column, whatever the random draws: validity, bounds and material id 0 kept; `AddedBoxes`: each board added is a box with its own six quads; a column starting inside the floor has at least one, the first at (cur_x, 0) |
| Floor.ArchipackFloor.AddParquetBoard | __init__.py:628-641 | `vs` gains the four near and four far corners; `fs` gains the six parquet quads on them; `ms` gains six zeros. When the corners form a board (`IsBoard`) this is one `AddedBoards` board; the first new vertex is the first near corner. Validity is preserved, and so are bounds when the corners are in bounds |
| Floor.ArchipackFloor.WoodParquet | __init__.py:598-671 | the loop terminates; the mesh stays valid and within the far edges; only material id 0 is added. `AddedBoards`: the lists gain boards, each laid along y or along x with its own six parquet quads; at least one, the first at the origin |
| Floor.ArchipackFloor.ParquetColumn | __init__.py:612-668 | one column of alternating groups: validity, bounds and material id 0 kept; `AddedBoards`: at least one board, each laid along y or x with its own six parquet quads, the first at (cur_x, 0) when the column starts along y |
| Floor.ArchipackFloor.ParquetGroupAlongY | __init__.py:618-644 | a group of boards laid along y: validity, bounds and material id 0 kept; `AddedBoards`: at least one board, each with its own six parquet quads, the first at (x, y); the cursor advances by at least one board width or reaches the far edge |
| Floor.ArchipackFloor.ParquetGroupAlongX | __init__.py:646-666 | a group of boards laid along x: validity, bounds and material id 0 kept; `AddedBoards`: at least one board, each with its own six parquet quads; the cursor advances by at least one board width or reaches the far edge |
| Floor.ArchipackFloor.WoodHerringbone | __init__.py:673-714 | the loop terminates; every new vertex lies in the floor rectangle and bounds are kept. As written ms never changes, so once a board adds faces the mesh is no longer valid; with the corrected builder the mesh stays valid and gets only material id 0 |
| Floor.ArchipackFloor.UpdateWood | __init__.py:722-730 | on empty lists, the wood branch: bounds kept, failing only for herringbone; only material id 0; every style but herringbone gives a valid mesh; regular wood is `AddedBoxes` boards and parquet `AddedBoards` boards from the start of the lists, the first at the origin; herringbone parquet leaves the lists empty; herringbone (builder as written) gives vertices in the floor, no material ids, and an invalid mesh once it has a face |
| Floor.ArchipackFloor.UpdateTiles | __init__.py:732-744 | on empty lists, the tile branch: a valid mesh in bounds that starts with the grout box (its exact vertices and quads, material id 1) and has only material id 0 after it; hexagon is the grout alone; every other pattern follows the grout with `AddedBoxes` tiles, each a box with its own six quads, the first at the origin |
| Floor.ArchipackFloor.UpdateData | __init__.py:719-745 | starts from empty lists and ends within the far edges, failing only for herringbone wood. Every pattern but herringbone wood gives a valid mesh. Herringbone wood (builder as written) gives vertices in the floor but no material ids, so any face makes the mesh invalid. A wood floor has only material id 0; regular wood is `AddedBoxes` boards and parquet `AddedBoards` boards, the first at the origin; herringbone parquet gives an empty mesh. A tile floor starts with the grout box (material id 1), then only material id 0; every tile pattern but hexagon follows it with `AddedBoxes` tiles, the first at the origin; hexagon is the grout alone |

## Left out

- Blender glue is not modelled. That covers the property declarations and their update callbacks, the panels, the operators, registration and the manipulator setup. `bmesh_utils.py` and `parametric_object_skeleton.py` are not part of this model either. All of it is user interface and scene I/O.
- Floating point is not modelled. Coordinates are exact reals, so each `cur_y += bl2` followed by `cur_y -= bl2` cancels exactly, and no rounding error builds up in the cursors.
- The foreign routines are parameters with no stated behaviour: `intersect_line_line_2d`, `intersect_point_quad_2d` and `atan`. The one exception is `AtanRange`, the assumption under which the `360` key is compared with the 2π key.
- `random.uniform` is a stream of draws in [0, 1) that the caller supplies.
- The `print` in `wood_herringbone` is left out; it is debug output.
- `tile_hexagon` and `wood_herringbone_parquet` are `pass` stubs. `UpdateWood` and `UpdateTiles` do nothing for them.
- The inner loops are separate methods: `TileRegularRow`, `HopscotchRow`, `WoodRegularColumn`, `ParquetColumn`, `ParquetGroupAlongY`, `ParquetGroupAlongX`, `AddSegmentPoints`, `AddSideQuads` and `InsertionIndex`. The body of the inner loop of `tile_regular` is `RowTile`, and that of `corner_points_from_boundaries` is `AddPairPoint`. The two branches of `update_data` are `UpdateWood` and `UpdateTiles`. The same goes for the three loops of `sort_corner_points` and the two of `add_shape_from_corner_points`. Each keeps its loop as written. Separating them keeps each proof small.
- The `ZeroDivisionError` of `sort_corner_points` is an `Err` result. It propagates as `ok == false` up to `UpdateData`; the exception itself is not modelled.
- The angle key keeps the literal `360` of `sort_corner_points`, as written. `SortedByAngleAgreesWithTwoPi` shows that, while `atan` stays in (-π/2, π/2), this orders the points as 2π would. So it is kept, not recorded as a finding.
- In `tile_regular`, the random first-tile width is drawn around half the tile length, not half the tile width. It is modelled as written.
- The generators' contracts do not state the exact tiling. They state termination, validity, bounds, material ids, that every piece added is a box (a parquet board) carrying its own six quads (`AddedBoxes`, `AddedBoards`), at least one, and where the first one starts. Where the later pieces go, their sizes, and that they cover the floor without overlap are not stated; the lines below name each member. The exact geometry is stated for `add_cube`, `PlaceBox`, `RowTile`, the parquet board, the prism and the grout.
- Floor.ArchipackFloor.WoodHerringbone: does not state which boards are built or how many, only bounds, where the vertices lie and what happens to `ms`, because each board's corners come from the foreign `intersect_line_line_2d`.
- The centroid of `sort_corner_points` is a `mathutils.Vector` sum, computed in single precision. Here it is exact, so the division-by-zero condition of `SortCornerPoints` (a point with exactly the centroid's x) is an exact-real idealisation: in the program, a single corner whose x is not exactly a single-precision value does not raise.
- The source declares `vs`, `fs` and `ms` as class attributes, lists shared by every `archipack_floor` (`__init__.py:73-74`). `update_data` rebinds them on the instance before use, so here each floor object owns its three lists; sharing between objects is not modelled.
- The step bodies of `tile_hopscotch`, `tile_stepping_stone` and `tile_windmill` are separate methods (`HopscotchTiles`, `SteppingStones`, `WindmillUnit`, whose last three tiles are `WindmillUpper`), and the first-tile width of `tile_regular` is the function `RowTileWidth`. The calls happen in the source's order.
- Floor.ArchipackFloor.TileRegular: states that each of its tiles is a whole box with its own quads and where the first starts, not where the later tiles go, their extents, or that they cover the floor without overlap; that would need the cursor arithmetic of every step in the contract.
- Floor.ArchipackFloor.TileRegularRow: states that each of its tiles is a whole box with its own quads and where the first starts, not where the later tiles go, their extents, or that they cover the floor without overlap; that would need the cursor arithmetic of every step in the contract.
- Floor.ArchipackFloor.TileHopscotch: states that each of its tiles is a whole box with its own quads and where the first starts, not where the later tiles go, their extents, or that they cover the floor without overlap; that would need the cursor arithmetic of every step in the contract.
- Floor.ArchipackFloor.HopscotchRow: states that each of its tiles is a whole box with its own quads and where the first starts, not where the later tiles go, their extents, or that they cover the floor without overlap; that would need the cursor arithmetic of every step in the contract.
- Floor.ArchipackFloor.HopscotchTiles: states that each of its tiles is a whole box with its own quads and where the first starts, not where the later tiles go, their extents, or that they cover the floor without overlap; that would need the cursor arithmetic of every step in the contract.
- Floor.ArchipackFloor.TileSteppingStone: states that each of its stones is a whole box with its own quads and where the first starts, not where the later stones go, their extents, or that they cover the floor without overlap; that would need the cursor arithmetic of every step in the contract.
- Floor.ArchipackFloor.SteppingStones: states that each of its stones is a whole box with its own quads and where the first starts, not where the later stones go, their extents, or that they cover the floor without overlap; that would need the cursor arithmetic of every step in the contract.
- Floor.ArchipackFloor.TileWindmill: states that each of its tiles is a whole box with its own quads and where the first starts, not where the later tiles go, their extents, or that they cover the floor without overlap; that would need the cursor arithmetic of every step in the contract.
- Floor.ArchipackFloor.WindmillUnit: states that each of its tiles is a whole box with its own quads and where the first starts, not where the later tiles go, their extents, or that they cover the floor without overlap; that would need the cursor arithmetic of every step in the contract.
- Floor.ArchipackFloor.WindmillUpper: states that each of its tiles is a whole box with its own quads and where the first starts, not where the later tiles go, their extents, or that they cover the floor without overlap; that would need the cursor arithmetic of every step in the contract.
- Floor.ArchipackFloor.WoodRegular: states that each of its boards is a whole box with its own quads and where the first starts, not where the later boards go, their extents, or that they cover the floor without overlap; that would need the cursor arithmetic of every step in the contract.
- Floor.ArchipackFloor.WoodRegularColumn: states that each of its boards is a whole box with its own quads and where the first starts, not where the later boards go, their extents, or that they cover the floor without overlap; that would need the cursor arithmetic of every step in the contract.
- Floor.ArchipackFloor.WoodParquet: states that each of its boards is a whole box with its own quads and where the first starts, not where the later boards go, their extents, or that they cover the floor without overlap; that would need the cursor arithmetic of every step in the contract.
- Floor.ArchipackFloor.ParquetColumn: states that each of its boards is a whole box with its own quads and where the first starts, not where the later boards go, their extents, or that they cover the floor without overlap; that would need the cursor arithmetic of every step in the contract.
- Floor.ArchipackFloor.ParquetGroupAlongY: states that each of its boards is a whole box with its own quads and where the first starts, not where the later boards go, their extents, or that they cover the floor without overlap; that would need the cursor arithmetic of every step in the contract.
- Floor.ArchipackFloor.ParquetGroupAlongX: states that each of its boards is a whole box with its own quads and where the first starts, not where the later boards go, their extents, or that they cover the floor without overlap; that would need the cursor arithmetic of every step in the contract.
- Floor.ArchipackFloor.UpdateTiles: states the grout exactly and each tile after it as a whole box with its own quads, not where the tiles go (see the generators above).
- Floor.ArchipackFloor.UpdateWood: promises no valid mesh for herringbone wood, only bounds and an empty `ms`, because the builder as written adds faces without material ids (see Findings). For regular and parquet wood it states whole boards, not where they go.
- Floor.ArchipackFloor.UpdateData: promises no valid mesh for herringbone wood, only bounds and an empty `ms`, because the builder as written adds faces without material ids (see Findings). For every other pattern it states whole pieces, not where they go.
- The `corrected` flag of `CreateBoardFromBoundaries` and `WoodHerringbone` is not in the source; `UpdateData` passes false, the source's behaviour. With true, the chain uses the corrected builder of the Findings.
- Rounding uses exact reals. `Round` rounds the exact scaled value half to even; Python rounds the binary double.

## Findings

| source | as written | input that shows it | evidently intended | confidence | as-written member | corrected member |
|---|---|---|---|---|---|---|
| __init__.py:317-336 | the faces are appended for any number of corner points | no corner points: the faces `[p, p, p+1, p+1]`, `[p]` and `[p+1]` name vertices that were never added. One point: in exact arithmetic it is its own centroid, so the sort divides by zero (with the single-precision centroid of the original this holds only when rounding gives the point back). Two points: both caps have two indices | no board for fewer than three corner points | not executed | Floor.ArchipackFloor.AddShapeFromCornerPoints, MeshShapes.EmptyPrismFacesOutOfRange, MeshShapes.TwoPointPrismDegenerate, CornerSort.SinglePointIsItsCentroid | Floor.ArchipackFloor.AddShapeFromCornerPointsChecked |
| __init__.py:308-336 | `mat_id` is accepted but never used, and `ms` gains nothing | any three corner points: `fs` gains five faces, `ms` none | one material id `mat_id` per new face | not executed | Floor.ArchipackFloor.AddShapeFromCornerPoints | Floor.ArchipackFloor.AddShapeFromCornerPointsChecked |

In both rows `fs` and `ms` stop being parallel lists. After either call,
`Valid()` no longer holds. `wood_herringbone` reaches the builder through
`create_board_from_boundaries`, so `UpdateData`, which models the source
as written, makes no validity promise for herringbone wood.
`WoodHerringbone` called with `corrected` set uses the corrected builder and
keeps the mesh valid.
