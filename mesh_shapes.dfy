/**
 * The vertex and face patterns the floor builders append: the box of
 * `add_cube`, the board of `wood_parquet` and the prism of
 * `add_shape_from_corner_points`.
 */
module MeshShapes {
  import opened Geometry

  /** Face `f` has at least three indices, all naming one of the first `n` vertices. */
  predicate FaceOk(f: Face, n: int) {
    |f| >= 3 && forall k :: 0 <= k < |f| ==> 0 <= f[k] < n
  }

  /** Every index of face `f` lies in `[lo, hi)`. */
  predicate FaceWithin(f: Face, lo: int, hi: int) {
    forall k :: 0 <= k < |f| ==> lo <= f[k] < hi
  }

  /** The eight vertices `add_cube` appends, in its order. */
  function BoxVertices(x: real, y: real, z: real, w: real, l: real, t: real): (r: seq<Vertex>)
    ensures |r| == 8
  {
    [Vertex(x, y, z), Vertex(x, y, z + t), Vertex(x + w, y, z), Vertex(x + w, y, z + t),
     Vertex(x, y + l, z), Vertex(x, y + l, z + t), Vertex(x + w, y + l, z), Vertex(x + w, y + l, z + t)]
  }

  /**
   * The eight vertices `wood_parquet` appends for a board laid along y at
   * (`x`, `y`), `w` wide in x and `l` long in y, from height 0 to `z`:
   * four at `y`, then the same four at `y + l`.
   */
  function BoardAlongY(x: real, y: real, w: real, l: real, z: real): (r: seq<Vertex>)
    ensures |r| == 8
  {
    [Vertex(x, y, 0.0), Vertex(x, y, z), Vertex(x + w, y, z), Vertex(x + w, y, 0.0),
     Vertex(x, y + l, 0.0), Vertex(x, y + l, z), Vertex(x + w, y + l, z), Vertex(x + w, y + l, 0.0)]
  }

  /**
   * The eight vertices `wood_parquet` appends for a board laid along x at
   * (`x`, `y`), `l` long in x and `w` wide in y, from height 0 to `z`:
   * four at `x`, then the same four at `x + l`.
   */
  function BoardAlongX(x: real, y: real, w: real, l: real, z: real): (r: seq<Vertex>)
    ensures |r| == 8
  {
    [Vertex(x, y + w, 0.0), Vertex(x, y + w, z), Vertex(x, y, z), Vertex(x, y, 0.0),
     Vertex(x + l, y + w, 0.0), Vertex(x + l, y + w, z), Vertex(x + l, y, z), Vertex(x + l, y, 0.0)]
  }

  /**
   * `q` is an axis-aligned box in the vertex order of `add_cube`: the box
   * at `q[0]` whose extents are read off the corners `q[2]`, `q[4]` and
   * `q[1]`.
   */
  predicate IsBox(q: seq<Vertex>) {
    |q| == 8 && q == BoxVertices(q[0].x, q[0].y, q[0].z, q[2].x - q[0].x, q[4].y - q[0].y, q[1].z - q[0].z)
  }

  /** `q` is a `wood_parquet` board standing on height 0, laid along y or along x. */
  predicate IsBoard(q: seq<Vertex>) {
    && |q| == 8
    && (|| q == BoardAlongY(q[0].x, q[0].y, q[2].x - q[0].x, q[4].y - q[0].y, q[1].z)
        || q == BoardAlongX(q[3].x, q[3].y, q[0].y - q[3].y, q[4].x - q[3].x, q[1].z))
  }

  /** The vertices `add_cube` appends form a box. */
  lemma BoxVerticesIsBox(x: real, y: real, z: real, w: real, l: real, t: real)
    ensures IsBox(BoxVertices(x, y, z, w, l, t))
  {
  }

  /** The vertices of a board laid either way form a board. */
  lemma BoardsAreBoards(x: real, y: real, w: real, l: real, z: real)
    ensures IsBoard(BoardAlongY(x, y, w, l, z)) && IsBoard(BoardAlongX(x, y, w, l, z))
  {
  }

  /** The six quads of `add_cube_faces` for a box whose first vertex is `p`. */
  function CubeFaces(p: int): (r: seq<Face>)
    ensures |r| == 6
    ensures forall j :: 0 <= j < 6 ==> |r[j]| == 4 && FaceWithin(r[j], p, p + 8)
  {
    [[p, p + 2, p + 3, p + 1], [p + 2, p + 6, p + 7, p + 3], [p + 1, p + 3, p + 7, p + 5],
     [p + 6, p + 4, p + 5, p + 7], [p, p + 1, p + 5, p + 4], [p, p + 4, p + 6, p + 2]]
  }

  /** The six quads `wood_parquet` appends for a board whose first vertex is `p`. */
  function ParquetFaces(p: int): (r: seq<Face>)
    ensures |r| == 6
    ensures forall j :: 0 <= j < 6 ==> |r[j]| == 4 && FaceWithin(r[j], p, p + 8)
  {
    [[p, p + 3, p + 2, p + 1], [p + 4, p + 5, p + 6, p + 7], [p, p + 4, p + 7, p + 3],
     [p + 3, p + 7, p + 6, p + 2], [p + 1, p + 2, p + 6, p + 5], [p, p + 1, p + 5, p + 4]]
  }

  /** Each corner point becomes a vertex at height 0 followed by one at height `th`. */
  function PrismVertices(points: seq<seq<real>>, th: real): (r: seq<Vertex>)
    requires forall k :: 0 <= k < |points| ==> |points[k]| >= 2
    ensures |r| == 2 * |points|
    ensures forall k :: 0 <= k < |points| ==>
              r[2 * k] == Vertex(points[k][0], points[k][1], 0.0) &&
              r[2 * k + 1] == Vertex(points[k][0], points[k][1], th)
  {
    if |points| == 0 then []
    else [Vertex(points[0][0], points[0][1], 0.0), Vertex(points[0][0], points[0][1], th)]
         + PrismVertices(points[1..], th)
  }

  /** The index of the last height-0 vertex of the prism; `p` itself when there are no points. */
  function LastBase(p: int, n: nat): int {
    if n == 0 then p else p + 2 * (n - 1)
  }

  /** The vertices of a concatenation of corner-point lists are the concatenation of their vertices. */
  lemma {:induction false} PrismVerticesAppend(a: seq<seq<real>>, b: seq<seq<real>>, th: real)
    requires forall k :: 0 <= k < |a| ==> |a[k]| >= 2
    requires forall k :: 0 <= k < |b| ==> |b[k]| >= 2
    ensures PrismVertices(a + b, th) == PrismVertices(a, th) + PrismVertices(b, th)
  {
    if |a| == 0 {
      assert a + b == b;
    } else {
      assert (a + b)[1..] == a[1..] + b;
      PrismVerticesAppend(a[1..], b, th);
    }
  }

  /** The side quads between consecutive corner points: `max(n - 1, 0)` of them. */
  function SideQuads(p: int, n: nat): (r: seq<Face>)
    ensures |r| == if n == 0 then 0 else n - 1
  {
    if n <= 1 then [] else SideQuads(p, n - 1) + [[p + 2 * (n - 2), p + 2 * (n - 1), p + 2 * (n - 1) + 1, p + 2 * (n - 2) + 1]]
  }

  /** The `k` indices `p, p + 2, …, p + 2(k - 1)`. */
  function Run(p: int, k: nat): (r: seq<int>)
    ensures |r| == k
  {
    if k == 0 then [] else Run(p, k - 1) + [p + 2 * (k - 1)]
  }

  /** The indices `p, p + 2, …, LastBase(p, n)` (`top_face` before it is reversed). */
  function BaseRun(p: int, n: nat): (r: seq<int>) {
    Run(p, if n == 0 then 1 else n)
  }

  /** The indices `p + 1, p + 3, …, LastBase(p, n) + 1` (`bottom_face`). */
  function TopRun(p: int, n: nat): (r: seq<int>) {
    Run(p + 1, if n == 0 then 1 else n)
  }

  /**
   * Side quad `i` joins the vertex pairs of corner points `i` and `i + 1`;
   * the runs list the vertices at height 0 (index `p + 2i`) and at height
   * `th` (index `p + 2i + 1`) in corner-point order.
   */
  lemma {:induction false} RunsAt(p: int, n: nat)
    ensures forall i :: 0 <= i < |SideQuads(p, n)| ==>
              SideQuads(p, n)[i] == [p + 2 * i, p + 2 * i + 2, p + 2 * i + 3, p + 2 * i + 1]
    ensures forall i :: 0 <= i < |Run(p, n)| ==> Run(p, n)[i] == p + 2 * i
  {
    if n > 0 {
      RunsAt(p, n - 1);
    }
  }

  /** The runs have one index per corner point, at least one, each naming the point's vertex at height 0 or `th`. */
  lemma PrismRuns(p: int, n: nat)
    ensures |BaseRun(p, n)| == |TopRun(p, n)| == if n == 0 then 1 else n
    ensures forall i :: 0 <= i < |BaseRun(p, n)| ==> BaseRun(p, n)[i] == p + 2 * i
    ensures forall i :: 0 <= i < |TopRun(p, n)| ==> TopRun(p, n)[i] == p + 2 * i + 1
  {
    RunsAt(p, if n == 0 then 1 else n);
    RunsAt(p + 1, if n == 0 then 1 else n);
  }

  function Reverse(s: seq<int>): (r: seq<int>)
    ensures |r| == |s| && forall i :: 0 <= i < |s| ==> r[i] == s[|s| - 1 - i]
  {
    if s == [] then [] else Reverse(s[1..]) + [s[0]]
  }

  /**
   * The faces `add_shape_from_corner_points` appends for `n` corner points
   * whose first vertex is `p`: the side quads, the closing quad, the
   * reversed `top_face` and the `bottom_face`.
   */
  function PrismFaces(p: int, n: nat): (r: seq<Face>)
    ensures |r| == (if n == 0 then 1 else n) + 2
  {
    SideQuads(p, n) + [[LastBase(p, n), p, p + 1, LastBase(p, n) + 1], Reverse(BaseRun(p, n)), TopRun(p, n)]
  }

  /**
   * For n >= 1 corner points the prism has n quads (n - 1 side quads and
   * the closing one), then the two caps of n indices each, and every index
   * names one of its own 2n vertices.
   */
  lemma PrismFacesInRange(p: int, n: nat)
    requires n >= 1
    ensures |PrismFaces(p, n)| == n + 2
    ensures forall j :: 0 <= j < n ==> |PrismFaces(p, n)[j]| == 4
    ensures |PrismFaces(p, n)[n]| == n && |PrismFaces(p, n)[n + 1]| == n
    ensures forall j :: 0 <= j < n + 2 ==> FaceWithin(PrismFaces(p, n)[j], p, p + 2 * n)
  {
    RunsAt(p, n);
    PrismRuns(p, n);
    var f := PrismFaces(p, n);
    var r := Reverse(BaseRun(p, n));
    assert f[n] == r;
    assert FaceWithin(r, p, p + 2 * n) by {
      forall k | 0 <= k < |r|
        ensures p <= r[k] < p + 2 * n
      {
        assert r[k] == BaseRun(p, n)[n - 1 - k];
      }
    }
    assert f[n - 1] == [LastBase(p, n), p, p + 1, LastBase(p, n) + 1];
  }

  /** With at least three corner points every prism face is a polygon over existing vertices. */
  lemma PrismFacesOk(p: int, n: nat, total: int)
    requires n >= 3 && 0 <= p && p + 2 * n <= total
    ensures |PrismFaces(p, n)| == n + 2
    ensures forall j :: 0 <= j < n + 2 ==> FaceOk(PrismFaces(p, n)[j], total)
  {
    PrismFacesInRange(p, n);
  }

  /** With no corner points the three faces still name vertices `p` and `p + 1`, which do not exist yet. */
  lemma EmptyPrismFacesOutOfRange(p: int)
    ensures PrismFaces(p, 0) == [[p, p, p + 1, p + 1], [p], [p + 1]]
    ensures forall j :: 0 <= j < 3 ==> !FaceOk(PrismFaces(p, 0)[j], p)
  {
    assert Run(p, 0) == [] && Run(p + 1, 0) == [];
    assert BaseRun(p, 0) == Run(p, 1) == [p];
    assert TopRun(p, 0) == Run(p + 1, 1) == [p + 1];
    assert SideQuads(p, 0) == [];
    assert Reverse([p]) == [p];
    forall j | 0 <= j < 3
      ensures !FaceOk(PrismFaces(p, 0)[j], p)
    {
      assert PrismFaces(p, 0)[j][0] >= p;
    }
  }

  /** With two corner points both caps are faces of only two indices. */
  lemma TwoPointPrismDegenerate(p: int)
    ensures |PrismFaces(p, 2)| == 4
    ensures |PrismFaces(p, 2)[2]| == 2 && |PrismFaces(p, 2)[3]| == 2
  {
    PrismFacesInRange(p, 2);
  }

  /** A corner of the unit box: each coordinate 0 (near side) or 1 (far side). */
  datatype Lattice = Lattice(x: int, y: int, z: int)

  /** The corners of the unit box in the order of `BoxVertices`: bit 1 of the index is x, bit 2 is y and bit 0 is z. */
  const CubeCorners: seq<Lattice> :=
    [Lattice(0, 0, 0), Lattice(0, 0, 1), Lattice(1, 0, 0), Lattice(1, 0, 1),
     Lattice(0, 1, 0), Lattice(0, 1, 1), Lattice(1, 1, 0), Lattice(1, 1, 1)]

  /** The corners of a `wood_parquet` board laid along y: four at `cur_y`, then four further on. */
  const ParquetCornersAlongY: seq<Lattice> :=
    [Lattice(0, 0, 0), Lattice(0, 0, 1), Lattice(1, 0, 1), Lattice(1, 0, 0),
     Lattice(0, 1, 0), Lattice(0, 1, 1), Lattice(1, 1, 1), Lattice(1, 1, 0)]

  /** The corners of a `wood_parquet` board laid along x: four at `cur_x`, then four further on. */
  const ParquetCornersAlongX: seq<Lattice> :=
    [Lattice(0, 1, 0), Lattice(0, 1, 1), Lattice(0, 0, 1), Lattice(0, 0, 0),
     Lattice(1, 1, 0), Lattice(1, 1, 1), Lattice(1, 0, 1), Lattice(1, 0, 0)]

  /** Coordinate `axis` of a corner: 0 is x, 1 is y, 2 is z. */
  function Coord(c: Lattice, axis: int): int {
    if axis == 0 then c.x else if axis == 1 then c.y else c.z
  }

  /** (u', v') is the corner after (u, v) counter-clockwise around the unit square (0,0), (1,0), (1,1), (0,1). */
  predicate NextCcw(u: int, v: int, u': int, v': int) {
    if u == 0 && v == 0 then u' == 1 && v' == 0
    else if u == 1 && v == 0 then u' == 1 && v' == 1
    else if u == 1 && v == 1 then u' == 0 && v' == 1
    else u == 0 && v == 1 && u' == 0 && v' == 0
  }

  /**
   * On a side across `axis`, corner `b` follows corner `a` counter-clockwise
   * in the plane of the next two axes in cyclic order (y, z for x; z, x
   * for y; x, y for z), that is, seen from beyond the far side of `axis`.
   */
  predicate CcwStep(a: Lattice, b: Lattice, axis: int) {
    if axis == 0 then NextCcw(a.y, a.z, b.y, b.z)
    else if axis == 1 then NextCcw(a.z, a.x, b.z, b.x)
    else NextCcw(a.x, a.y, b.x, b.y)
  }

  /** Corner `i` of `corner` lies on side `side` across `axis`. */
  predicate OnSide(corner: seq<Lattice>, i: int, axis: int, side: int) {
    0 <= i < |corner| && Coord(corner[i], axis) == side
  }

  /**
   * The quad `f`, in indices local to its box with corners `corner`, is
   * the whole side `side` across `axis`, and it winds counter-clockwise
   * seen from outside the box at that side, so by the right-hand rule its
   * normal points out. Seen from beyond the far side of `axis` (the view
   * `CcwStep` takes), that is counter-clockwise on the far side and
   * clockwise on the near side.
   */
  predicate OutwardQuad(f: Face, corner: seq<Lattice>, axis: int, side: int) {
    && |f| == 4
    && OnSide(corner, f[0], axis, side) && OnSide(corner, f[1], axis, side)
    && OnSide(corner, f[2], axis, side) && OnSide(corner, f[3], axis, side)
    && if side == 1 then
         && CcwStep(corner[f[0]], corner[f[1]], axis) && CcwStep(corner[f[1]], corner[f[2]], axis)
         && CcwStep(corner[f[2]], corner[f[3]], axis) && CcwStep(corner[f[3]], corner[f[0]], axis)
       else
         && CcwStep(corner[f[1]], corner[f[0]], axis) && CcwStep(corner[f[2]], corner[f[1]], axis)
         && CcwStep(corner[f[3]], corner[f[2]], axis) && CcwStep(corner[f[0]], corner[f[3]], axis)
  }

  /** Six distinct sides of a box, as (axis, near 0 or far 1) pairs. */
  predicate SixSides(sides: seq<(int, int)>) {
    && |sides| == 6
    && (forall j :: 0 <= j < 6 ==> 0 <= sides[j].0 < 3 && 0 <= sides[j].1 < 2)
    && (forall a, b :: 0 <= a < b < 6 ==> sides[a] != sides[b])
  }

  /** The face `f` with every index moved down by `p`. */
  function Local(f: Face, p: int): (r: Face)
    ensures |r| == |f| && forall k :: 0 <= k < |f| ==> r[k] == f[k] - p
  {
    seq(|f|, k requires 0 <= k < |f| => f[k] - p)
  }

  /** Vertex `i` of the box is corner `i` of the unit box, moved to (x, y, z) and stretched by (w, l, t). */
  lemma BoxVerticesAreCorners(x: real, y: real, z: real, w: real, l: real, t: real)
    ensures forall i :: 0 <= i < 8 ==>
              BoxVertices(x, y, z, w, l, t)[i] ==
              Vertex(if CubeCorners[i].x == 1 then x + w else x,
                     if CubeCorners[i].y == 1 then y + l else y,
                     if CubeCorners[i].z == 1 then z + t else z)
  {
  }

  /**
   * Vertex `i` of a board laid along y is corner `i` of `ParquetCornersAlongY`,
   * moved to (x, y, 0) and stretched by (w, l, z); laid along x, it is
   * corner `i` of `ParquetCornersAlongX` stretched by (l, w, z).
   */
  lemma BoardsAreCorners(x: real, y: real, w: real, l: real, z: real)
    ensures forall i :: 0 <= i < 8 ==>
              BoardAlongY(x, y, w, l, z)[i] ==
              Vertex(if ParquetCornersAlongY[i].x == 1 then x + w else x,
                     if ParquetCornersAlongY[i].y == 1 then y + l else y,
                     if ParquetCornersAlongY[i].z == 1 then z else 0.0)
    ensures forall i :: 0 <= i < 8 ==>
              BoardAlongX(x, y, w, l, z)[i] ==
              Vertex(if ParquetCornersAlongX[i].x == 1 then x + l else x,
                     if ParquetCornersAlongX[i].y == 1 then y + w else y,
                     if ParquetCornersAlongX[i].z == 1 then z else 0.0)
  {
  }

  /** Which side of the box each quad of `add_cube_faces` covers. */
  const CubeSides: seq<(int, int)> := [(1, 0), (0, 1), (2, 1), (1, 1), (0, 0), (2, 0)]

  /** The quads of a box whose vertices start at 0 that cover its near sides (x, y or z least) face out. */
  lemma CubeQuadsOutwardNear()
    ensures SixSides(CubeSides)
    ensures OutwardQuad([0, 2, 3, 1], CubeCorners, 1, 0)
    ensures OutwardQuad([0, 1, 5, 4], CubeCorners, 0, 0)
    ensures OutwardQuad([0, 4, 6, 2], CubeCorners, 2, 0)
  {
  }

  /** The quads of a box whose vertices start at 0 that cover its far sides face out. */
  lemma CubeQuadsOutwardFar()
    ensures OutwardQuad([2, 6, 7, 3], CubeCorners, 0, 1)
    ensures OutwardQuad([1, 3, 7, 5], CubeCorners, 2, 1)
    ensures OutwardQuad([6, 4, 5, 7], CubeCorners, 1, 1)
  {
  }

  /** Moved down by `p`, the quads of a box whose vertices start at `p` are those of one starting at 0. */
  lemma CubeFacesLocal(p: int)
    ensures Local(CubeFaces(p)[0], p) == [0, 2, 3, 1] && Local(CubeFaces(p)[1], p) == [2, 6, 7, 3]
    ensures Local(CubeFaces(p)[2], p) == [1, 3, 7, 5] && Local(CubeFaces(p)[3], p) == [6, 4, 5, 7]
    ensures Local(CubeFaces(p)[4], p) == [0, 1, 5, 4] && Local(CubeFaces(p)[5], p) == [0, 4, 6, 2]
  {
    var f := CubeFaces(p);
    assert Local(f[0], p) == [0, 2, 3, 1];
    assert Local(f[1], p) == [2, 6, 7, 3];
    assert Local(f[2], p) == [1, 3, 7, 5];
    assert Local(f[3], p) == [6, 4, 5, 7];
    assert Local(f[4], p) == [0, 1, 5, 4];
    assert Local(f[5], p) == [0, 4, 6, 2];
  }

  /** The six quads of `add_cube_faces` are the six sides of the box, each facing out. */
  lemma CubeFacesOutward(p: int)
    ensures exists sides: seq<(int, int)> :: SixSides(sides) &&
              forall j :: 0 <= j < 6 ==> OutwardQuad(Local(CubeFaces(p)[j], p), CubeCorners, sides[j].0, sides[j].1)
  {
    CubeFacesLocal(p);
    CubeQuadsOutwardNear();
    CubeQuadsOutwardFar();
    assert forall j :: 0 <= j < 6 ==> OutwardQuad(Local(CubeFaces(p)[j], p), CubeCorners, CubeSides[j].0, CubeSides[j].1);
  }

  /** Which side of a board laid along y (along x) each quad of `wood_parquet` covers. */
  const ParquetSidesAlongY: seq<(int, int)> := [(1, 0), (1, 1), (2, 0), (0, 1), (2, 1), (0, 0)]
  const ParquetSidesAlongX: seq<(int, int)> := [(0, 0), (0, 1), (2, 0), (1, 0), (2, 1), (1, 1)]

  /** The quads of a `wood_parquet` board along y whose vertices start at 0 that cover its near sides (x, y or z least) face out. */
  lemma ParquetQuadsOutwardAlongYNear()
    ensures SixSides(ParquetSidesAlongY)
    ensures OutwardQuad([0, 3, 2, 1], ParquetCornersAlongY, 1, 0)
    ensures OutwardQuad([0, 4, 7, 3], ParquetCornersAlongY, 2, 0)
    ensures OutwardQuad([0, 1, 5, 4], ParquetCornersAlongY, 0, 0)
  {
  }

  /** The quads of a `wood_parquet` board along y whose vertices start at 0 that cover its far sides face out. */
  lemma ParquetQuadsOutwardAlongYFar()
    ensures OutwardQuad([4, 5, 6, 7], ParquetCornersAlongY, 1, 1)
    ensures OutwardQuad([3, 7, 6, 2], ParquetCornersAlongY, 0, 1)
    ensures OutwardQuad([1, 2, 6, 5], ParquetCornersAlongY, 2, 1)
  {
  }

  /** The quads of a `wood_parquet` board along x whose vertices start at 0 that cover its near sides (x, y or z least) face out. */
  lemma ParquetQuadsOutwardAlongXNear()
    ensures SixSides(ParquetSidesAlongX)
    ensures OutwardQuad([0, 3, 2, 1], ParquetCornersAlongX, 0, 0)
    ensures OutwardQuad([0, 4, 7, 3], ParquetCornersAlongX, 2, 0)
    ensures OutwardQuad([3, 7, 6, 2], ParquetCornersAlongX, 1, 0)
  {
  }

  /** The quads of a `wood_parquet` board along x whose vertices start at 0 that cover its far sides face out. */
  lemma ParquetQuadsOutwardAlongXFar()
    ensures OutwardQuad([4, 5, 6, 7], ParquetCornersAlongX, 0, 1)
    ensures OutwardQuad([1, 2, 6, 5], ParquetCornersAlongX, 2, 1)
    ensures OutwardQuad([0, 1, 5, 4], ParquetCornersAlongX, 1, 1)
  {
  }

  /** Moved down by `p`, the quads of a board whose vertices start at `p` are those of one starting at 0. */
  lemma ParquetFacesLocal(p: int)
    ensures Local(ParquetFaces(p)[0], p) == [0, 3, 2, 1] && Local(ParquetFaces(p)[1], p) == [4, 5, 6, 7]
    ensures Local(ParquetFaces(p)[2], p) == [0, 4, 7, 3] && Local(ParquetFaces(p)[3], p) == [3, 7, 6, 2]
    ensures Local(ParquetFaces(p)[4], p) == [1, 2, 6, 5] && Local(ParquetFaces(p)[5], p) == [0, 1, 5, 4]
  {
    var f := ParquetFaces(p);
    assert Local(f[0], p) == [0, 3, 2, 1];
    assert Local(f[1], p) == [4, 5, 6, 7];
    assert Local(f[2], p) == [0, 4, 7, 3];
    assert Local(f[3], p) == [3, 7, 6, 2];
    assert Local(f[4], p) == [1, 2, 6, 5];
    assert Local(f[5], p) == [0, 1, 5, 4];
  }

  /** The six quads of a `wood_parquet` board laid along y are its six sides, each facing out. */
  lemma ParquetFacesOutwardAlongY(p: int)
    ensures exists sides: seq<(int, int)> :: SixSides(sides) &&
              forall j :: 0 <= j < 6 ==> OutwardQuad(Local(ParquetFaces(p)[j], p), ParquetCornersAlongY, sides[j].0, sides[j].1)
  {
    ParquetFacesLocal(p);
    ParquetQuadsOutwardAlongYNear();
    ParquetQuadsOutwardAlongYFar();
    assert forall j :: 0 <= j < 6 ==>
      OutwardQuad(Local(ParquetFaces(p)[j], p), ParquetCornersAlongY, ParquetSidesAlongY[j].0, ParquetSidesAlongY[j].1);
  }

  /** The same quads are the six sides of a board laid along x, each facing out. */
  lemma ParquetFacesOutwardAlongX(p: int)
    ensures exists sides: seq<(int, int)> :: SixSides(sides) &&
              forall j :: 0 <= j < 6 ==> OutwardQuad(Local(ParquetFaces(p)[j], p), ParquetCornersAlongX, sides[j].0, sides[j].1)
  {
    ParquetFacesLocal(p);
    ParquetQuadsOutwardAlongXNear();
    ParquetQuadsOutwardAlongXFar();
    assert forall j :: 0 <= j < 6 ==>
      OutwardQuad(Local(ParquetFaces(p)[j], p), ParquetCornersAlongX, ParquetSidesAlongX[j].0, ParquetSidesAlongX[j].1);
  }
}
