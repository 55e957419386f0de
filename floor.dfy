/**
 * The floor mesh generator: class `archipack_floor`, which accumulates
 * vertices, faces and material ids in three parallel lists and fills them
 * with boards or tiles in one of several patterns.
 */
module Floor {
  import opened Wrappers
  import opened Geometry
  import opened Rounding
  import opened FloorConfig
  import opened MeshShapes
  import opened CornerSort

  /** `[mat_id] * n`. */
  function Repeat(matId: int, n: nat): (r: seq<int>)
    ensures |r| == n && forall i :: 0 <= i < n ==> r[i] == matId
  {
    seq(n, _ => matId)
  }

  /** No point occurs twice in `s`: each point differs from every point before it. */
  ghost predicate Distinct(s: seq<seq<real>>)
    decreases |s|
  {
    |s| == 0 || (Distinct(s[..|s| - 1]) && s[|s| - 1] !in s[..|s| - 1])
  }

  /** `Distinct` is the pairwise statement: no two positions hold the same point. */
  lemma {:induction false} DistinctPairwise(s: seq<seq<real>>)
    ensures Distinct(s) <==> forall k, m :: 0 <= k < m < |s| ==> s[k] != s[m]
    decreases |s|
  {
    if |s| > 0 {
      var init := s[..|s| - 1];
      DistinctPairwise(init);
      if Distinct(s) {
        forall k, m | 0 <= k < m < |s|
          ensures s[k] != s[m]
        {
          assert s[k] == init[k];
          if m < |s| - 1 {
            assert s[m] == init[m];
          }
        }
      }
      if forall k, m :: 0 <= k < m < |s| ==> s[k] != s[m] {
        forall k, m | 0 <= k < m < |init|
          ensures init[k] != init[m]
        {
          assert init[k] == s[k] && init[m] == s[m];
        }
        forall k | 0 <= k < |init|
          ensures init[k] != s[|s| - 1]
        {
          assert init[k] == s[k];
        }
      }
    }
  }

  /** Appending a point that is not there yet keeps the points distinct. */
  lemma DistinctAppend(s: seq<seq<real>>, x: seq<real>)
    requires Distinct(s) && x !in s
    ensures Distinct(s + [x])
  {
    assert (s + [x])[..|s|] == s;
  }

  /** What a pattern adds piece by piece: `add_cube` boxes, or `wood_parquet` boards. */
  datatype PieceKind = Cube | Board

  /**
   * Piece `k` counted from vertex `v0` and face `f0` is whole: its eight
   * vertices form a box (a board), and its six faces are the quads
   * `add_cube_faces` (`wood_parquet`) puts on those eight vertices.
   */
  ghost predicate PieceAt(vs: seq<Vertex>, fs: seq<Face>, v0: nat, f0: nat, k: nat, kind: PieceKind) {
    var v, f := v0 + 8 * k, f0 + 6 * k;
    && v + 8 <= |vs| && f + 6 <= |fs|
    && match kind
       case Cube => IsBox(vs[v..v + 8]) && fs[f..f + 6] == CubeFaces(v)
       case Board => IsBoard(vs[v..v + 8]) && fs[f..f + 6] == ParquetFaces(v)
  }

  /** Pieces 0 to `n` - 1 counted from vertex `v0` and face `f0` are whole. */
  ghost predicate Pieces(vs: seq<Vertex>, fs: seq<Face>, v0: nat, f0: nat, n: nat, kind: PieceKind) {
    forall k: nat :: k < n ==> PieceAt(vs, fs, v0, f0, k, kind)
  }

  /** A whole piece stays whole when the lists grow at the end. */
  lemma PieceAtPrefix(vs: seq<Vertex>, fs: seq<Face>, vs': seq<Vertex>, fs': seq<Face>,
                      v0: nat, f0: nat, k: nat, kind: PieceKind)
    requires vs <= vs' && fs <= fs' && PieceAt(vs, fs, v0, f0, k, kind)
    ensures PieceAt(vs', fs', v0, f0, k, kind)
  {
    var v, f := v0 + 8 * k, f0 + 6 * k;
    assert vs'[v..v + 8] == vs[v..v + 8];
    assert fs'[f..f + 6] == fs[f..f + 6];
  }

  /**
   * `a` whole pieces from (`v0`, `f0`) that fill the lists `vs`, `fs`,
   * followed after the lists grew by `b` whole pieces from their old ends,
   * are `a + b` whole pieces from (`v0`, `f0`).
   */
  lemma PiecesConcat(vs: seq<Vertex>, fs: seq<Face>, vs': seq<Vertex>, fs': seq<Face>,
                     v0: nat, f0: nat, a: nat, b: nat, kind: PieceKind)
    requires vs <= vs' && fs <= fs' && |vs| == v0 + 8 * a && |fs| == f0 + 6 * a
    requires Pieces(vs, fs, v0, f0, a, kind) && Pieces(vs', fs', |vs|, |fs|, b, kind)
    ensures Pieces(vs', fs', v0, f0, a + b, kind)
  {
    forall k: nat | k < a + b
      ensures PieceAt(vs', fs', v0, f0, k, kind)
    {
      if k < a {
        PieceAtPrefix(vs, fs, vs', fs', v0, f0, k, kind);
      } else {
        assert PieceAt(vs', fs', |vs|, |fs|, k - a, kind);
      }
    }
  }

  /** The near and far ends of a parquet board along y, as `wood_parquet` lists them, form a board. */
  lemma NearFarAlongY(near: seq<Vertex>, far: seq<Vertex>, x: real, y: real, w: real, l: real, z: real)
    requires near == [Vertex(x, y, 0.0), Vertex(x, y, z), Vertex(x + w, y, z), Vertex(x + w, y, 0.0)]
    requires far == [Vertex(x, y + l, 0.0), Vertex(x, y + l, z), Vertex(x + w, y + l, z), Vertex(x + w, y + l, 0.0)]
    ensures IsBoard(near + far)
  {
    BoardsAreBoards(x, y, w, l, z);
    assert near + far == BoardAlongY(x, y, w, l, z);
  }

  /** The near and far ends of a parquet board along x, as `wood_parquet` lists them, form a board. */
  lemma NearFarAlongX(near: seq<Vertex>, far: seq<Vertex>, x: real, y: real, w: real, l: real, z: real)
    requires near == [Vertex(x, y + w, 0.0), Vertex(x, y + w, z), Vertex(x, y, z), Vertex(x, y, 0.0)]
    requires far == [Vertex(x + l, y + w, 0.0), Vertex(x + l, y + w, z), Vertex(x + l, y, z), Vertex(x + l, y, 0.0)]
    ensures IsBoard(near + far)
  {
    BoardsAreBoards(x, y, w, l, z);
    assert near + far == BoardAlongX(x, y, w, l, z);
  }

  /** The extent left to a box starting at `start` once it is clipped to `bound`. */
  function ClipExtent(clip: bool, start: real, extent: real, bound: real): real {
    if clip && start + extent > bound then bound - start else extent
  }

  /**
   * The half-width of the range a varied board size is drawn from: `pct`
   * percent of 99% of `base` (`bw * (width_variance / 100) * 0.99` and
   * the same product in the other order for the thickness).
   */
  function Spread(base: real, pct: real): (v: real)
    requires base > 0.0 && 0.0 <= pct <= 100.0
    ensures 0.0 <= v <= 0.99 * base
  {
    MulNonNeg(base * 0.99, pct / 100.0);
    MulNonNeg(base * 0.99, 1.0 - pct / 100.0);
    base * 0.99 * (pct / 100.0)
  }

  /** The half-width of the range of a randomly offset first tile: `tile_length * 0.0049 * offset_variance`. */
  function OffsetSpread(tl: real, pct: real): (v: real)
    requires tl > 0.0 && 0.0 <= pct <= 100.0
    ensures 0.0 <= v <= 0.49 * tl
  {
    MulNonNeg(tl * 0.0049, pct);
    MulNonNeg(tl * 0.0049, 100.0 - pct);
    tl * 0.0049 * pct
  }

  /** `1 / (100 / offset)`: the offset percentage as a fraction in (0, 1]. */
  function OffsetFraction(offset: real): (o: real)
    requires 0.0 < offset <= 100.0
    ensures 0.0 < o <= 1.0
  {
    1.0 / (100.0 / offset)
  }

  /** A tile shortened to the fraction `o` is positive and no longer than the tile. */
  lemma ShortenedTile(tw: real, o: real)
    requires tw > 0.0 && 0.0 < o <= 1.0
    ensures 0.0 < tw * o <= tw
  {
    MulNonNeg(tw, 1.0 - o);
  }

  /** A parquet group is at least one board wide. */
  lemma GroupLength(bw: real, sp: real, big: int)
    requires bw > 0.0 && sp >= 0.0 && big >= 1
    ensures bw * big as real + sp * (big - 1) as real >= bw
  {
    MulNonNeg(bw, (big - 1) as real);
    MulNonNeg(sp, (big - 1) as real);
  }

  /** The vertices of a prism over a reordering of points in a rectangle lie in the rectangle. */
  lemma PrismVerticesWithin(order: seq<seq<real>>, points: seq<seq<real>>, th: real, w: real, l: real)
    requires AllPlanar(order) && multiset(order) == multiset(points)
    requires forall k :: 0 <= k < |points| ==>
               |points[k]| >= 2 && 0.0 <= points[k][0] <= w && 0.0 <= points[k][1] <= l
    ensures forall m :: 0 <= m < |PrismVertices(order, th)| ==>
              0.0 <= PrismVertices(order, th)[m].x <= w && 0.0 <= PrismVertices(order, th)[m].y <= l
  {
    var pv := PrismVertices(order, th);
    forall m | 0 <= m < |pv|
      ensures 0.0 <= pv[m].x <= w && 0.0 <= pv[m].y <= l
    {
      var q := Half(m);
      PermutedMember(order, points, q);
    }
  }

  /** The index of the corner point whose vertex is vertex `m` of a prism. */
  function Half(m: nat): (q: nat)
    ensures m == 2 * q || m == 2 * q + 1
  {
    m / 2
  }

  class ArchipackFloor {
    /** The parameters of the floor; fixed during a generation pass. */
    const cfg: Config
    /** Vertices, faces and material ids, one material id per face. */
    var vs: seq<Vertex>
    var fs: seq<Face>
    var ms: seq<int>

    /** The mesh is well formed: faces name existing vertices, one material id per face. */
    ghost predicate Valid()
      reads this
    {
      && ValidConfig(cfg)
      && |ms| == |fs|
      && forall j :: 0 <= j < |fs| ==> FaceOk(fs[j], |vs|)
    }

    /** No vertex lies beyond the far edges of the floor rectangle. */
    ghost predicate InBounds()
      reads this
    {
      forall i :: 0 <= i < |vs| ==> vs[i].x <= cfg.width && vs[i].y <= cfg.length
    }

    /**
     * The lists only grew since they were `vs0`, `fs0` and `ms0`, and every
     * material id added since is `matId`.
     */
    ghost predicate Extends(vs0: seq<Vertex>, fs0: seq<Face>, ms0: seq<int>, matId: int)
      reads this
    {
      && vs0 <= vs && fs0 <= fs && ms0 <= ms
      && forall i :: |ms0| <= i < |ms| ==> ms[i] == matId
    }

    /**
     * Since the lists held `v0` vertices and `f0` faces, they gained
     * exactly `boxes` whole boxes: eight vertices forming a box and the six
     * cube quads on them, box after box.
     */
    ghost predicate AddedBoxes(v0: nat, f0: nat, boxes: nat)
      reads this
    {
      |vs| == v0 + 8 * boxes && |fs| == f0 + 6 * boxes && Pieces(vs, fs, v0, f0, boxes, Cube)
    }

    /** The same for `wood_parquet` boards: eight vertices forming a board and the six parquet quads on them. */
    ghost predicate AddedBoards(v0: nat, f0: nat, boards: nat)
      reads this
    {
      |vs| == v0 + 8 * boards && |fs| == f0 + 6 * boards && Pieces(vs, fs, v0, f0, boards, Board)
    }

    /** The vertex at index `at`, the first one added since there were `at`, is `v`. */
    ghost predicate FirstVertex(at: nat, v: Vertex)
      reads this
    {
      |vs| > at && vs[at] == v
    }

    constructor (cfg: Config)
      requires ValidConfig(cfg)
      ensures this.cfg == cfg && vs == [] && fs == [] && ms == []
      ensures Valid() && InBounds()
    {
      this.cfg := cfg;
      vs, fs, ms := [], [], [];
    }

    /** `append_all(v_list, add)`: appends the items of `add` one by one. */
    static method AppendAll<T>(vList: seq<T>, add: seq<T>) returns (r: seq<T>)
      ensures r == vList + add
    {
      r := vList;
      for i := 0 to |add|
        invariant r == vList + add[..i]
      {
        assert add[..i + 1] == add[..i] + [add[i]];
        r := r + [add[i]];
      }
      assert add[..|add|] == add;
    }

    /** `add_cube_faces()`: the six quads of the box made of the last eight vertices. */
    method AddCubeFaces()
      modifies this`fs
      ensures fs == old(fs) + CubeFaces(|vs| - 8)
    {
      var p := |vs| - 8;
      fs := AppendAll(fs, CubeFaces(p));
    }

    /** `add_cube_mat_ids(mat_id)`: six copies of `mat_id`. */
    method AddCubeMatIds(matId: int := 0)
      modifies this`ms
      ensures ms == old(ms) + Repeat(matId, 6)
    {
      ms := AppendAll(ms, Repeat(matId, 6));
    }

    /**
     * `add_cube(x, y, z, w, l, t, clip, mat_id)`. With `clip`, a box whose
     * start lies on or beyond a far edge is dropped, and one that
     * overhangs a far edge is shrunk to end on it.
     */
    method AddCube(x: real, y: real, z: real, w: real, l: real, t: real, clip: bool := true, matId: int := 0)
      modifies this
      ensures clip && (x >= cfg.width || y >= cfg.length) ==>
                vs == old(vs) && fs == old(fs) && ms == old(ms)
      ensures !(clip && (x >= cfg.width || y >= cfg.length)) ==>
                && vs == old(vs) + BoxVertices(x, y, z, ClipExtent(clip, x, w, cfg.width), ClipExtent(clip, y, l, cfg.length), t)
                && fs == old(fs) + CubeFaces(|old(vs)|)
                && ms == old(ms) + Repeat(matId, 6)
      ensures clip ==> forall i :: |old(vs)| <= i < |vs| ==> vs[i].x <= cfg.width && vs[i].y <= cfg.length
      ensures old(Valid()) ==> Valid()
      ensures clip && old(InBounds()) ==> InBounds()
      ensures Extends(old(vs), old(fs), old(ms), matId)
    {
      // with clipping, a box that starts on or past a far edge adds nothing
      if clip && (x >= cfg.width || y >= cfg.length) {
        return;
      }
      var w, l := w, l;
      if clip && x + w > cfg.width {
        w := cfg.width - x;
      }
      if clip && y + l > cfg.length {
        l := cfg.length - y;
      }
      vs := AppendAll(vs, BoxVertices(x, y, z, w, l, t));
      AddCubeFaces();
      AddCubeMatIds(matId);
      assert forall j :: |old(fs)| <= j < |fs| ==> fs[j] == CubeFaces(|old(vs)|)[j - |old(fs)|];
    }

    /**
     * `add_cube` as the tile and board patterns call it: clipped to the
     * floor, material id 0. `placed` is 1 when the box starts inside the
     * floor and is added, clipped at the far edges, and 0 when it is
     * dropped. Keeps the mesh well formed and in bounds.
     */
    method PlaceBox(x: real, y: real, z: real, w: real, l: real, t: real) returns (ghost placed: nat)
      requires Valid() && InBounds()
      modifies this
      ensures placed == if x < cfg.width && y < cfg.length then 1 else 0
      ensures placed == 1 ==>
                && vs == old(vs) + BoxVertices(x, y, z, ClipExtent(true, x, w, cfg.width), ClipExtent(true, y, l, cfg.length), t)
                && fs == old(fs) + CubeFaces(|old(vs)|)
                && ms == old(ms) + Repeat(0, 6)
      ensures AddedBoxes(|old(vs)|, |old(fs)|, placed)
      ensures placed == 1 ==> FirstVertex(|old(vs)|, Vertex(x, y, z))
      ensures Valid() && InBounds()
      ensures Extends(old(vs), old(fs), old(ms), 0)
    {
      ghost var v0, f0 := |vs|, |fs|;
      AddCube(x, y, z, w, l, t);
      placed := if x < cfg.width && y < cfg.length then 1 else 0;
      if placed == 1 {
        BoxVerticesIsBox(x, y, z, ClipExtent(true, x, w, cfg.width), ClipExtent(true, y, l, cfg.length), t);
        assert vs[v0..v0 + 8] == BoxVertices(x, y, z, ClipExtent(true, x, w, cfg.width), ClipExtent(true, y, l, cfg.length), t);
        assert fs[f0..f0 + 6] == CubeFaces(v0);
        assert PieceAt(vs, fs, v0, f0, 0, Cube);
      }
    }

    /**
     * `point_in_shape(point, shape)`: inside the quad `shape` by the
     * foreign quad test, and inside the floor rectangle, edges included.
     */
    function PointInShape(point: seq<real>, shape: seq<seq<real>>, geo: MathLib): (r: bool)
      requires |point| >= 2 && |shape| == 4
      ensures r ==> geo.intersectPointQuad2d(point, shape[0], shape[1], shape[2], shape[3]) == 1
      ensures r ==> 0.0 <= point[0] <= cfg.width && 0.0 <= point[1] <= cfg.length
    {
      if geo.intersectPointQuad2d(point, shape[0], shape[1], shape[2], shape[3]) == 1 then
        0.0 <= point[0] <= cfg.width && 0.0 <= point[1] <= cfg.length
      else false
    }

    /** The rounded intersection point of segments `a` and `b`, if the lines meet. */
    ghost function PairPoint(segments: seq<Segment>, geo: MathLib, a: int, b: int): Option<seq<real>>
      requires 0 <= a < |segments| && 0 <= b < |segments|
    {
      match geo.intersectLineLine2d(segments[a].start, segments[a].end, segments[b].start, segments[b].end)
      case None => None
      case Some(v) => Some(RoundTuple([v.x, v.y]))
    }

    /** `pt` is the rounded intersection point of some pair (`a`, `c`) with `c` at or after `b`. */
    ghost predicate MeetsFrom(segments: seq<Segment>, geo: MathLib, pt: seq<real>, a: int, b: int)
      requires 0 <= a < |segments| && 0 <= b <= |segments|
      decreases |segments| - b
    {
      b < |segments| && (PairPoint(segments, geo, a, b) == Some(pt) || MeetsFrom(segments, geo, pt, a, b + 1))
    }

    /** `pt` is the rounded intersection point of some pair (`c`, `d`), `a` <= `c` < `d`. */
    ghost predicate MeetsAfter(segments: seq<Segment>, geo: MathLib, pt: seq<real>, a: nat)
      decreases |segments| - a
    {
      a + 1 < |segments| && (MeetsFrom(segments, geo, pt, a, a + 1) || MeetsAfter(segments, geo, pt, a + 1))
    }

    /**
     * `pt` is the rounded intersection point of some pair of segments,
     * walking the pairs in loop order (`FromSomePairExists` gives the
     * quantified form).
     */
    ghost predicate FromSomePair(segments: seq<Segment>, geo: MathLib, pt: seq<real>) {
      MeetsAfter(segments, geo, pt, 0)
    }

    lemma {:induction false} MeetsFromExists(segments: seq<Segment>, geo: MathLib, pt: seq<real>, a: int, b: int)
      requires 0 <= a < |segments| && 0 <= b <= |segments|
      ensures MeetsFrom(segments, geo, pt, a, b) <==>
                exists c :: b <= c < |segments| && PairPoint(segments, geo, a, c) == Some(pt)
      decreases |segments| - b
    {
      if b < |segments| {
        MeetsFromExists(segments, geo, pt, a, b + 1);
        if PairPoint(segments, geo, a, b) != Some(pt) {
          forall c | b <= c < |segments| && PairPoint(segments, geo, a, c) == Some(pt)
            ensures b + 1 <= c
          {
          }
        }
      }
    }

    lemma {:induction false} MeetsAfterExists(segments: seq<Segment>, geo: MathLib, pt: seq<real>, a: nat)
      ensures MeetsAfter(segments, geo, pt, a) <==>
                exists c, d :: a <= c < d < |segments| && PairPoint(segments, geo, c, d) == Some(pt)
      decreases |segments| - a
    {
      if a + 1 < |segments| {
        MeetsFromExists(segments, geo, pt, a, a + 1);
        MeetsAfterExists(segments, geo, pt, a + 1);
        if MeetsFrom(segments, geo, pt, a, a + 1) {
          var d :| a + 1 <= d < |segments| && PairPoint(segments, geo, a, d) == Some(pt);
          assert a <= a < d < |segments|;
        }
        if exists c, d :: a <= c < d < |segments| && PairPoint(segments, geo, c, d) == Some(pt) {
          var c, d :| a <= c < d < |segments| && PairPoint(segments, geo, c, d) == Some(pt);
          if c == a {
            assert a + 1 <= d < |segments| && PairPoint(segments, geo, a, d) == Some(pt);
          } else {
            assert a + 1 <= c < d < |segments|;
          }
        }
      }
    }

    /** `FromSomePair` holds exactly for the rounded intersection points of pairs of segments. */
    lemma FromSomePairExists(segments: seq<Segment>, geo: MathLib, pt: seq<real>)
      ensures FromSomePair(segments, geo, pt) <==>
                exists a, b :: 0 <= a < b < |segments| && PairPoint(segments, geo, a, b) == Some(pt)
    {
      MeetsAfterExists(segments, geo, pt, 0);
    }

    /** The pair `a`, `b` meets in a point that passes `point_in_shape` against the rounded shape `rShape`. */
    ghost predicate Accepted(segments: seq<Segment>, rShape: seq<seq<real>>, geo: MathLib, a: int, b: int)
      requires 0 <= a < |segments| && 0 <= b < |segments| && |rShape| == 4
    {
      PairPoint(segments, geo, a, b).Some? &&
      PointInShape(PairPoint(segments, geo, a, b).value, rShape, geo)
    }

    /** Every pair of segments that is accepted has its point in `out`. */
    ghost predicate CollectsAccepted(segments: seq<Segment>, rShape: seq<seq<real>>, geo: MathLib, out: seq<seq<real>>)
      requires |rShape| == 4
    {
      forall a, b :: 0 <= a < b < |segments| && Accepted(segments, rShape, geo, a, b) ==>
        PairPoint(segments, geo, a, b).value in out
    }

    /** `pt` is a planar point that passes `point_in_shape` and comes from a pair of segments. */
    ghost predicate GoodCorner(segments: seq<Segment>, rShape: seq<seq<real>>, geo: MathLib, pt: seq<real>)
      requires |rShape| == 4
    {
      |pt| == 2 && PointInShape(pt, rShape, geo) && FromSomePair(segments, geo, pt)
    }

    /** The points of `out` pass `point_in_shape`, come from a pair of segments and are distinct. */
    ghost predicate CornerInvariant(segments: seq<Segment>, rShape: seq<seq<real>>, geo: MathLib, out: seq<seq<real>>)
      requires |rShape| == 4
    {
      && (forall k :: 0 <= k < |out| ==> GoodCorner(segments, rShape, geo, out[k]))
      && Distinct(out)
    }

    /** The points after trying the pair `a`, `b`: its point is appended when accepted and new. */
    ghost function PairStep(segments: seq<Segment>, rShape: seq<seq<real>>, geo: MathLib, out: seq<seq<real>>, a: int, b: int)
      : seq<seq<real>>
      requires 0 <= a < |segments| && 0 <= b < |segments| && |rShape| == 4
    {
      if Accepted(segments, rShape, geo, a, b) && PairPoint(segments, geo, a, b).value !in out then
        out + [PairPoint(segments, geo, a, b).value]
      else
        out
    }

    /** The points after trying the pairs (`a`, `b`), (`a`, `b` + 1), ... up to the last segment. */
    ghost function PairsFrom(segments: seq<Segment>, rShape: seq<seq<real>>, geo: MathLib, out: seq<seq<real>>, a: int, b: int)
      : seq<seq<real>>
      requires 0 <= a < |segments| && 0 <= b <= |segments| && |rShape| == 4
      decreases |segments| - b
    {
      if b == |segments| then out else PairsFrom(segments, rShape, geo, PairStep(segments, rShape, geo, out, a, b), a, b + 1)
    }

    /**
     * The points after trying every pair whose first segment is `a` or
     * later, in the order of the two nested loops of
     * `get_corner_points_from_boundaries`.
     */
    ghost function PairsAfter(segments: seq<Segment>, rShape: seq<seq<real>>, geo: MathLib, out: seq<seq<real>>, a: nat)
      : seq<seq<real>>
      requires |rShape| == 4
      decreases |segments| - a
    {
      if a + 1 >= |segments| then out
      else PairsAfter(segments, rShape, geo, PairsFrom(segments, rShape, geo, out, a, a + 1), a + 1)
    }

    /** Trying one pair keeps the points checked, sourced and distinct. */
    lemma PairStepKeeps(segments: seq<Segment>, rShape: seq<seq<real>>, geo: MathLib, out: seq<seq<real>>, a: int, b: int)
      requires 0 <= a < b < |segments| && |rShape| == 4
      requires CornerInvariant(segments, rShape, geo, out)
      ensures CornerInvariant(segments, rShape, geo, PairStep(segments, rShape, geo, out, a, b))
    {
      if Accepted(segments, rShape, geo, a, b) && PairPoint(segments, geo, a, b).value !in out {
        var pt := PairPoint(segments, geo, a, b).value;
        FromSomePairExists(segments, geo, pt);
        DistinctAppend(out, pt);
        assert |pt| == 2;
      }
    }

    /** One pass of the inner loop: the pairs from (`a`, `b`) on are (`a`, `b`) and then those from (`a`, `b` + 1) on. */
    lemma PairsFromUnfold(segments: seq<Segment>, rShape: seq<seq<real>>, geo: MathLib, out: seq<seq<real>>, a: int, b: int)
      requires 0 <= a < b < |segments| && |rShape| == 4
      ensures PairsFrom(segments, rShape, geo, out, a, b)
              == PairsFrom(segments, rShape, geo, PairStep(segments, rShape, geo, out, a, b), a, b + 1)
    {
    }

    /** Trying the pairs (`a`, `b`), (`a`, `b` + 1), ... keeps the points checked, sourced and distinct. */
    lemma {:induction false} PairsFromKeeps(segments: seq<Segment>, rShape: seq<seq<real>>, geo: MathLib, out: seq<seq<real>>, a: int, b: int)
      requires 0 <= a < b <= |segments| && |rShape| == 4
      requires CornerInvariant(segments, rShape, geo, out)
      ensures CornerInvariant(segments, rShape, geo, PairsFrom(segments, rShape, geo, out, a, b))
      decreases |segments| - b
    {
      if b < |segments| {
        PairStepKeeps(segments, rShape, geo, out, a, b);
        PairsFromKeeps(segments, rShape, geo, PairStep(segments, rShape, geo, out, a, b), a, b + 1);
      }
    }

    /** Trying the pairs (`a`, `b`), (`a`, `b` + 1), ... only appends to the points. */
    lemma {:induction false} PairsFromExtends(segments: seq<Segment>, rShape: seq<seq<real>>, geo: MathLib, out: seq<seq<real>>, a: int, b: int)
      requires 0 <= a < |segments| && 0 <= b <= |segments| && |rShape| == 4
      ensures out <= PairsFrom(segments, rShape, geo, out, a, b)
      decreases |segments| - b
    {
      if b < |segments| {
        PairsFromExtends(segments, rShape, geo, PairStep(segments, rShape, geo, out, a, b), a, b + 1);
      }
    }

    /** Trying the pairs (`a`, `b`), (`a`, `b` + 1), ... collects the point of every accepted one. */
    lemma {:induction false} PairsFromCollects(segments: seq<Segment>, rShape: seq<seq<real>>, geo: MathLib, out: seq<seq<real>>, a: int, b: int)
      requires 0 <= a < |segments| && 0 <= b <= |segments| && |rShape| == 4
      ensures forall c :: b <= c < |segments| && Accepted(segments, rShape, geo, a, c) ==>
                PairPoint(segments, geo, a, c).value in PairsFrom(segments, rShape, geo, out, a, b)
      decreases |segments| - b
    {
      if b < |segments| {
        var next := PairStep(segments, rShape, geo, out, a, b);
        PairsFromCollects(segments, rShape, geo, next, a, b + 1);
        PairsFromExtends(segments, rShape, geo, next, a, b + 1);
        if Accepted(segments, rShape, geo, a, b) {
          assert PairPoint(segments, geo, a, b).value in next;
        }
      }
    }

    /** Trying every pair whose first segment is `a` or later only appends to the points. */
    lemma {:induction false} PairsAfterExtends(segments: seq<Segment>, rShape: seq<seq<real>>, geo: MathLib, out: seq<seq<real>>, a: nat)
      requires |rShape| == 4
      ensures out <= PairsAfter(segments, rShape, geo, out, a)
      decreases |segments| - a
    {
      if a + 1 < |segments| {
        var row := PairsFrom(segments, rShape, geo, out, a, a + 1);
        PairsFromExtends(segments, rShape, geo, out, a, a + 1);
        PairsAfterExtends(segments, rShape, geo, row, a + 1);
      }
    }

    /** Trying every pair whose first segment is `a` or later collects the point of every accepted pair. */
    lemma {:induction false} PairsAfterCollects(segments: seq<Segment>, rShape: seq<seq<real>>, geo: MathLib, out: seq<seq<real>>, a: nat)
      requires |rShape| == 4
      ensures forall c, d :: a <= c < d < |segments| && Accepted(segments, rShape, geo, c, d) ==>
                PairPoint(segments, geo, c, d).value in PairsAfter(segments, rShape, geo, out, a)
      decreases |segments| - a
    {
      if a + 1 < |segments| {
        var row := PairsFrom(segments, rShape, geo, out, a, a + 1);
        var all := PairsAfter(segments, rShape, geo, row, a + 1);
        assert all == PairsAfter(segments, rShape, geo, out, a);
        PairsFromCollects(segments, rShape, geo, out, a, a + 1);
        PairsAfterCollects(segments, rShape, geo, row, a + 1);
        PairsAfterExtends(segments, rShape, geo, row, a + 1);
        forall d | a < d < |segments| && Accepted(segments, rShape, geo, a, d)
          ensures PairPoint(segments, geo, a, d).value in all
        {
          var pt := PairPoint(segments, geo, a, d).value;
          var k :| 0 <= k < |row| && row[k] == pt;
          assert all[k] == pt;
        }
      }
    }

    /**
     * The body of the double loop of `corner_points_from_boundaries`: the
     * rounded intersection of segments `i` and `j` is appended to `out`
     * exactly when the lines meet, the point is not in `out` yet and it
     * passes `point_in_shape`; otherwise `out` is returned as it was.
     */
    method AddPairPoint(segments: seq<Segment>, rShape: seq<seq<real>>, geo: MathLib,
                        out: seq<seq<real>>, i: int, j: int)
      returns (out': seq<seq<real>>)
      requires 0 <= i < j < |segments| && |rShape| == 4
      ensures out' == PairStep(segments, rShape, geo, out, i, j)
    {
      out' := out;
      var point := geo.intersectLineLine2d(segments[i].start, segments[i].end, segments[j].start, segments[j].end);
      if point.Some? {
        var rPoint := RoundTuple([point.value.x, point.value.y]);
        assert PairPoint(segments, geo, i, j) == Some(rPoint);
        if rPoint !in out && PointInShape(rPoint, rShape, geo) {
          out' := out + [rPoint];
        }
      }
    }

    /**
     * The inner loop of `corner_points_from_boundaries`: tries the pairs
     * (`i`, `i` + 1), (`i`, `i` + 2), ... in turn.
     */
    method AddSegmentPoints(segments: seq<Segment>, rShape: seq<seq<real>>, geo: MathLib, out: seq<seq<real>>, i: int)
      returns (out': seq<seq<real>>)
      requires 0 <= i < |segments| && |rShape| == 4
      ensures out' == PairsFrom(segments, rShape, geo, out, i, i + 1)
    {
      out' := out;
      var j := i + 1;
      while j < |segments|
        invariant i + 1 <= j <= |segments|
        invariant PairsFrom(segments, rShape, geo, out', i, j) == PairsFrom(segments, rShape, geo, out, i, i + 1)
      {
        PairsFromUnfold(segments, rShape, geo, out', i, j);
        out' := AddPairPoint(segments, rShape, geo, out', i, j);
        j := j + 1;
      }
    }

    /**
     * `corner_points_from_boundaries(segments, shape)`: the distinct
     * rounded intersection points of the pairs of segments that lie in
     * the rounded shape and in the floor, in the order they are found.
     */
    method CornerPointsFromBoundaries(segments: seq<Segment>, shape: seq<seq<real>>, geo: MathLib)
      returns (out: seq<seq<real>>)
      requires |shape| == 4
      ensures out == PairsAfter(segments, RoundTwoDList(shape), geo, [], 0)
      ensures CornerInvariant(segments, RoundTwoDList(shape), geo, out)
      ensures CollectsAccepted(segments, RoundTwoDList(shape), geo, out)
      ensures forall k :: 0 <= k < |out| ==>
                |out[k]| == 2 && 0.0 <= out[k][0] <= cfg.width && 0.0 <= out[k][1] <= cfg.length
    {
      out := [];
      var rShape := RoundTwoDList(shape);
      ghost var all := PairsAfter(segments, rShape, geo, [], 0);
      var i := 0;
      while i < |segments| - 1
        invariant 0 <= i && (|segments| > 0 ==> i <= |segments| - 1)
        invariant PairsAfter(segments, rShape, geo, out, i) == all
        invariant CornerInvariant(segments, rShape, geo, out)
      {
        PairsFromKeeps(segments, rShape, geo, out, i, i + 1);
        out := AddSegmentPoints(segments, rShape, geo, out, i);
        i := i + 1;
      }
      PairsAfterCollects(segments, rShape, geo, [], 0);
      forall k | 0 <= k < |out|
        ensures |out[k]| == 2 && 0.0 <= out[k][0] <= cfg.width && 0.0 <= out[k][1] <= cfg.length
      {
        assert GoodCorner(segments, rShape, geo, out[k]);
      }
    }

    /** The first loop of `add_shape_from_corner_points`: two vertices per corner point. */
    method AddPrismVertices(pts: seq<seq<real>>, th: real)
      requires AllPlanar(pts)
      modifies this`vs
      ensures vs == old(vs) + PrismVertices(pts, th)
    {
      for k := 0 to |pts|
        invariant vs == old(vs) + PrismVertices(pts[..k], th)
      {
        assert pts[..k + 1] == pts[..k] + [pts[k]];
        PrismVerticesAppend(pts[..k], [pts[k]], th);
        assert PrismVertices([pts[k]], th) ==
               [Vertex(pts[k][0], pts[k][1], 0.0), Vertex(pts[k][0], pts[k][1], th)] + PrismVertices([], th);
        vs := vs + [Vertex(pts[k][0], pts[k][1], 0.0)];
        vs := vs + [Vertex(pts[k][0], pts[k][1], th)];
      }
      assert pts[..|pts|] == pts;
    }

    /**
     * The face part of `add_shape_from_corner_points` for `n` points whose
     * vertices start at `p`: the side quads, the closing quad, the
     * reversed `top_face` and the `bottom_face`.
     */
    method AddPrismFaces(p: int, n: nat)
      modifies this`fs
      ensures fs == old(fs) + PrismFaces(p, n)
    {
      var startP := p;
      var topFace, bottomFace := AddSideQuads(p, n);
      var p := LastBase(startP, n);
      // the last point's two vertices end both runs
      topFace := topFace + [p];
      bottomFace := bottomFace + [p + 1];
      PrismAssembly(old(fs), startP, n);
      ghost var sides := fs;
      ghost var closing := [p, startP, startP + 1, p + 1];

      // the quad from the last point back to the first
      fs := fs + [[p, startP, startP + 1, p + 1]];
      topFace := Reverse(topFace);  // reversed so the bottom cap faces down
      fs := fs + [topFace];
      fs := fs + [bottomFace];
      assert fs == sides + [closing] + [Reverse(BaseRun(startP, n))] + [TopRun(startP, n)];
    }

    /**
     * The loop of `add_shape_from_corner_points` over the corner points
     * but the last: one side quad per pair of consecutive points, and the
     * two index runs so far, each still missing its last index.
     */
    method AddSideQuads(p: int, n: nat) returns (topFace: seq<int>, bottomFace: seq<int>)
      modifies this`fs
      ensures fs == old(fs) + SideQuads(p, n)
      ensures topFace + [LastBase(p, n)] == BaseRun(p, n)
      ensures bottomFace + [LastBase(p, n) + 1] == TopRun(p, n)
    {
      var p := p;
      var startP := p;
      topFace, bottomFace := [], [];
      var i := 0;
      while i < n - 1
        invariant 0 <= i <= if n == 0 then 0 else n - 1
        invariant p == startP + 2 * i
        invariant fs == old(fs) + SideQuads(startP, i + 1)
        invariant topFace == Run(startP, i) && bottomFace == Run(startP + 1, i)
      {
        SideQuadsStep(old(fs), startP, i + 1);
        fs := fs + [[p, p + 2, p + 3, p + 1]];
        topFace := topFace + [p];
        bottomFace := bottomFace + [p + 1];
        p := p + 2;
        i := i + 1;
      }
      if n == 0 {
        assert SideQuads(startP, 1) == SideQuads(startP, 0);
      }
      ghost var k := if n == 0 then 1 else n;
      assert i + 1 == k && p == LastBase(startP, n);
      assert Run(startP, k) == topFace + [p] && Run(startP + 1, k) == bottomFace + [p + 1];
    }

    /** The side quads followed by the closing quad and the two caps, one at a time, are the prism's faces. */
    static lemma PrismAssembly(fs0: seq<Face>, p: int, n: nat)
      ensures fs0 + SideQuads(p, n) + [[LastBase(p, n), p, p + 1, LastBase(p, n) + 1]]
                + [Reverse(BaseRun(p, n))] + [TopRun(p, n)]
              == fs0 + PrismFaces(p, n)
    {
    }

    /** One more corner point adds one side quad. */
    static lemma SideQuadsStep(fs0: seq<Face>, p: int, k: nat)
      requires k >= 1
      ensures fs0 + SideQuads(p, k) + [[p + 2 * (k - 1), p + 2 * k, p + 2 * k + 1, p + 2 * (k - 1) + 1]]
              == fs0 + SideQuads(p, k + 1)
    {
    }

    /**
     * `add_shape_from_corner_points(points, th, mat_id)` as written: sorts
     * the points, then appends a vertex at height 0 and one at height `th`
     * per point, the side quads, the closing quad and the two caps. It
     * appends no material ids. `order` is the sorted list of points. The
     * `ZeroDivisionError` of the sort leaves the lists unchanged.
     */
    method AddShapeFromCornerPoints(points: seq<seq<real>>, th: real, geo: MathLib, matId: int := 0)
      returns (ok: bool, ghost order: seq<seq<real>>)
      requires AllPlanar(points)
      modifies this
      ensures ok <==> forall k :: 0 <= k < |points| ==> points[k][0] != Centroid(points).x
      ensures !ok ==> vs == old(vs) && fs == old(fs) && ms == old(ms)
      ensures ok ==> multiset(order) == multiset(points) && AllPlanar(order)
      ensures ok ==> SortedByAngle(order, Centroid(points), geo.atan)
      ensures ok ==> vs == old(vs) + PrismVertices(order, th)
      ensures ok ==> fs == old(fs) + PrismFaces(|old(vs)|, |points|)
      ensures ms == old(ms)
    {
      var sorted := SortCornerPoints(points, geo.atan);
      if sorted.Err? {
        return false, points;
      }
      ok := true;
      var pts := sorted.value;
      order := pts;
      assert |pts| == |points| by {
        assert |multiset(pts)| == |multiset(points)|;
      }
      var p := |vs|;
      AddPrismVertices(pts, th);
      AddPrismFaces(p, |pts|);
    }

    /** Every point lies in the floor rectangle, edges included. */
    ghost predicate WithinFloor(points: seq<seq<real>>) {
      forall k :: 0 <= k < |points| ==>
        |points[k]| >= 2 && 0.0 <= points[k][0] <= cfg.width && 0.0 <= points[k][1] <= cfg.length
    }

    /**
     * `add_shape_from_corner_points` as evidently intended: fewer than
     * three corner points make no board, and every face the prism adds
     * gets the material id `mat_id`.
     */
    method AddShapeFromCornerPointsChecked(points: seq<seq<real>>, th: real, geo: MathLib, matId: int := 0)
      returns (ok: bool, ghost order: seq<seq<real>>)
      requires AllPlanar(points)
      modifies this
      ensures |points| < 3 ==> ok
      ensures |points| >= 3 ==> (ok <==> forall k :: 0 <= k < |points| ==> points[k][0] != Centroid(points).x)
      ensures !ok || |points| < 3 ==> vs == old(vs) && fs == old(fs) && ms == old(ms)
      ensures ok && |points| >= 3 ==>
                && multiset(order) == multiset(points) && AllPlanar(order)
                && SortedByAngle(order, Centroid(points), geo.atan)
                && vs == old(vs) + PrismVertices(order, th)
                && fs == old(fs) + PrismFaces(|old(vs)|, |points|)
                && ms == old(ms) + Repeat(matId, |points| + 2)
      ensures old(Valid()) ==> Valid()
      ensures WithinFloor(points) ==> forall i :: |old(vs)| <= i < |vs| ==>
                0.0 <= vs[i].x <= cfg.width && 0.0 <= vs[i].y <= cfg.length
      ensures Extends(old(vs), old(fs), old(ms), matId)
    {
      if |points| < 3 {
        return true, points;
      }
      ok, order := AddShapeFromCornerPoints(points, th, geo, matId);
      if !ok {
        return;
      }
      ms := AppendAll(ms, Repeat(matId, |points| + 2));
      assert |order| == |points| by {
        assert |multiset(order)| == |multiset(points)|;
      }
      PrismFacesOk(|old(vs)|, |points|, |vs|);
      assert forall j :: |old(fs)| <= j < |fs| ==> fs[j] == PrismFaces(|old(vs)|, |points|)[j - |old(fs)|];
      if WithinFloor(points) {
        PrismVerticesWithin(order, points, th, cfg.width, cfg.length);
      }
    }

    /**
     * `create_board_from_boundaries(segments, shape, th, mat_id)`: the
     * prism over the corner points of the boundaries. With `corrected`
     * false it is built by `add_shape_from_corner_points` as written, with
     * `corrected` true by the corrected builder. `corners` are the corner
     * points found and `order` is their sorted order.
     */
    method CreateBoardFromBoundaries(segments: seq<Segment>, shape: seq<seq<real>>, th: real, geo: MathLib,
                                     matId: int := 0, corrected: bool := false)
      returns (ok: bool, corners: seq<seq<real>>, ghost order: seq<seq<real>>)
      requires |shape| == 4
      modifies this
      ensures AllPlanar(corners) && WithinFloor(corners)
      ensures corners == PairsAfter(segments, RoundTwoDList(shape), geo, [], 0)
      ensures CornerInvariant(segments, RoundTwoDList(shape), geo, corners)
      ensures CollectsAccepted(segments, RoundTwoDList(shape), geo, corners)
      ensures !ok ==> vs == old(vs) && fs == old(fs) && ms == old(ms)
      ensures corrected && |corners| < 3 ==> ok && vs == old(vs) && fs == old(fs) && ms == old(ms)
      ensures !corrected || |corners| >= 3 ==>
                (ok <==> forall k :: 0 <= k < |corners| ==> corners[k][0] != Centroid(corners).x)
      ensures ok && (!corrected || |corners| >= 3) ==>
                && multiset(order) == multiset(corners) && AllPlanar(order)
                && SortedByAngle(order, Centroid(corners), geo.atan)
                && vs == old(vs) + PrismVertices(order, th)
                && fs == old(fs) + PrismFaces(|old(vs)|, |corners|)
      ensures !corrected ==> ms == old(ms)
      ensures corrected && ok && |corners| >= 3 ==> ms == old(ms) + Repeat(matId, |corners| + 2)
      ensures corrected && old(Valid()) ==> Valid()
      ensures forall i :: |old(vs)| <= i < |vs| ==> 0.0 <= vs[i].x <= cfg.width && 0.0 <= vs[i].y <= cfg.length
      ensures old(InBounds()) ==> InBounds()
      ensures Extends(old(vs), old(fs), old(ms), matId)
    {
      corners := CornerPointsFromBoundaries(segments, shape, geo);
      if corrected {
        ok, order := AddShapeFromCornerPointsChecked(corners, th, geo, matId);
      } else {
        ok, order := AddShapeFromCornerPoints(corners, th, geo, matId);
        if ok {
          PrismVerticesWithin(order, corners, th, cfg.width, cfg.length);
        }
      }
    }

    /** `tile_grout()`: one slab over the whole floor, under the tiles, with material id 1. */
    method TileGrout()
      requires Valid()
      modifies this
      ensures vs == old(vs) + BoxVertices(0.0, 0.0, 0.0, cfg.width, cfg.length, cfg.thickness - cfg.mortarDepth)
      ensures fs == old(fs) + CubeFaces(|old(vs)|)
      ensures ms == old(ms) + Repeat(1, 6)
      ensures Valid()
      ensures old(InBounds()) ==> InBounds()
    {
      var z := cfg.thickness - cfg.mortarDepth;
      var x := cfg.width;
      var y := cfg.length;
      AddCube(0.0, 0.0, 0.0, x, y, z, matId := 1);
    }

    /**
     * One turn of `tile_windmill` at (`curX`, `curY`): four half tiles
     * around a small square one. Returns the number of tiles added; a unit
     * that starts inside the floor has at least one, the first at its start.
     */
    method WindmillUnit(curX: real, curY: real) returns (ghost boxes: nat)
      requires Valid() && InBounds()
      modifies this
      ensures Valid() && InBounds()
      ensures Extends(old(vs), old(fs), old(ms), 0)
      ensures AddedBoxes(|old(vs)|, |old(fs)|, boxes)
      ensures curX < cfg.width && curY < cfg.length ==> boxes >= 1 && FirstVertex(|old(vs)|, Vertex(curX, curY, 0.0))
    {
      var th := cfg.thickness;
      var sp := cfg.spacing;
      var tw := cfg.tileWidth;
      var tl := cfg.tileLength;
      var sTw := (tw - sp) / 2.0;
      var sTl := (tl - sp) / 2.0;
      boxes := PlaceBox(curX, curY, 0.0, tw, sTl, th);  // lower half tile
      ghost var placed;
      ghost var vsBefore, fsBefore := vs, fs;
      placed := PlaceBox(curX + tw + sp, curY, 0.0, sTw, tl, th);  // right half tile
      PiecesConcat(vsBefore, fsBefore, vs, fs, |old(vs)|, |old(fs)|, boxes, placed, Cube);
      boxes := boxes + placed;
      vsBefore, fsBefore := vs, fs;
      placed := WindmillUpper(curX, curY);
      PiecesConcat(vsBefore, fsBefore, vs, fs, |old(vs)|, |old(fs)|, boxes, placed, Cube);
      boxes := boxes + placed;
    }

    /** The last three tiles of a windmill unit at (`curX`, `curY`): the upper and left half tiles and the square. */
    method WindmillUpper(curX: real, curY: real) returns (ghost boxes: nat)
      requires Valid() && InBounds()
      modifies this
      ensures Valid() && InBounds()
      ensures Extends(old(vs), old(fs), old(ms), 0)
      ensures AddedBoxes(|old(vs)|, |old(fs)|, boxes)
    {
      var th := cfg.thickness;
      var sp := cfg.spacing;
      var tw := cfg.tileWidth;
      var tl := cfg.tileLength;
      var sTw := (tw - sp) / 2.0;
      var sTl := (tl - sp) / 2.0;
      boxes := PlaceBox(curX + sTw + sp, curY + tl + sp, 0.0, tw, sTl, th);  // upper half tile
      ghost var placed;
      ghost var vsBefore, fsBefore := vs, fs;
      placed := PlaceBox(curX, curY + sTl + sp, 0.0, sTw, tl, th);  // left half tile
      PiecesConcat(vsBefore, fsBefore, vs, fs, |old(vs)|, |old(fs)|, boxes, placed, Cube);
      boxes := boxes + placed;
      vsBefore, fsBefore := vs, fs;
      placed := PlaceBox(curX + sTw + sp, curY + sTl + sp, 0.0, sTw, sTl, th);  // small square in the middle
      PiecesConcat(vsBefore, fsBefore, vs, fs, |old(vs)|, |old(fs)|, boxes, placed, Cube);
      boxes := boxes + placed;
    }

    /**
     * `tile_windmill()`: four half tiles turning around a small square one,
     * repeated. Adds `boxes` whole tiles, at least one, the first at the
     * origin.
     */
    method TileWindmill() returns (ghost boxes: nat)
      requires Valid() && InBounds()
      modifies this
      ensures Valid() && InBounds()
      ensures Extends(old(vs), old(fs), old(ms), 0)
      ensures AddedBoxes(|old(vs)|, |old(fs)|, boxes) && boxes >= 1
      ensures FirstVertex(|old(vs)|, Vertex(0.0, 0.0, 0.0))
    {
      boxes := 0;
      var sp := cfg.spacing;
      var tw := cfg.tileWidth;
      var tl := cfg.tileLength;
      var sTw := (tw - sp) / 2.0;
      var sTl := (tl - sp) / 2.0;

      var curY := 0.0;
      while curY < cfg.length
        invariant Valid() && InBounds()
        invariant Extends(old(vs), old(fs), old(ms), 0)
        invariant AddedBoxes(|old(vs)|, |old(fs)|, boxes)
        invariant boxes == 0 ==> curY == 0.0
        invariant boxes > 0 ==> FirstVertex(|old(vs)|, Vertex(0.0, 0.0, 0.0))
        decreases Steps(cfg.length - curY, tl)
      {
        var curX := 0.0;
        while curX < cfg.width
          invariant Valid() && InBounds()
          invariant Extends(old(vs), old(fs), old(ms), 0)
          invariant AddedBoxes(|old(vs)|, |old(fs)|, boxes)
          invariant boxes == 0 ==> curX == 0.0 && curY == 0.0
          invariant boxes > 0 ==> FirstVertex(|old(vs)|, Vertex(0.0, 0.0, 0.0))
          decreases Steps(cfg.width - curX, tw)
        {
          ghost var vsBefore, fsBefore := vs, fs;
          var unit := WindmillUnit(curX, curY);
          PiecesConcat(vsBefore, fsBefore, vs, fs, |old(vs)|, |old(fs)|, boxes, unit, Cube);
          boxes := boxes + unit;
          StepsDecrease(cfg.width - curX, cfg.width - (curX + tw + sTw + 2.0 * sp), tw);
          curX := curX + tw + sTw + (2.0 * sp);
        }
        StepsDecrease(cfg.length - curY, cfg.length - (curY + tl + sTl + 2.0 * sp), tl);
        curY := curY + tl + sTl + (2.0 * sp);
      }
    }
  
    /**
     * `tile_regular()`: rows of tiles; every other row may start with a
     * shortened tile. Adds `boxes` whole tiles, at least one, the first at
     * the origin.
     */
    method TileRegular(rand: RandomSource) returns (ghost boxes: nat)
      requires Valid() && InBounds() && UnitDraws(rand)
      modifies this
      ensures Valid() && InBounds()
      ensures Extends(old(vs), old(fs), old(ms), 0)
      ensures AddedBoxes(|old(vs)|, |old(fs)|, boxes) && boxes >= 1
      ensures FirstVertex(|old(vs)|, Vertex(0.0, 0.0, 0.0))
    {
      boxes := 0;
      var draw: nat := 0;
      var off := false;
      var o := OffsetFraction(cfg.offset);
      var curY := 0.0;
      var z := cfg.thickness;

      while curY < cfg.length
        invariant Valid() && InBounds()
        invariant Extends(old(vs), old(fs), old(ms), 0)
        invariant AddedBoxes(|old(vs)|, |old(fs)|, boxes)
        invariant boxes == 0 ==> curY == 0.0
        invariant boxes > 0 ==> FirstVertex(|old(vs)|, Vertex(0.0, 0.0, 0.0))
        decreases Steps(cfg.length - curY, cfg.tileLength)
      {
        var tl2 := cfg.tileLength;
        if curY < cfg.length < curY + cfg.tileLength {
          tl2 := cfg.length - curY;
        }
        ghost var rowBoxes: nat;
        ghost var vsBefore, fsBefore := vs, fs;
        draw, rowBoxes := TileRegularRow(curY, tl2, z, off, o, rand, draw);
        PiecesConcat(vsBefore, fsBefore, vs, fs, |old(vs)|, |old(fs)|, boxes, rowBoxes, Cube);
        boxes := boxes + rowBoxes;

        StepsDecrease(cfg.length - curY, cfg.length - (curY + tl2 + cfg.spacing), cfg.tileLength);
        curY := curY + tl2 + cfg.spacing;
        off := !off;
      }
    }

    /**
     * The width of the tile at `curX` in a `tile_regular` row, and whether
     * it used up the draw `u`: cut at the far edge when it overhangs it;
     * otherwise, at the start of the row, the `shortened` width (the tile
     * width times the offset fraction) on offset rows or drawn around half
     * a tile length with random offsets; otherwise a whole tile. Only a cut
     * tile is narrower than the least of the shortened tile and a
     * hundredth of a tile length.
     */
    function RowTileWidth(curX: real, off: bool, shortened: real, u: real): (r: (real, bool))
      requires ValidConfig(cfg) && 0.0 < shortened <= cfg.tileWidth && 0.0 <= u < 1.0
      ensures curX < cfg.width < curX + cfg.tileWidth ==> r.0 == cfg.width - curX && !r.1
      ensures !(curX < cfg.width < curX + cfg.tileWidth) ==> r.0 >= Min(shortened, cfg.tileLength / 100.0)
      ensures r.1 <==> !(curX < cfg.width < curX + cfg.tileWidth) && curX == 0.0 && cfg.offsetTiles && cfg.randomOffset
    {
      if curX < cfg.width < curX + cfg.tileWidth then
        (cfg.width - curX, false)
      else if curX == 0.0 && off && cfg.offsetTiles && !cfg.randomOffset then
        (shortened, false)
      else if curX == 0.0 && cfg.offsetTiles && cfg.randomOffset then
        var v := OffsetSpread(cfg.tileLength, cfg.offsetVariance);
        var lo := (cfg.tileLength / 2.0) - v;
        assert lo >= cfg.tileLength / 100.0;
        (Uniform(lo, (cfg.tileLength / 2.0) + v, u), true)
      else
        (cfg.tileWidth, false)
    }

    /**
     * The inner loop of `tile_regular`: one row of tiles of length `tl2`
     * at `curY`, its first tile shortened to the fraction `o` on offset
     * rows, or to a random length with random offsets. Returns the next
     * unused draw and the number of tiles added; a row inside the floor
     * has at least one, the first at its start.
     */
    method TileRegularRow(curY: real, tl2: real, z: real, off: bool, o: real, rand: RandomSource, draw: nat)
      returns (draw': nat, ghost boxes: nat)
      requires Valid() && InBounds() && UnitDraws(rand)
      requires 0.0 < o <= 1.0
      modifies this
      ensures Valid() && InBounds()
      ensures Extends(old(vs), old(fs), old(ms), 0)
      ensures draw' >= draw
      ensures AddedBoxes(|old(vs)|, |old(fs)|, boxes)
      ensures curY < cfg.length ==> boxes >= 1 && FirstVertex(|old(vs)|, Vertex(0.0, curY, 0.0))
    {
      draw', boxes := draw, 0;
      ShortenedTile(cfg.tileWidth, o);
      // the least advance of the cursor, the clipped last tile aside
      ghost var dx := Min(cfg.tileWidth * o, cfg.tileLength / 100.0);
      var curX := 0.0;
      while curX < cfg.width
        invariant Valid() && InBounds()
        invariant Extends(old(vs), old(fs), old(ms), 0)
        invariant draw' >= draw
        invariant AddedBoxes(|old(vs)|, |old(fs)|, boxes)
        invariant curY < cfg.length && boxes == 0 ==> curX == 0.0
        invariant boxes > 0 ==> FirstVertex(|old(vs)|, Vertex(0.0, curY, 0.0))
        decreases Steps(cfg.width - curX, dx)
      {
        var curX': real;
        ghost var placed: nat;
        ghost var vsBefore, fsBefore := vs, fs;
        curX', draw', placed := RowTile(curX, curY, tl2, z, off, o, rand, draw');
        PiecesConcat(vsBefore, fsBefore, vs, fs, |old(vs)|, |old(fs)|, boxes, placed, Cube);
        boxes := boxes + placed;
        StepsDecrease(cfg.width - curX, cfg.width - curX', dx);
        curX := curX';
      }
    }

    /**
     * One pass of the inner loop of `tile_regular`: the tile at `curX`,
     * `RowTileWidth` wide, then the cursor moved past it and the gap.
     * The cursor moves by at least the least tile width unless it leaves
     * the floor.
     */
    method RowTile(curX: real, curY: real, tl2: real, z: real, off: bool, o: real, rand: RandomSource, draw: nat)
      returns (curX': real, draw': nat, ghost placed: nat)
      requires Valid() && InBounds() && UnitDraws(rand)
      requires 0.0 < o <= 1.0 && curX < cfg.width
      modifies this
      ensures Valid() && InBounds()
      ensures Extends(old(vs), old(fs), old(ms), 0)
      ensures AddedBoxes(|old(vs)|, |old(fs)|, placed)
      ensures placed == if curY < cfg.length then 1 else 0
      ensures placed == 1 ==> FirstVertex(|old(vs)|, Vertex(curX, curY, 0.0))
      ensures curX' >= cfg.width || curX' >= curX + Min(cfg.tileWidth * o, cfg.tileLength / 100.0)
      ensures (ShortenedTile(cfg.tileWidth, o);
               var tile := RowTileWidth(curX, off, cfg.tileWidth * o, rand(draw));
               && curX' == curX + tile.0 + cfg.spacing
               && draw' == (if tile.1 then draw + 1 else draw)
               && (placed == 1 ==>
                     && vs == old(vs) + BoxVertices(curX, curY, 0.0, ClipExtent(true, curX, tile.0, cfg.width),
                                                    ClipExtent(true, curY, tl2, cfg.length), z)
                     && fs == old(fs) + CubeFaces(|old(vs)|))
               && (placed == 0 ==> vs == old(vs) && fs == old(fs) && ms == old(ms)))
    {
      ShortenedTile(cfg.tileWidth, o);
      var (tw2, drew) := RowTileWidth(curX, off, cfg.tileWidth * o, rand(draw));
      draw' := if drew then draw + 1 else draw;
      placed := PlaceBox(curX, curY, 0.0, tw2, tl2, z);
      curX' := curX + tw2 + cfg.spacing;
    }

    /**
     * `tile_hopscotch()`: large tiles with a small one at their top right,
     * every other one stepped down, in a cycle of three kinds of row.
     * Adds `boxes` whole tiles, at least one, the first at the origin.
     */
    method TileHopscotch() returns (ghost boxes: nat)
      requires Valid() && InBounds()
      modifies this
      ensures Valid() && InBounds()
      ensures Extends(old(vs), old(fs), old(ms), 0)
      ensures AddedBoxes(|old(vs)|, |old(fs)|, boxes) && boxes >= 1
      ensures FirstVertex(|old(vs)|, Vertex(0.0, 0.0, 0.0))
    {
      boxes := 0;
      var curY := 0.0;
      var sp := cfg.spacing;

      var row := 0;

      var tl := cfg.tileLength;
      var sTl := (tl - sp) / 2.0;  // half a long tile, less one gap

      var preY := curY;
      while curY < cfg.length || (row == 2 && curY - sTl - sp < cfg.length)
        invariant curY == preY && 0 <= row < 3
        invariant Valid() && InBounds()
        invariant Extends(old(vs), old(fs), old(ms), 0)
        invariant AddedBoxes(|old(vs)|, |old(fs)|, boxes)
        invariant boxes == 0 ==> curY == 0.0 && row == 0
        invariant boxes > 0 ==> FirstVertex(|old(vs)|, Vertex(0.0, 0.0, 0.0))
        decreases Steps(cfg.length + sTl + sp - preY, (tl + sp) / 2.0)
      {
        ghost var vsBefore, fsBefore := vs, fs;
        var rowBoxes := HopscotchRow(curY, row);
        PiecesConcat(vsBefore, fsBefore, vs, fs, |old(vs)|, |old(fs)|, boxes, rowBoxes, Cube);
        boxes := boxes + rowBoxes;

        if row == 0 || row == 2 {
          curY := preY + tl + sp;
        } else {
          curY := preY + sTl + sp;
        }
        StepsDecrease(cfg.length + sTl + sp - preY, cfg.length + sTl + sp - curY, (tl + sp) / 2.0);
        preY := curY;

        row := (row + 1) % 3;  // the three kinds of row repeat in turn
      }
    }

    /**
     * The tiles one step of a `tile_hopscotch` row places at (`curX`,
     * `curY`): in rows 0 and 1 a large tile, cut at the near edge when it
     * starts below it, and a short one raised beside it; in row 2 a large
     * tile and a short one to its right, the first column instead a narrow
     * large tile with short ones to its right and under it. Returns the
     * number of tiles added; a step that starts inside the floor adds at
     * least one, the first at its start.
     */
    method HopscotchTiles(curX: real, curY: real, row: int) returns (ghost boxes: nat)
      requires Valid() && InBounds()
      modifies this
      ensures Valid() && InBounds()
      ensures Extends(old(vs), old(fs), old(ms), 0)
      ensures AddedBoxes(|old(vs)|, |old(fs)|, boxes)
      ensures curX < cfg.width && 0.0 <= curY < cfg.length ==> boxes >= 1 && FirstVertex(|old(vs)|, Vertex(curX, curY, 0.0))
    {
      var th := cfg.thickness;
      var sp := cfg.spacing;
      var tw := cfg.tileWidth;
      var tl := cfg.tileLength;
      var sTw := (tw - sp) / 2.0;
      var sTl := (tl - sp) / 2.0;
      // every step places a big tile, then a short one raised to its right
      var bigY, bigW, bigL, shortX := curY, tw, tl, curX + tw + sp;
      var first := (row != 0 && row != 1) && curX == 0.0;
      if (row == 0 || row == 1) && curY < 0.0 {
        bigY, bigL := 0.0, tl + curY;  // a big tile that starts below y = 0 is cut at the near edge
      } else if first {
        bigW, shortX := sTw, curX + sTw + sp;  // the first column of row 2 uses a narrow big tile
      }
      boxes := PlaceBox(curX, bigY, 0.0, bigW, bigL, th);
      ghost var vsBefore, fsBefore := vs, fs;
      var short := PlaceBox(shortX, curY + sTl + sp, 0.0, sTw, sTl, th);
      PiecesConcat(vsBefore, fsBefore, vs, fs, |old(vs)|, |old(fs)|, boxes, short, Cube);
      boxes := boxes + short;
      if first {
        vsBefore, fsBefore := vs, fs;
        var under := PlaceBox(curX, curY - sp - sTl, 0.0, sTw, sTl, th);  // and a short tile under it
        PiecesConcat(vsBefore, fsBefore, vs, fs, |old(vs)|, |old(fs)|, boxes, under, Cube);
        boxes := boxes + under;
      }
    }

    /**
     * The inner loop of `tile_hopscotch`: one row of kind `row` starting
     * at `y`. Rows 0 and 1 step every other large tile down by a small
     * tile; row 2 starts with a half-width tile. Returns the number of
     * tiles added; a row of kind 0 or 2 that starts inside the floor has
     * at least one, the first at its start.
     */
    method HopscotchRow(y: real, row: int) returns (ghost boxes: nat)
      requires Valid() && InBounds() && 0 <= row < 3
      modifies this
      ensures Valid() && InBounds()
      ensures Extends(old(vs), old(fs), old(ms), 0)
      ensures AddedBoxes(|old(vs)|, |old(fs)|, boxes)
      ensures row != 1 && 0.0 <= y < cfg.length ==> boxes >= 1 && FirstVertex(|old(vs)|, Vertex(0.0, y, 0.0))
    {
      boxes := 0;
      var curY := y;
      var sp := cfg.spacing;
      var tw := cfg.tileWidth;
      var tl := cfg.tileLength;
      var sTw := (tw - sp) / 2.0;  // half a long tile, less one gap
      var sTl := (tl - sp) / 2.0;

      var curX := 0.0;
      var stepBack := true;

      if row == 1 {  // the middle kind of row starts one short tile in
        curX := sTw + sp;
      }

      while curX < cfg.width
        invariant Valid() && InBounds()
        invariant Extends(old(vs), old(fs), old(ms), 0)
        invariant AddedBoxes(|old(vs)|, |old(fs)|, boxes)
        invariant row != 1 && 0.0 <= y < cfg.length && boxes == 0 ==> curX == 0.0 && curY == y
        invariant row != 1 && 0.0 <= y < cfg.length && boxes > 0 ==> FirstVertex(|old(vs)|, Vertex(0.0, y, 0.0))
        decreases Steps(cfg.width - curX, tw)
      {
        ghost var x0 := curX;
        ghost var vsBefore, fsBefore := vs, fs;
        var placed := HopscotchTiles(curX, curY, row);
        PiecesConcat(vsBefore, fsBefore, vs, fs, |old(vs)|, |old(fs)|, boxes, placed, Cube);
        boxes := boxes + placed;
        if row == 0 || row == 1 {
          if stepBack {
            curX := curX + tw + sp;
            curY := curY - (sTl + sp);
          } else {
            curX := curX + tw + sTw + 2.0 * sp;
            curY := curY + sTl + sp;
          }

          stepBack := !stepBack;
        } else if curX == 0.0 {
          curX := curX + (2.0 * sTw) + tw + (3.0 * sp);
        } else {
          curX := curX + (2.0 * tw) + (3.0 * sp) + sTw;
        }
        StepsDecrease(cfg.width - x0, cfg.width - curX, tw);
      }
    }

    /**
     * The stones one step of a `tile_stepping_stone` row places at
     * (`curX`, `curY`): in row 0 a large stone and a column of two small
     * ones beside it, in row 1 two small stones side by side. Returns the
     * number of tiles added; a step that starts inside the floor adds at
     * least one, the first at its start.
     */
    method SteppingStones(curX: real, curY: real, row: int) returns (ghost boxes: nat)
      requires Valid() && InBounds()
      modifies this
      ensures Valid() && InBounds()
      ensures Extends(old(vs), old(fs), old(ms), 0)
      ensures AddedBoxes(|old(vs)|, |old(fs)|, boxes)
      ensures curX < cfg.width && curY < cfg.length ==> boxes >= 1 && FirstVertex(|old(vs)|, Vertex(curX, curY, 0.0))
    {
      var th := cfg.thickness;
      var sp := cfg.spacing;
      var tw := cfg.tileWidth;
      var tl := cfg.tileLength;
      var sTw := (tw - sp) / 2.0;
      var sTl := (tl - sp) / 2.0;
      if row == 0 {  // a big stone, then a column of two small stones
        boxes := PlaceBox(curX, curY, 0.0, tw, tl, th);
        ghost var vsBefore, fsBefore := vs, fs;
        var lower := PlaceBox(curX + tw + sp, curY, 0.0, sTw, sTl, th);
        PiecesConcat(vsBefore, fsBefore, vs, fs, |old(vs)|, |old(fs)|, boxes, lower, Cube);
        boxes := boxes + lower;
        vsBefore, fsBefore := vs, fs;
        var upper := PlaceBox(curX + tw + sp, curY + sTl + sp, 0.0, sTw, sTl, th);
        PiecesConcat(vsBefore, fsBefore, vs, fs, |old(vs)|, |old(fs)|, boxes, upper, Cube);
        boxes := boxes + upper;
      } else {  // small stones only
        boxes := PlaceBox(curX, curY, 0.0, sTw, sTl, th);
        ghost var vsBefore, fsBefore := vs, fs;
        var second := PlaceBox(curX + sTw + sp, curY, 0.0, sTw, sTl, th);
        PiecesConcat(vsBefore, fsBefore, vs, fs, |old(vs)|, |old(fs)|, boxes, second, Cube);
        boxes := boxes + second;
      }
    }

    /**
     * `tile_stepping_stone()`: rows alternate between large stones, each
     * followed by a column of two small ones, and small stones only. Adds
     * `boxes` whole tiles, at least one, the first at the origin.
     */
    method TileSteppingStone() returns (ghost boxes: nat)
      requires Valid() && InBounds()
      modifies this
      ensures Valid() && InBounds()
      ensures Extends(old(vs), old(fs), old(ms), 0)
      ensures AddedBoxes(|old(vs)|, |old(fs)|, boxes) && boxes >= 1
      ensures FirstVertex(|old(vs)|, Vertex(0.0, 0.0, 0.0))
    {
      boxes := 0;
      var sp := cfg.spacing;
      var curY := 0.0;
      var row := 0;

      var tw := cfg.tileWidth;
      var tl := cfg.tileLength;
      var sTw := (tw - sp) / 2.0;
      var sTl := (tl - sp) / 2.0;

      while curY < cfg.length
        invariant 0 <= row < 2
        invariant Valid() && InBounds()
        invariant Extends(old(vs), old(fs), old(ms), 0)
        invariant AddedBoxes(|old(vs)|, |old(fs)|, boxes)
        invariant boxes == 0 ==> curY == 0.0
        invariant boxes > 0 ==> FirstVertex(|old(vs)|, Vertex(0.0, 0.0, 0.0))
        decreases Steps(cfg.length - curY, sTl + sp)
      {
        var curX := 0.0;

        while curX < cfg.width
          invariant Valid() && InBounds()
          invariant Extends(old(vs), old(fs), old(ms), 0)
          invariant AddedBoxes(|old(vs)|, |old(fs)|, boxes)
          invariant boxes == 0 ==> curX == 0.0 && curY == 0.0
          invariant boxes > 0 ==> FirstVertex(|old(vs)|, Vertex(0.0, 0.0, 0.0))
          decreases Steps(cfg.width - curX, tw)
        {
          ghost var vsBefore, fsBefore := vs, fs;
          var placed := SteppingStones(curX, curY, row);
          PiecesConcat(vsBefore, fsBefore, vs, fs, |old(vs)|, |old(fs)|, boxes, placed, Cube);
          boxes := boxes + placed;
          if row == 0 {
            StepsDecrease(cfg.width - curX, cfg.width - (curX + tw + sTw + 2.0 * sp), tw);
            curX := curX + tw + sTw + (2.0 * sp);
          } else {
            StepsDecrease(cfg.width - curX, cfg.width - (curX + tw + sp), tw);
            curX := curX + tw + sp;
          }
        }

        ghost var y0 := curY;
        if row == 0 {
          curY := curY + tl + sp;
        } else {
          curY := curY + sTl + sp;
        }
        StepsDecrease(cfg.length - y0, cfg.length - curY, sTl + sp);

        row := (row + 1) % 2;
      }
    }

    /**
     * `wood_regular()`: columns of boards, each column cut into boards
     * along y. Adds `boxes` whole boards, at least one, the first at the
     * origin.
     */
    method WoodRegular(rand: RandomSource) returns (ghost boxes: nat)
      requires Valid() && InBounds() && UnitDraws(rand)
      modifies this
      ensures Valid() && InBounds()
      ensures Extends(old(vs), old(fs), old(ms), 0)
      ensures AddedBoxes(|old(vs)|, |old(fs)|, boxes) && boxes >= 1
      ensures FirstVertex(|old(vs)|, Vertex(0.0, 0.0, 0.0))
    {
      boxes := 0;
      var draw: nat := 0;
      var curX := 0.0;
      var bw := cfg.boardWidth;

      while curX < cfg.width
        invariant Valid() && InBounds()
        invariant Extends(old(vs), old(fs), old(ms), 0)
        invariant AddedBoxes(|old(vs)|, |old(fs)|, boxes)
        invariant boxes == 0 ==> curX == 0.0
        invariant boxes > 0 ==> FirstVertex(|old(vs)|, Vertex(0.0, 0.0, 0.0))
        decreases Steps(cfg.width - curX, bw / 100.0)
      {
        var bw2;
        if cfg.varyWidth {
          var v := Spread(bw, cfg.widthVariance);
          bw2 := Uniform(bw - v, bw + v, rand(draw));
          draw := draw + 1;
        } else {
          bw2 := bw;
        }

        if bw2 + curX > cfg.width {
          bw2 := cfg.width - curX;
        }
        ghost var columnBoxes: nat;
        ghost var vsBefore, fsBefore := vs, fs;
        draw, columnBoxes := WoodRegularColumn(curX, bw2, rand, draw);
        PiecesConcat(vsBefore, fsBefore, vs, fs, |old(vs)|, |old(fs)|, boxes, columnBoxes, Cube);
        boxes := boxes + columnBoxes;

        StepsDecrease(cfg.width - curX, cfg.width - (curX + bw2 + cfg.widthSpacing), bw / 100.0);
        curX := curX + bw2 + cfg.widthSpacing;
      }
    }

    /**
     * The inner loop of `wood_regular`: one column of boards of width
     * `bw2` at `curX`, of varied thickness and length when asked, the
     * last of them cut at the far edge or after `max_boards` varied
     * boards. Returns the next unused draw and the number of boards
     * added; a column inside the floor has at least one, the first at
     * its near end.
     */
    method WoodRegularColumn(curX: real, bw2: real, rand: RandomSource, draw: nat) returns (draw': nat, ghost boxes: nat)
      requires Valid() && InBounds() && UnitDraws(rand)
      modifies this
      ensures Valid() && InBounds()
      ensures Extends(old(vs), old(fs), old(ms), 0)
      ensures draw' >= draw
      ensures AddedBoxes(|old(vs)|, |old(fs)|, boxes)
      ensures curX < cfg.width ==> boxes >= 1 && FirstVertex(|old(vs)|, Vertex(curX, 0.0, 0.0))
    {
      draw', boxes := draw, 0;
      var zt := cfg.thickness;
      var bl := cfg.boardLength;
      var curY := 0.0;

      var counter := 1;
      while curY < cfg.length
        invariant Valid() && InBounds()
        invariant Extends(old(vs), old(fs), old(ms), 0)
        invariant draw' >= draw
        invariant AddedBoxes(|old(vs)|, |old(fs)|, boxes)
        invariant curX < cfg.width && boxes == 0 ==> curY == 0.0
        invariant boxes > 0 ==> FirstVertex(|old(vs)|, Vertex(curX, 0.0, 0.0))
        decreases Steps(cfg.length - curY, bl / 100.0)
      {
        var z := zt;
        if cfg.varyThickness {
          var v := Spread(z, cfg.thicknessVariance);
          z := Uniform(z - v, z + v, rand(draw'));
          draw' := draw' + 1;
        }
        var bl2 := bl;
        if cfg.varyLength {
          var v := Spread(bl, cfg.lengthVariance);
          bl2 := Uniform(bl - v, bl + v, rand(draw'));
          draw' := draw' + 1;
        }
        if (counter >= cfg.maxBoards && cfg.varyLength) || curY + bl2 > cfg.length {
          bl2 := cfg.length - curY;
        }

        ghost var vsBefore, fsBefore := vs, fs;
        var placed := PlaceBox(curX, curY, 0.0, bw2, bl2, z);
        PiecesConcat(vsBefore, fsBefore, vs, fs, |old(vs)|, |old(fs)|, boxes, placed, Cube);
        boxes := boxes + placed;
        StepsDecrease(cfg.length - curY, cfg.length - (curY + bl2 + cfg.lengthSpacing), bl / 100.0);
        curY := curY + bl2 + cfg.lengthSpacing;
        counter := counter + 1;
      }
    }
  
    /**
     * One `wood_parquet` board: the four `near` vertices, the four `far`
     * ones, the six quads over them and six material ids 0.
     */
    method AddParquetBoard(near: seq<Vertex>, far: seq<Vertex>)
      requires |near| == 4 && |far| == 4
      modifies this
      ensures vs == old(vs) + near + far
      ensures fs == old(fs) + ParquetFaces(|old(vs)|)
      ensures ms == old(ms) + Repeat(0, 6)
      ensures old(Valid()) ==> Valid()
      ensures old(InBounds()) && BoardInBounds(near) && BoardInBounds(far) ==> InBounds()
      ensures Extends(old(vs), old(fs), old(ms), 0)
      ensures IsBoard(near + far) ==> AddedBoards(|old(vs)|, |old(fs)|, 1)
      ensures FirstVertex(|old(vs)|, near[0])
    {
      var p := |vs|;
      ghost var f0 := |fs|;
      vs := AppendAll(vs, near);
      vs := AppendAll(vs, far);
      fs := AppendAll(fs, ParquetFaces(p));
      ms := AppendAll(ms, Repeat(0, 6));
      assert forall j :: |old(fs)| <= j < |fs| ==> fs[j] == ParquetFaces(p)[j - |old(fs)|];
      assert vs[p..p + 8] == near + far;
      assert fs[f0..f0 + 6] == ParquetFaces(p);
      if IsBoard(near + far) {
        assert PieceAt(vs, fs, p, f0, 0, Board);
      }
    }

    ghost predicate BoardInBounds(corners: seq<Vertex>) {
      forall k :: 0 <= k < |corners| ==> corners[k].x <= cfg.width && corners[k].y <= cfg.length
    }

    /**
     * `wood_parquet()`: columns of square groups of `boards_in_group`
     * boards, the groups alternating between boards along y and boards
     * along x, and each column starting with the other orientation.
     * Adds `boxes` whole boards, at least one, the first at the origin.
     */
    method WoodParquet() returns (ghost boxes: nat)
      requires Valid() && InBounds()
      modifies this
      ensures Valid() && InBounds()
      ensures Extends(old(vs), old(fs), old(ms), 0)
      ensures AddedBoards(|old(vs)|, |old(fs)|, boxes) && boxes >= 1
      ensures FirstVertex(|old(vs)|, Vertex(0.0, 0.0, 0.0))
    {
      boxes := 0;
      var curX := 0.0;
      var startOrientLength := true;

      // width of a group: its boards and the gaps between them
      var bl := (cfg.boardWidth * cfg.boardsInGroup as real) + (cfg.spacing * (cfg.boardsInGroup - 1) as real);
      GroupLength(cfg.boardWidth, cfg.spacing, cfg.boardsInGroup);
      while curX < cfg.width
        invariant Valid() && InBounds()
        invariant Extends(old(vs), old(fs), old(ms), 0)
        invariant curX >= 0.0
        invariant AddedBoards(|old(vs)|, |old(fs)|, boxes)
        invariant boxes == 0 ==> curX == 0.0 && startOrientLength
        invariant boxes > 0 ==> FirstVertex(|old(vs)|, Vertex(0.0, 0.0, 0.0))
        decreases Steps(cfg.width - curX, bl)
      {
        ghost var vsBefore, fsBefore := vs, fs;
        var columnBoxes := ParquetColumn(curX, bl, startOrientLength);
        PiecesConcat(vsBefore, fsBefore, vs, fs, |old(vs)|, |old(fs)|, boxes, columnBoxes, Board);
        boxes := boxes + columnBoxes;
        startOrientLength := !startOrientLength;
        StepsDecrease(cfg.width - curX, cfg.width - (curX + bl + cfg.spacing), bl);
        curX := curX + bl + cfg.spacing;
      }
    }

    /**
     * The middle loop of `wood_parquet`: one column of groups at `curX`,
     * the first oriented along y when `startOrientLength` holds. Returns
     * the number of boards added, at least one; a column starting along y
     * starts at (`curX`, 0).
     */
    method ParquetColumn(curX: real, bl: real, startOrientLength: bool) returns (ghost boxes: nat)
      requires Valid() && InBounds() && 0.0 <= curX < cfg.width && bl >= cfg.boardWidth
      modifies this
      ensures Valid() && InBounds()
      ensures Extends(old(vs), old(fs), old(ms), 0)
      ensures AddedBoards(|old(vs)|, |old(fs)|, boxes) && boxes >= 1
      ensures startOrientLength ==> FirstVertex(|old(vs)|, Vertex(curX, 0.0, 0.0))
    {
      boxes := 0;
      var curY := 0.0;
      var orientLength := startOrientLength;
      while curY < cfg.length
        invariant Valid() && InBounds()
        invariant Extends(old(vs), old(fs), old(ms), 0)
        invariant AddedBoards(|old(vs)|, |old(fs)|, boxes)
        invariant boxes == 0 ==> curY == 0.0 && orientLength == startOrientLength
        invariant startOrientLength && boxes > 0 ==> FirstVertex(|old(vs)|, Vertex(curX, 0.0, 0.0))
        decreases Steps(cfg.length - curY, cfg.boardWidth)
      {
        ghost var y0 := curY;
        ghost var groupBoxes: nat;
        ghost var vsBefore, fsBefore := vs, fs;
        if orientLength {
          curY, groupBoxes := ParquetGroupAlongY(curX, curY, bl);
        } else {
          curY, groupBoxes := ParquetGroupAlongX(curX, curY, bl);
        }
        PiecesConcat(vsBefore, fsBefore, vs, fs, |old(vs)|, |old(fs)|, boxes, groupBoxes, Board);
        boxes := boxes + groupBoxes;
        StepsDecrease(cfg.length - y0, cfg.length - curY, cfg.boardWidth);
        orientLength := !orientLength;
      }
    }

    /**
     * A group of boards along y at (`x`, `y`): `boards_in_group` boards
     * side by side, each cut at the far edges; returns the `cur_y` of the
     * next group and the number of boards added, at least one, the first
     * at (`x`, `y`).
     */
    method ParquetGroupAlongY(x: real, y: real, bl: real) returns (y': real, ghost boxes: nat)
      requires Valid() && InBounds() && 0.0 <= x < cfg.width && y < cfg.length && bl >= cfg.boardWidth
      modifies this
      ensures Valid() && InBounds()
      ensures Extends(old(vs), old(fs), old(ms), 0)
      ensures y' >= y + cfg.boardWidth || y' >= cfg.length
      ensures AddedBoards(|old(vs)|, |old(fs)|, boxes) && boxes >= 1
      ensures FirstVertex(|old(vs)|, Vertex(x, y, 0.0))
    {
      boxes := 0;
      var z := cfg.thickness;
      var curX, curY := x, y;
      var bl2 := bl;
      var bw2 := cfg.boardWidth;
      var startX := curX;

      for i := 0 to cfg.boardsInGroup
        invariant Valid() && InBounds()
        invariant Extends(old(vs), old(fs), old(ms), 0)
        invariant curY == y
        invariant bw2 == cfg.boardWidth || curX >= cfg.width
        invariant bl2 == bl || bl2 == cfg.length - curY
        invariant AddedBoards(|old(vs)|, |old(fs)|, boxes)
        invariant boxes == 0 ==> i == 0 && curX == x
        invariant boxes > 0 ==> FirstVertex(|old(vs)|, Vertex(x, y, 0.0))
      {
        if curX < cfg.width && curY < cfg.length {
          // a board is placed only when it starts inside the floor; it is cut at the far edges
          if curX < cfg.width < curX + cfg.boardWidth {
            bw2 := cfg.width - curX;
          }
          if curY < cfg.length < curY + bl {
            bl2 := cfg.length - curY;
          }
          var near := [Vertex(curX, curY, 0.0), Vertex(curX, curY, z), Vertex(curX + bw2, curY, z), Vertex(curX + bw2, curY, 0.0)];
          curY := curY + bl2;
          var far := [Vertex(curX, curY, 0.0), Vertex(curX, curY, z), Vertex(curX + bw2, curY, z), Vertex(curX + bw2, curY, 0.0)];
          curY := curY - bl2;
          NearFarAlongY(near, far, curX, curY, bw2, bl2, z);
          ghost var vsBefore, fsBefore := vs, fs;
          AddParquetBoard(near, far);
          PiecesConcat(vsBefore, fsBefore, vs, fs, |old(vs)|, |old(fs)|, boxes, 1, Board);
          boxes := boxes + 1;
          curX := curX + bw2 + cfg.spacing;
        }
      }

      curX := startX;
      y' := curY + bl2 + cfg.spacing;
    }

    /**
     * A group of boards along x at (`x`, `y`): `boards_in_group` boards
     * stacked in y, each cut at the far edges; returns `cur_y` after the
     * group, which is where the next group starts, and the number of
     * boards added, at least one.
     */
    method ParquetGroupAlongX(x: real, y: real, bl: real) returns (y': real, ghost boxes: nat)
      requires Valid() && InBounds() && 0.0 <= x < cfg.width && y < cfg.length && bl >= cfg.boardWidth
      modifies this
      ensures Valid() && InBounds()
      ensures Extends(old(vs), old(fs), old(ms), 0)
      ensures y' >= y + cfg.boardWidth || y' >= cfg.length
      ensures AddedBoards(|old(vs)|, |old(fs)|, boxes) && boxes >= 1
    {
      boxes := 0;
      var z := cfg.thickness;
      var curX, curY := x, y;
      var bl2 := bl;
      var bw2 := cfg.boardWidth;

      for i := 0 to cfg.boardsInGroup
        invariant Valid() && InBounds()
        invariant Extends(old(vs), old(fs), old(ms), 0)
        invariant curX == x
        invariant bl2 == bl || bl2 == cfg.width - curX
        invariant bw2 == cfg.boardWidth || curY >= cfg.length
        invariant i == 0 ==> curY == y
        invariant i > 0 ==> curY >= y + cfg.boardWidth || curY >= cfg.length
        invariant AddedBoards(|old(vs)|, |old(fs)|, boxes)
        invariant i > 0 ==> boxes > 0
      {
        if curX < cfg.width && curY < cfg.length {
          if curX < cfg.width < curX + bl {
            bl2 := cfg.width - curX;
          }
          if curY < cfg.length < curY + cfg.boardWidth {
            bw2 := cfg.length - curY;
          }
          var near := [Vertex(curX, curY + bw2, 0.0), Vertex(curX, curY + bw2, z), Vertex(curX, curY, z), Vertex(curX, curY, 0.0)];
          curX := curX + bl2;
          var far := [Vertex(curX, curY + bw2, 0.0), Vertex(curX, curY + bw2, z), Vertex(curX, curY, z), Vertex(curX, curY, 0.0)];
          curX := curX - bl2;
          NearFarAlongX(near, far, curX, curY, bw2, bl2, z);
          ghost var vsBefore, fsBefore := vs, fs;
          AddParquetBoard(near, far);
          PiecesConcat(vsBefore, fsBefore, vs, fs, |old(vs)|, |old(fs)|, boxes, 1, Board);
          boxes := boxes + 1;
          curY := curY + bw2 + cfg.spacing;
        }
      }
      y' := curY;
    }

    /**
     * `wood_herringbone()`: one slanted board per row at the left edge,
     * each built from its boundary lines and cut by the floor edges.
     * `ok` is false when building a board met the `ZeroDivisionError` of
     * the corner sort; the boards built before it stay. With `corrected`
     * false the boards come from `add_shape_from_corner_points` as written,
     * which adds faces but no material ids, so any board leaves the mesh
     * without one material id per face; with `corrected` true the mesh
     * stays valid.
     */
    method WoodHerringbone(geo: MathLib, corrected: bool := false) returns (ok: bool)
      requires Valid() && InBounds()
      modifies this
      ensures InBounds()
      ensures Extends(old(vs), old(fs), old(ms), 0)
      ensures forall i :: |old(vs)| <= i < |vs| ==> 0.0 <= vs[i].x <= cfg.width && 0.0 <= vs[i].y <= cfg.length
      ensures corrected ==> Valid()
      ensures !corrected ==> ms == old(ms)
      ensures !corrected && |fs| > |old(fs)| ==> !Valid()
    {
      var sp := cfg.spacing;
      var boundaries := [Segment([0.0, 0.0], [0.0, cfg.length]), Segment([0.0, 0.0], [cfg.width, 0.0]),
                         Segment([cfg.width, 0.0], [cfg.width, cfg.length]), Segment([cfg.width, cfg.length], [0.0, cfg.length])];

      var widthDif := cfg.boardWidth / COS45;
      var xDif := cfg.shortBoardLength * COS45;
      var yDif := cfg.shortBoardLength * SIN45;
      var totalYDif := widthDif + yDif;

      ok := true;
      var curY := 0.0;
      while curY < cfg.length
        invariant InBounds() && (corrected ==> Valid()) && (!corrected ==> ms == old(ms))
        invariant Extends(old(vs), old(fs), old(ms), 0)
        invariant forall i :: |old(vs)| <= i < |vs| ==> 0.0 <= vs[i].x <= cfg.width && 0.0 <= vs[i].y <= cfg.length
        decreases Steps(cfg.length - curY, widthDif)
      {
        var curX := 0.0;

        while curX < cfg.width
          invariant InBounds() && (corrected ==> Valid()) && (!corrected ==> ms == old(ms))
          invariant Extends(old(vs), old(fs), old(ms), 0)
          invariant forall i :: |old(vs)| <= i < |vs| ==> 0.0 <= vs[i].x <= cfg.width && 0.0 <= vs[i].y <= cfg.length
          decreases if curX < cfg.width then 1 else 0
        {
          // the board that starts at the left edge
          ghost var corners, order;
          ok, corners, order := CreateBoardFromBoundaries(
            boundaries + [Segment([curX, curY], [curX + xDif, curY + yDif]),
                          Segment([curX + xDif, curY + yDif], [curX + xDif, curY + totalYDif]),
                          Segment([curX + xDif, curY + totalYDif], [curX, curY + widthDif]),
                          Segment([curX, curY + widthDif], [curX, curY])],
            [[curX, curY], [curX + xDif, curY + yDif], [curX + xDif, curY + totalYDif], [curX, curY + widthDif]],
            cfg.thickness, geo, corrected := corrected);
          if !ok {
            return;
          }

          curX := cfg.width;
        }

        StepsDecrease(cfg.length - curY, cfg.length - (curY + widthDif + sp / COS45), widthDif);
        curY := curY + widthDif + sp / COS45;  // the gap, measured along y across boards at 45 degrees
      }
    }

    /**
     * The wood branch of `update_data()`, on empty lists: the chosen wood
     * pattern. `ok` is false only when a herringbone board met the
     * `ZeroDivisionError` of the corner sort. Herringbone boards come from
     * the builder as written, so that pattern gives faces without material
     * ids.
     */
    method UpdateWood(rand: RandomSource, geo: MathLib) returns (ok: bool)
      requires ValidConfig(cfg) && UnitDraws(rand) && cfg.floorMaterial == Wood
      requires vs == [] && fs == [] && ms == []
      modifies this
      ensures InBounds()
      ensures cfg.woodStyle != Herringbone ==> Valid()
      ensures cfg.woodStyle == Herringbone ==>
                && ms == []
                && (forall i :: 0 <= i < |vs| ==> 0.0 <= vs[i].x <= cfg.width && 0.0 <= vs[i].y <= cfg.length)
                && (|fs| > 0 ==> !Valid())
      ensures !ok ==> cfg.woodStyle == Herringbone
      ensures forall i :: 0 <= i < |ms| ==> ms[i] == 0
      ensures cfg.woodStyle == HerringboneParquet ==> vs == [] && fs == [] && ms == []
      ensures cfg.woodStyle == WoodStyle.Regular || cfg.woodStyle == Parquet ==>
                |vs| >= 8 && vs[0] == Vertex(0.0, 0.0, 0.0)
      ensures cfg.woodStyle == WoodStyle.Regular ==> AddedBoxes(0, 0, |vs| / 8)
      ensures cfg.woodStyle == Parquet ==> AddedBoards(0, 0, |vs| / 8)
    {
      ok := true;
      match cfg.woodStyle {
        case Regular => var boards := WoodRegular(rand);
        case Parquet => var boards := WoodParquet();
        case Herringbone => ok := WoodHerringbone(geo, corrected := false);
        case HerringboneParquet =>  // `wood_herringbone_parquet` is an empty stub
      }
    }

    /**
     * The tile branch of `update_data()`, on empty lists: the grout slab,
     * then the chosen tile pattern.
     */
    method UpdateTiles(rand: RandomSource)
      requires ValidConfig(cfg) && UnitDraws(rand) && cfg.floorMaterial == Tile
      requires vs == [] && fs == [] && ms == []
      modifies this
      ensures Valid() && InBounds()
      ensures |vs| >= 8 && vs[..8] == BoxVertices(0.0, 0.0, 0.0, cfg.width, cfg.length, cfg.thickness - cfg.mortarDepth)
      ensures |fs| >= 6 && fs[..6] == CubeFaces(0)
      ensures ms[..6] == Repeat(1, 6)
      ensures forall i :: 6 <= i < |ms| ==> ms[i] == 0
      ensures cfg.tileStyle == Hexagon ==> |vs| == 8 && |fs| == 6
      ensures cfg.tileStyle != Hexagon ==> |vs| >= 16 && vs[8] == Vertex(0.0, 0.0, 0.0) && AddedBoxes(8, 6, (|vs| - 8) / 8)
    {
      TileGrout();  // the grout slab under the tiles
      assert forall i :: 0 <= i < 6 ==> ms[i] == 1;
      match cfg.tileStyle {
        case Regular => var tiles := TileRegular(rand);
        case Hopscotch => var tiles := TileHopscotch();
        case SteppingStone => var tiles := TileSteppingStone();
        case Hexagon =>  // `tile_hexagon` is an empty stub
        case Windmill => var tiles := TileWindmill();
      }
    }

    /**
     * `update_data()`: clears the three lists and rebuilds them in the
     * chosen material and pattern (`UpdateWood`, `UpdateTiles`). `ok` is
     * false only for herringbone wood, when a board met the
     * `ZeroDivisionError` of the corner sort.
     */
    method UpdateData(rand: RandomSource, geo: MathLib) returns (ok: bool)
      requires ValidConfig(cfg) && UnitDraws(rand)
      modifies this
      ensures InBounds()
      ensures !(cfg.floorMaterial == Wood && cfg.woodStyle == Herringbone) ==> Valid()
      ensures cfg.floorMaterial == Wood && cfg.woodStyle == Herringbone ==>
                && ms == []
                && (forall i :: 0 <= i < |vs| ==> 0.0 <= vs[i].x <= cfg.width && 0.0 <= vs[i].y <= cfg.length)
                && (|fs| > 0 ==> !Valid())
      ensures !ok ==> cfg.floorMaterial == Wood && cfg.woodStyle == Herringbone
      ensures cfg.floorMaterial == Wood ==> forall i :: 0 <= i < |ms| ==> ms[i] == 0
      ensures cfg.floorMaterial == Wood && cfg.woodStyle == HerringboneParquet ==> vs == [] && fs == [] && ms == []
      ensures cfg.floorMaterial == Wood && (cfg.woodStyle == WoodStyle.Regular || cfg.woodStyle == Parquet) ==>
                |vs| >= 8 && vs[0] == Vertex(0.0, 0.0, 0.0)
      ensures cfg.floorMaterial == Wood && cfg.woodStyle == WoodStyle.Regular ==> AddedBoxes(0, 0, |vs| / 8)
      ensures cfg.floorMaterial == Wood && cfg.woodStyle == Parquet ==> AddedBoards(0, 0, |vs| / 8)
      ensures cfg.floorMaterial == Tile ==>
                && |vs| >= 8 && vs[..8] == BoxVertices(0.0, 0.0, 0.0, cfg.width, cfg.length, cfg.thickness - cfg.mortarDepth)
                && |fs| >= 6 && fs[..6] == CubeFaces(0)
                && ms[..6] == Repeat(1, 6)
                && forall i :: 6 <= i < |ms| ==> ms[i] == 0
      ensures cfg.floorMaterial == Tile && cfg.tileStyle == Hexagon ==> |vs| == 8 && |fs| == 6
      ensures cfg.floorMaterial == Tile && cfg.tileStyle != Hexagon ==>
                |vs| >= 16 && vs[8] == Vertex(0.0, 0.0, 0.0) && AddedBoxes(8, 6, (|vs| - 8) / 8)
    {
      // start from empty lists
      vs, fs, ms := [], [], [];
      ok := true;
      match cfg.floorMaterial
      case Wood => ok := UpdateWood(rand, geo);
      case Tile => UpdateTiles(rand);
    }
  }
}
