/**
 * Value types, floating-point constants and foreign geometry routines used
 * by the floor generator, plus the arithmetic facts its loops rely on.
 */
module Geometry {
  import opened Wrappers

  /** One foot and one inch in meters. */
  const FOOT: real := 0.3048
  const INCH: real := 0.0254

  /** `radians(180)`, the double nearest to pi. */
  const PI: real := 3.141592653589793
  /** `cos(radians(45))` and `sin(radians(45))` as the doubles Python computes. */
  const COS45: real := 0.7071067811865476
  const SIN45: real := 0.7071067811865475

  /** A 2D `mathutils.Vector`. */
  datatype Vec2 = Vec2(x: real, y: real)

  /** A mesh vertex `(x, y, z)`. */
  datatype Vertex = Vertex(x: real, y: real, z: real)

  /** A face: vertex indices into the vertex list. */
  type Face = seq<int>

  /** A boundary segment `[start_v, end_v]`; each end is an `(x, y)` tuple. */
  datatype Segment = Segment(start: seq<real>, end: seq<real>)

  /**
   * The foreign routines the generator calls: `mathutils.geometry`'s
   * `intersect_line_line_2d` (None when there is no intersection) and
   * `intersect_point_quad_2d` (1 when the point is inside the quad), and
   * `math.atan`. Their bodies are not part of this model.
   */
  datatype MathLib = MathLib(
    intersectLineLine2d: (seq<real>, seq<real>, seq<real>, seq<real>) -> Option<Vec2>,
    intersectPointQuad2d: (seq<real>, seq<real>, seq<real>, seq<real>, seq<real>) -> int,
    atan: real -> real)

  /**
   * A stream of `random()` draws: the k-th draw of the generator. Python's
   * `random()` lies in [0, 1).
   */
  type RandomSource = nat -> real

  ghost predicate UnitDraws(rand: RandomSource) {
    forall k: nat :: 0.0 <= rand(k) < 1.0
  }

  /** `uniform(lo, hi)` given the `random()` draw `u`. */
  function Uniform(lo: real, hi: real, u: real): (r: real)
    requires lo <= hi && 0.0 <= u < 1.0
    ensures lo <= r <= hi
  {
    UniformBetween(lo, hi, u);
    lo + (hi - lo) * u
  }

  lemma UniformBetween(lo: real, hi: real, u: real)
    requires lo <= hi && 0.0 <= u < 1.0
    ensures lo <= lo + (hi - lo) * u <= hi
  {
    MulNonNeg(hi - lo, u);
    MulNonNeg(hi - lo, 1.0 - u);
    assert hi - (lo + (hi - lo) * u) == (hi - lo) * (1.0 - u);
  }

  lemma MulNonNeg(a: real, b: real)
    requires a >= 0.0 && b >= 0.0
    ensures a * b >= 0.0
  {
  }

  function Min(a: real, b: real): real { if a <= b then a else b }

  /**
   * A termination measure for a cursor moving towards a bound by at least
   * `step` at a time: how many such steps remain while the gap is positive.
   */
  function Steps(gap: real, step: real): nat
    requires step > 0.0
  {
    if gap <= 0.0 then 0 else DivFloorNonNeg(gap, step) + 1
  }

  function DivFloorNonNeg(a: real, b: real): (n: nat)
    requires a > 0.0 && b > 0.0
    ensures n as real <= a / b < n as real + 1.0
  {
    DivPos(a, b);
    (a / b).Floor
  }

  lemma DivPos(a: real, b: real)
    requires a > 0.0 && b > 0.0
    ensures a / b > 0.0
  {
  }

  /** Moving a cursor by at least `step`, or past the bound, uses up one step. */
  lemma StepsDecrease(gap: real, gap': real, step: real)
    requires step > 0.0 && gap > 0.0
    requires gap' <= gap - step || gap' <= 0.0
    ensures Steps(gap', step) < Steps(gap, step)
  {
    if gap' > 0.0 {
      var q, q' := gap / step, gap' / step;
      assert q' * step == gap' && q * step == gap;
      assert (q - 1.0 - q') * step >= 0.0;
      SignOfProduct(q - 1.0 - q', step);
    }
  }

  lemma SignOfProduct(a: real, b: real)
    requires b > 0.0 && a * b >= 0.0
    ensures a >= 0.0
  {
  }
}
