/**
 * `sort_corner_points`: orders the corner points of a board
 * counter-clockwise around their centroid, by an angle key computed with
 * `atan`, using an insertion sort.
 */
module CornerSort {
  import opened Wrappers
  import opened Geometry

  /** The `[ang, pt]` pairs the sort works on. */
  datatype Keyed = Keyed(angle: real, point: seq<real>)

  ghost predicate AllPlanar(points: seq<seq<real>>) {
    forall k :: 0 <= k < |points| ==> |points[k]| == 2
  }

  /** The vector sum of the points (`center += Vector(pt)`). */
  function SumPoints(points: seq<seq<real>>): Vec2
    requires AllPlanar(points)
  {
    if |points| == 0 then Vec2(0.0, 0.0)
    else
      var s := SumPoints(points[..|points| - 1]);
      var q := points[|points| - 1];
      Vec2(s.x + q[0], s.y + q[1])
  }

  /**
   * The arithmetic mean of the points (`center /= len(points)`); the
   * origin for an empty list.
   */
  function Centroid(points: seq<seq<real>>): (c: Vec2)
    requires AllPlanar(points)
    ensures |points| > 0 ==>
              c.x * |points| as real == SumPoints(points).x && c.y * |points| as real == SumPoints(points).y
  {
    if |points| == 0 then Vec2(0.0, 0.0)
    else
      var s := SumPoints(points);
      Vec2(s.x / |points| as real, s.y / |points| as real)
  }

  /** The sum of the offsets of the points from `c`. */
  function SumOffsets(points: seq<seq<real>>, c: Vec2): Vec2
    requires AllPlanar(points)
  {
    if |points| == 0 then Vec2(0.0, 0.0)
    else
      var s := SumOffsets(points[..|points| - 1], c);
      var q := points[|points| - 1];
      Vec2(s.x + (q[0] - c.x), s.y + (q[1] - c.y))
  }

  lemma {:induction false} SumOffsetsIsShiftedSum(points: seq<seq<real>>, c: Vec2)
    requires AllPlanar(points)
    ensures SumOffsets(points, c).x == SumPoints(points).x - |points| as real * c.x
    ensures SumOffsets(points, c).y == SumPoints(points).y - |points| as real * c.y
  {
    if |points| > 0 {
      SumOffsetsIsShiftedSum(points[..|points| - 1], c);
    }
  }

  /** The centroid balances the points: their offsets from it sum to the zero vector. */
  lemma CentroidBalances(points: seq<seq<real>>)
    requires AllPlanar(points)
    ensures SumOffsets(points, Centroid(points)) == Vec2(0.0, 0.0)
  {
    SumOffsetsIsShiftedSum(points, Centroid(points));
  }

  /**
   * In exact arithmetic a single corner point is its own centroid, so its
   * angle key divides by zero and the sort of one point fails. The
   * original computes the centroid in single precision, where the
   * rounded centroid may differ from the point.
   */
  lemma SinglePointIsItsCentroid(pt: seq<real>)
    requires |pt| == 2
    ensures Centroid([pt]) == Vec2(pt[0], pt[1])
  {
    assert [pt][..0] == [];
    assert SumPoints([pt]) == Vec2(pt[0], pt[1]);
  }

  /** A point whose angle key can be computed: not straight above or below the center. */
  predicate Keyable(pt: seq<real>, center: Vec2) {
    |pt| == 2 && pt[0] != center.x
  }

  /**
   * The angle key of a point around the center: `atan` of the slope, plus
   * `radians(180)` on the left half, plus the literal `360` below the
   * center on the right half.
   */
  function Angle(pt: seq<real>, center: Vec2, atan: real -> real): (r: real)
    requires Keyable(pt, center)
    ensures AtanRange(atan) && pt[0] > center.x && pt[1] >= center.y ==> -PI / 2.0 < r < PI / 2.0
    ensures AtanRange(atan) && pt[0] < center.x ==> PI / 2.0 < r < 3.0 * PI / 2.0
    ensures AtanRange(atan) && pt[0] > center.x && pt[1] < center.y ==> 360.0 - PI / 2.0 < r < 360.0 + PI / 2.0
  {
    var ang := atan((pt[1] - center.y) / (pt[0] - center.x));
    if pt[0] < center.x then ang + PI
    else if pt[1] < center.y then ang + 360.0
    else ang
  }

  ghost predicate SortedByAngle(s: seq<seq<real>>, center: Vec2, atan: real -> real) {
    forall i, j :: 0 <= i < j < |s| && Keyable(s[i], center) && Keyable(s[j], center) ==>
      Angle(s[i], center, atan) <= Angle(s[j], center, atan)
  }

  function PointsOf(s: seq<Keyed>): (r: seq<seq<real>>)
    ensures |r| == |s| && forall i :: 0 <= i < |s| ==> r[i] == s[i].point
  {
    seq(|s|, i requires 0 <= i < |s| => s[i].point)
  }

  lemma PointsOfInsert(s: seq<Keyed>, i: nat, e: Keyed)
    requires i <= |s|
    ensures multiset(PointsOf(s[..i] + [e] + s[i..])) == multiset(PointsOf(s)) + multiset{e.point}
  {
    assert PointsOf(s[..i] + [e] + s[i..]) == PointsOf(s)[..i] + [e.point] + PointsOf(s)[i..];
    assert PointsOf(s) == PointsOf(s)[..i] + PointsOf(s)[i..];
  }

  predicate AngleSorted(s: seq<Keyed>) {
    forall a, b :: 0 <= a < b < |s| ==> s[a].angle <= s[b].angle
  }

  lemma InsertKeepsSorted(s: seq<Keyed>, i: nat, e: Keyed)
    requires i <= |s| && AngleSorted(s)
    requires forall q :: 0 <= q < i ==> s[q].angle < e.angle
    requires forall q :: i <= q < |s| ==> s[q].angle >= e.angle
    ensures AngleSorted(s[..i] + [e] + s[i..])
  {
    var t := s[..i] + [e] + s[i..];
    forall a, b | 0 <= a < b < |t|
      ensures t[a].angle <= t[b].angle
    {
      if b < i {
        assert t[a] == s[a] && t[b] == s[b];
      } else if b == i {
        assert t[a] == s[a];
      } else if a == i {
        assert t[b] == s[b - 1];
      } else if a < i {
        assert t[a] == s[a] && t[b] == s[b - 1];
      } else {
        assert t[a] == s[a - 1] && t[b] == s[b - 1];
      }
    }
  }

  lemma InsertKeepsMembers(s: seq<Keyed>, i: nat, e: Keyed, u: seq<Keyed>)
    requires i <= |s| && e in u
    requires forall q :: 0 <= q < |s| ==> s[q] in u
    ensures forall q :: 0 <= q < |s| + 1 ==> (s[..i] + [e] + s[i..])[q] in u
  {
    var t := s[..i] + [e] + s[i..];
    forall q | 0 <= q < |t|
      ensures t[q] in u
    {
      if q < i {
        assert t[q] == s[q];
      } else if q > i {
        assert t[q] == s[q - 1];
      }
    }
  }

  /** The first loop of `sort_corner_points`: the centroid of the points. */
  method FindCenter(points: seq<seq<real>>) returns (center: Vec2)
    requires AllPlanar(points)
    ensures center == Centroid(points)
  {
    center := Vec2(0.0, 0.0);
    var k := 0;
    while k < |points|
      invariant 0 <= k <= |points|
      invariant center == SumPoints(points[..k])
    {
      assert points[..k + 1][..k] == points[..k];
      center := Vec2(center.x + points[k][0], center.y + points[k][1]);
      k := k + 1;
    }
    assert points[..|points|] == points;
    if |points| != 0 {
      center := Vec2(center.x / |points| as real, center.y / |points| as real);
    } else {
      center := Vec2(0.0, 0.0);
    }
  }

  /**
   * The second loop of `sort_corner_points`: pairs each point with its
   * angle key, failing on the first point with the center's x.
   */
  method FindAngles(points: seq<seq<real>>, center: Vec2, atan: real -> real) returns (r: Result<seq<Keyed>>)
    requires AllPlanar(points)
    ensures r.Err? <==> exists k :: 0 <= k < |points| && points[k][0] == center.x
    ensures r.Ok? ==> |r.value| == |points|
    ensures r.Ok? ==> forall q :: 0 <= q < |points| ==>
              Keyable(points[q], center) && r.value[q] == Keyed(Angle(points[q], center, atan), points[q])
  {
    var unsorted: seq<Keyed> := [];
    var k := 0;
    while k < |points|
      invariant 0 <= k <= |points|
      invariant |unsorted| == k
      invariant forall q :: 0 <= q < k ==> points[q][0] != center.x
      invariant forall q :: 0 <= q < k ==> unsorted[q] == Keyed(Angle(points[q], center, atan), points[q])
    {
      var pt := points[k];
      if pt[0] - center.x == 0.0 {
        return Err(ZeroDivision);
      }
      var ang := atan((pt[1] - center.y) / (pt[0] - center.x));
      if pt[0] < center.x {
        ang := ang + PI;
      } else if pt[1] < center.y {
        ang := ang + 360.0;
      }
      unsorted := unsorted + [Keyed(ang, pt)];
      k := k + 1;
    }
    r := Ok(unsorted);
  }

  /**
   * `sorted_.insert(i, pt)` on a list sorted by angle: `pt` goes before
   * the first pair whose angle is not smaller than its own, so before every
   * pair with an equal angle.
   */
  function InsertBefore(sorted: seq<Keyed>, pt: Keyed): (r: seq<Keyed>)
    ensures |r| == |sorted| + 1
    decreases |sorted|
  {
    if sorted == [] || sorted[0].angle >= pt.angle then [pt] + sorted
    else [sorted[0]] + InsertBefore(sorted[1..], pt)
  }

  /** The pairs of `items` inserted one after the other, in order, into an empty list. */
  function InsertAll(items: seq<Keyed>): (r: seq<Keyed>)
    ensures |r| == |items|
  {
    if items == [] then []
    else InsertBefore(InsertAll(items[..|items| - 1]), items[|items| - 1])
  }

  /**
   * Splitting a list at the index just past every smaller angle and
   * before every other one, and putting `pt` there, is `InsertBefore`.
   */
  lemma {:induction false} InsertBeforeAt(s: seq<Keyed>, i: nat, pt: Keyed)
    requires i <= |s|
    requires forall q :: 0 <= q < i ==> s[q].angle < pt.angle
    requires forall q :: i <= q < |s| ==> s[q].angle >= pt.angle
    ensures InsertBefore(s, pt) == s[..i] + [pt] + s[i..]
    decreases |s|
  {
    if s == [] {
    } else if s[0].angle >= pt.angle {
      assert i == 0;
    } else {
      InsertBeforeAt(s[1..], i - 1, pt);
      assert s[..i] == [s[0]] + s[1..][..i - 1];
      assert s[i..] == s[1..][i - 1..];
    }
  }

  /** One round of the third loop of `sort_corner_points` is one more `InsertBefore`. */
  lemma InsertAllStep(unsorted: seq<Keyed>, k: nat, sorted: seq<Keyed>, i: nat)
    requires k < |unsorted| && sorted == InsertAll(unsorted[..k]) && i <= |sorted|
    requires forall q :: 0 <= q < i ==> sorted[q].angle < unsorted[k].angle
    requires forall q :: i <= q < |sorted| ==> sorted[q].angle >= unsorted[k].angle
    ensures InsertAll(unsorted[..k + 1]) == sorted[..i] + [unsorted[k]] + sorted[i..]
  {
    InsertBeforeAt(sorted, i, unsorted[k]);
    assert unsorted[..k + 1][..k] == unsorted[..k];
  }

  /**
   * The inner loop of the insertion sort of `sort_corner_points`: the
   * index just past the last pair with a smaller angle than `pt`. In a
   * sorted list every pair before it has a smaller angle and none after.
   */
  method InsertionIndex(sorted: seq<Keyed>, pt: Keyed) returns (i: nat)
    requires AngleSorted(sorted)
    ensures i <= |sorted|
    ensures forall q :: 0 <= q < i ==> sorted[q].angle < pt.angle
    ensures forall q :: i <= q < |sorted| ==> sorted[q].angle >= pt.angle
  {
    i := 0;
    var pos := 0;
    while pos < |sorted|
      invariant 0 <= i <= pos <= |sorted|
      invariant forall q :: 0 <= q < i ==> sorted[q].angle < pt.angle
      invariant forall q :: i <= q < pos ==> sorted[q].angle >= pt.angle
    {
      if pt.angle > sorted[pos].angle {
        i := pos + 1;  // the new key is larger, so it belongs after this pair
      }
      pos := pos + 1;
    }
  }

  /**
   * The third loop of `sort_corner_points`: inserts each pair at the index
   * just past every pair with a smaller angle.
   */
  method InsertionSortByAngle(unsorted: seq<Keyed>) returns (sorted: seq<Keyed>)
    ensures multiset(PointsOf(sorted)) == multiset(PointsOf(unsorted))
    ensures forall q :: 0 <= q < |sorted| ==> sorted[q] in unsorted
    ensures AngleSorted(sorted)
    ensures sorted == InsertAll(unsorted)
  {
    sorted := [];
    var k := 0;
    while k < |unsorted|
      invariant 0 <= k <= |unsorted|
      invariant AngleSorted(sorted)
      invariant sorted == InsertAll(unsorted[..k])
      invariant multiset(PointsOf(sorted)) == multiset(PointsOf(unsorted[..k]))
      invariant forall q :: 0 <= q < |sorted| ==> sorted[q] in unsorted
    {
      var pt := unsorted[k];
      var i := InsertionIndex(sorted, pt);
      PointsOfInsert(sorted, i, pt);
      assert unsorted[..k + 1] == unsorted[..k] + [pt];
      assert PointsOf(unsorted[..k + 1]) == PointsOf(unsorted[..k]) + [pt.point];
      InsertKeepsSorted(sorted, i, pt);
      InsertKeepsMembers(sorted, i, pt, unsorted);
      InsertAllStep(unsorted, k, sorted, i);
      sorted := sorted[..i] + [pt] + sorted[i..];
      k := k + 1;
    }
    assert unsorted[..|unsorted|] == unsorted;
  }

  /** The `[ang, pt]` pairs of the second loop of `sort_corner_points`, in the order of the points. */
  function KeyedAll(points: seq<seq<real>>, center: Vec2, atan: real -> real): (r: seq<Keyed>)
    requires forall q :: 0 <= q < |points| ==> Keyable(points[q], center)
    ensures |r| == |points|
  {
    seq(|points|, q requires 0 <= q < |points| => Keyed(Angle(points[q], center, atan), points[q]))
  }

  /**
   * `sort_corner_points(points)`. The Python raises ZeroDivisionError when
   * a point has the centroid's x; that is the `Err` result here.
   */
  method SortCornerPoints(points: seq<seq<real>>, atan: real -> real) returns (r: Result<seq<seq<real>>>)
    requires AllPlanar(points)
    ensures r.Err? <==> exists k :: 0 <= k < |points| && points[k][0] == Centroid(points).x
    ensures r.Ok? ==> multiset(r.value) == multiset(points)
    ensures r.Ok? ==> AllPlanar(r.value)
    ensures r.Ok? ==> forall i :: 0 <= i < |r.value| ==> Keyable(r.value[i], Centroid(points))
    ensures r.Ok? ==> SortedByAngle(r.value, Centroid(points), atan)
    ensures r.Ok? ==> && (forall q :: 0 <= q < |points| ==> Keyable(points[q], Centroid(points)))
                      && r.value == PointsOf(InsertAll(KeyedAll(points, Centroid(points), atan)))
  {
    var center := FindCenter(points);
    var angles := FindAngles(points, center, atan);
    if angles.Err? {
      return Err(angles.error);
    }
    var unsorted := angles.value;
    var sorted := InsertionSortByAngle(unsorted);
    assert PointsOf(unsorted) == points;
    assert unsorted == KeyedAll(points, center, atan);
    r := Ok(PointsOf(sorted));
    forall i | 0 <= i < |r.value|
      ensures |r.value[i]| == 2
    {
      PermutedMember(r.value, points, i);
    }
  }

  /** An item of a permutation of `b` is an item of `b`. */
  lemma PermutedMember<T>(a: seq<T>, b: seq<T>, k: int)
    requires multiset(a) == multiset(b) && 0 <= k < |a|
    ensures a[k] in b
  {
    assert a[k] in multiset(a);
  }

  /** The angle key `radians(360)` would give in place of the literal `360`. */
  function AngleTwoPi(pt: seq<real>, center: Vec2, atan: real -> real): real
    requires Keyable(pt, center)
  {
    var ang := atan((pt[1] - center.y) / (pt[0] - center.x));
    if pt[0] < center.x then ang + PI
    else if pt[1] < center.y then ang + 2.0 * PI
    else ang
  }

  /** `atan` returns values strictly between -pi/2 and pi/2. */
  ghost predicate AtanRange(atan: real -> real) {
    forall t :: -PI / 2.0 < atan(t) < PI / 2.0
  }

  /**
   * Adding `360` below the center on the right half orders the points as
   * adding `radians(360)` would: the right-upper keys stay below the
   * left-half keys, which stay below the right-lower keys.
   */
  lemma {:induction false} AngleOrderAgreesWithTwoPi(p: seq<real>, q: seq<real>, center: Vec2, atan: real -> real)
    requires AtanRange(atan) && Keyable(p, center) && Keyable(q, center)
    ensures Angle(p, center, atan) <= Angle(q, center, atan) <==> AngleTwoPi(p, center, atan) <= AngleTwoPi(q, center, atan)
  {
    var a := atan((p[1] - center.y) / (p[0] - center.x));
    var b := atan((q[1] - center.y) / (q[0] - center.x));
    assert -PI / 2.0 < a < PI / 2.0 && -PI / 2.0 < b < PI / 2.0;
  }

  /** So the sort orders the points the same way the evidently intended key would. */
  lemma SortedByAngleAgreesWithTwoPi(s: seq<seq<real>>, center: Vec2, atan: real -> real)
    requires AtanRange(atan)
    ensures SortedByAngle(s, center, atan) <==>
            forall i, j :: 0 <= i < j < |s| && Keyable(s[i], center) && Keyable(s[j], center) ==>
              AngleTwoPi(s[i], center, atan) <= AngleTwoPi(s[j], center, atan)
  {
    forall i, j | 0 <= i < j < |s| && Keyable(s[i], center) && Keyable(s[j], center)
      ensures Angle(s[i], center, atan) <= Angle(s[j], center, atan) <==>
              AngleTwoPi(s[i], center, atan) <= AngleTwoPi(s[j], center, atan)
    {
      AngleOrderAgreesWithTwoPi(s[i], s[j], center, atan);
    }
  }
}
