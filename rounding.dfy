/**
 * Python's `round(x, digits)` on exact reals, and the two helpers of the
 * floor class that apply it to a tuple (`round_tuple`) and to a list of
 * tuples (`round_2d_list`).
 */
module Rounding {

  /** 10^d. */
  function Pow10(d: nat): (r: int)
    ensures r >= 1
  {
    if d == 0 then 1 else 10 * Pow10(d - 1)
  }

  function Abs(x: real): real { if x < 0.0 then -x else x }

  /**
   * The nearest integer to `r`; an exact half goes to the even neighbour,
   * as Python 3's `round` does.
   */
  function RoundHalfEven(r: real): (n: int)
    ensures Abs(r - n as real) <= 0.5
    ensures Abs(r - n as real) == 0.5 ==> n % 2 == 0
  {
    var f := r.Floor;
    var frac := r - f as real;
    if frac < 0.5 then f
    else if frac > 0.5 then f + 1
    else if f % 2 == 0 then f
    else f + 1
  }

  /** An integer is its own nearest integer. */
  lemma RoundHalfEvenOfInt(n: int)
    ensures RoundHalfEven(n as real) == n
  {
  }

  /** `x` scaled so that the kept decimal places become the integer part. */
  function Scaled(x: real, digits: nat): real {
    x * Pow10(digits) as real
  }

  lemma DivMul(a: real, p: real)
    requires p > 0.0
    ensures (a / p) * p == a
  {
  }

  lemma MulCancel(a: real, b: real, p: real)
    requires p > 0.0 && a * p == b * p
    ensures a == b
  {
  }

  /** Scaling by a positive power of ten is injective. */
  lemma ScaledInjective(a: real, b: real, digits: nat)
    requires Scaled(a, digits) == Scaled(b, digits)
    ensures a == b
  {
    MulCancel(a, b, Pow10(digits) as real);
  }

  /**
   * `round(x, digits)`: the number with at most `digits` decimals nearest
   * to `x`, that is, `r * 10^digits` is the integer nearest to
   * `x * 10^digits`.
   */
  function Round(x: real, digits: nat): (r: real)
    ensures Scaled(r, digits) == RoundHalfEven(Scaled(x, digits)) as real
    ensures Abs(Scaled(r, digits) - Scaled(x, digits)) <= 0.5
  {
    DivMul(RoundHalfEven(Scaled(x, digits)) as real, Pow10(digits) as real);
    RoundHalfEven(Scaled(x, digits)) as real / Pow10(digits) as real
  }

  /** Rounding a number that already has at most `digits` decimals leaves it alone. */
  lemma {:induction false} RoundIdempotent(x: real, digits: nat)
    ensures Round(Round(x, digits), digits) == Round(x, digits)
  {
    var once := Round(x, digits);
    RoundHalfEvenOfInt(RoundHalfEven(Scaled(x, digits)));
    ScaledInjective(Round(once, digits), once, digits);
  }

  /** `round_tuple(tup, digits)`: every component rounded. */
  function RoundTuple(tup: seq<real>, digits: nat := 4): (r: seq<real>)
    ensures |r| == |tup|
    ensures forall i :: 0 <= i < |r| ==>
              Scaled(r[i], digits) == RoundHalfEven(Scaled(tup[i], digits)) as real
  {
    seq(|tup|, i requires 0 <= i < |tup| => Round(tup[i], digits))
  }

  /** `round_2d_list(li, digits)`: every tuple of the list rounded. */
  function RoundTwoDList(li: seq<seq<real>>, digits: nat := 4): (r: seq<seq<real>>)
    ensures |r| == |li|
    ensures forall i :: 0 <= i < |r| ==> |r[i]| == |li[i]|
    ensures forall i, j :: 0 <= i < |r| && 0 <= j < |r[i]| ==>
              Scaled(r[i][j], digits) == RoundHalfEven(Scaled(li[i][j], digits)) as real
  {
    seq(|li|, i requires 0 <= i < |li| => RoundTuple(li[i], digits))
  }

  /** Rounding a tuple twice is rounding it once: the rounded corner points are stable keys. */
  lemma RoundTupleIdempotent(tup: seq<real>, digits: nat)
    ensures RoundTuple(RoundTuple(tup, digits), digits) == RoundTuple(tup, digits)
  {
    var once := RoundTuple(tup, digits);
    forall i | 0 <= i < |tup|
      ensures RoundTuple(once, digits)[i] == once[i]
    {
      RoundIdempotent(tup[i], digits);
    }
  }

  lemma RoundTwoDListIdempotent(li: seq<seq<real>>, digits: nat)
    ensures RoundTwoDList(RoundTwoDList(li, digits), digits) == RoundTwoDList(li, digits)
  {
    forall i | 0 <= i < |li|
      ensures RoundTwoDList(RoundTwoDList(li, digits), digits)[i] == RoundTwoDList(li, digits)[i]
    {
      RoundTupleIdempotent(li[i], digits);
    }
  }
}
