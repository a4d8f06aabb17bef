/** Numeric vocabulary shared by the curve and graph modules.

    Dafny's `real` stands for JavaScript's `number` and for the slots of a
    `Float32Array`: the model is exact arithmetic, so every property proved
    here is an algebraic identity, not a statement about rounding. */
module Numbers {

  /** A point `[x, y]`; also used for a pair of per-axis values. */
  datatype Point = Point(x: real, y: real)

  /** Flat interleaved layouts `x0, y0, x1, y1, ...` of two, three and four points. */
  type Points2 = s: seq<real> | |s| == 4 witness [0.0, 0.0, 0.0, 0.0]
  type Points3 = s: seq<real> | |s| == 6 witness [0.0, 0.0, 0.0, 0.0, 0.0, 0.0]
  type Points4 = s: seq<real> | |s| == 8 witness [0.0, 0.0, 0.0, 0.0, 0.0, 0.0, 0.0, 0.0]

  /** `Math.min` and `Math.max` on two finite numbers. */
  function Min(a: real, b: real): real { if a <= b then a else b }
  function Max(a: real, b: real): real { if a <= b then b else a }

  function Abs(x: real): real { if x < 0.0 then -x else x }

  /** `Math.sign` on a finite number: -1, 0 or 1 (0 for 0, not NaN). */
  function Sign(x: real): (s: real)
    ensures s == -1.0 || s == 0.0 || s == 1.0
    ensures s * x == Abs(x)
    ensures s == 0.0 <==> x == 0.0
  {
    if x > 0.0 then 1.0 else if x < 0.0 then -1.0 else 0.0
  }

  /** The outcome of a JavaScript division of two finite numbers: a finite
      quotient, or one of Infinity, -Infinity, NaN when the divisor is zero
      (the model does not tell those three apart). */
  datatype Quotient = Finite(value: real) | NonFinite

  function Div(x: real, y: real): (q: Quotient)
    ensures q.Finite? <==> y != 0.0
    ensures q.Finite? ==> q.value * y == x
  {
    if y == 0.0 then NonFinite else Finite(x / y)
  }

  /** `sqrt` behaves as `Math.sqrt` on the non-negative numbers. */
  ghost predicate IsSqrt(sqrt: real -> real)
  {
    forall x :: 0.0 <= x ==> 0.0 <= sqrt(x) && sqrt(x) * sqrt(x) == x
  }

  /** Arithmetic facts the nonlinear proofs are given explicitly. */
  lemma MulNonNegative(x: real, y: real)
    requires 0.0 <= x && 0.0 <= y
    ensures 0.0 <= x * y
  {
  }

  lemma DivSelf(x: real)
    requires x != 0.0
    ensures x / x == 1.0
  {
  }

  lemma DivTimes(x: real, y: real)
    requires y != 0.0
    ensures (x / y) * y == x
  {
  }

  /** A product is zero only when a factor is. */
  lemma ZeroFactor(x: real, y: real)
    requires x * y == 0.0 && y != 0.0
    ensures x == 0.0
  {
  }

  lemma CancelFactor(x: real, z: real, y: real)
    requires x * y == z * y && y != 0.0
    ensures x == z
  {
    assert (x - z) * y == 0.0;
    ZeroFactor(x - z, y);
  }

  /** Non-negative square roots are unique. */
  lemma SquareRootUnique(s: real, r: real)
    requires 0.0 <= s && 0.0 <= r && s * s == r * r
    ensures s == r
  {
    assert (s - r) * (s + r) == s * s - r * r;
    if s + r != 0.0 {
      ZeroFactor(s - r, s + r);
    }
  }

  lemma MulPositive(x: real, y: real)
    requires 0.0 < x && 0.0 < y
    ensures 0.0 < x * y
  {
  }

  lemma DivCancel(x: real, y: real)
    requires y != 0.0
    ensures (y * x) / y == x
  {
  }
}
