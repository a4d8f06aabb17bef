/** Quadratic Bézier curves: power-basis coefficients, the stable quadratic
    root formula, and the `QuadCurve` object with its lazily recomputed
    coefficient cache.

    A curve is three control points stored flat as `x0, y0, x1, y1, x2, y2`.
    Per axis, with `v1 = p1 - p0` and `v2 = p2 - p1`, the position is
    `(a * t + b) * t + c` where `a = v2 - v1`, `b = 2 * v1`, `c = p0`. */
module Quadratic {
  import opened Numbers
  import opened Interpolation

  /** The two consecutive differences of three control coordinates. */
  function GetVectors(p0: real, p1: real, p2: real): (v: (real, real))
    ensures p0 + v.0 == p1 && p1 + v.1 == p2
  {
    (p1 - p0, p2 - p1)
  }

  /** The control polygon's vectors grouped by axis: `[v1x, v2x, v1y, v2y]`. */
  function GetCurveVectors(curve: Points3): (r: Points2)
    ensures curve[0] + r[0] == curve[2] && curve[2] + r[1] == curve[4]
    ensures curve[1] + r[2] == curve[3] && curve[3] + r[3] == curve[5]
  {
    var (v1x, v2x) := GetVectors(curve[0], curve[2], curve[4]);
    var (v1y, v2y) := GetVectors(curve[1], curve[3], curve[5]);
    [v1x, v2x, v1y, v2y]
  }

  /** The same vectors interleaved as points: `[v1x, v1y, v2x, v2y]` (the
      `vectors` getter of `QuadCurve`). */
  function InterleavedVectors(curve: Points3): (r: Points2)
    ensures curve[0] + r[0] == curve[2] && curve[2] + r[2] == curve[4]
    ensures curve[1] + r[1] == curve[3] && curve[3] + r[3] == curve[5]
  {
    [curve[2] - curve[0], curve[3] - curve[1], curve[4] - curve[2], curve[5] - curve[3]]
  }

  /** The two vector layouts hold the same four numbers, with the middle two swapped. */
  lemma CurveVectorsRegroup(curve: Points3)
    ensures var g, i := GetCurveVectors(curve), InterleavedVectors(curve);
            g == [i[0], i[2], i[1], i[3]]
  {
  }

  /** Horner evaluation of `a * t^2 + b * t + c`. */
  function QuadAt(a: real, b: real, c: real, t: real): real
  {
    (a * t + b) * t + c
  }

  /** Power-basis coefficients `(a, b, c)` of one axis. The polynomial starts at
      `p0`, ends at `p2` and leaves `p0` with slope `2 * (p1 - p0)`. */
  function GetCoefficients(p0: real, p1: real, p2: real): (k: (real, real, real))
    ensures k.2 == p0
    ensures k.0 + k.1 + k.2 == p2
    ensures k.1 == 2.0 * (p1 - p0)
  {
    var (v1, v2) := GetVectors(p0, p1, p2);
    (v2 - v1, 2.0 * v1, p0)
  }

  /** The power basis agrees with de Casteljau's construction (two levels of
      `lerp`) for every `t`. */
  lemma CoefficientsAreDeCasteljau(p0: real, p1: real, p2: real, t: real)
    ensures var k := GetCoefficients(p0, p1, p2);
            QuadAt(k.0, k.1, k.2, t) == Lerp(Lerp(p0, p1, t), Lerp(p1, p2, t), t)
  {
  }

  /** Coefficients `(2a, b)` of the derivative `2a * t + b`. */
  function GetDerivativeCoefficients(p0: real, p1: real, p2: real): (d: (real, real))
    ensures var k := GetCoefficients(p0, p1, p2); d == (2.0 * k.0, k.1)
  {
    var (v1, v2) := GetVectors(p0, p1, p2);
    (2.0 * v2 - 2.0 * v1, 2.0 * v1)
  }

  /** The derivative coefficients give the slope of the curve: the change over
      a step `h` is `h` times the derivative plus the exact second-order term. */
  lemma DerivativeIsSlope(p0: real, p1: real, p2: real, t: real, h: real)
    ensures var k, d := GetCoefficients(p0, p1, p2), GetDerivativeCoefficients(p0, p1, p2);
            QuadAt(k.0, k.1, k.2, t + h) - QuadAt(k.0, k.1, k.2, t) == h * (d.0 * t + d.1) + k.0 * h * h
  {
  }

  /** The discriminant `b^2 - 4ac`. */
  function Discriminant(a: real, b: real, c: real): real
  {
    b * b - 4.0 * a * c
  }

  /** The helper `q = -(b + sign(b) * sqrt(delta)) / 2` of the stable formula. */
  function StableQ(a: real, b: real, c: real, sqrt: real -> real): real
  {
    -0.5 * (b + sqrt(Discriminant(a, b, c)) * Sign(b))
  }

  /** `quadRoots`: no roots when the discriminant is negative, otherwise the
      pair `[q / a, c / q]`, unfiltered. A zero divisor gives a non-finite entry. */
  function QuadRoots(a: real, b: real, c: real, sqrt: real -> real): (roots: seq<Quotient>)
    ensures |roots| == 0 <==> Discriminant(a, b, c) < 0.0
    ensures |roots| == 0 || |roots| == 2
    ensures |roots| == 2 ==> (roots[0].Finite? <==> a != 0.0)
  {
    if Discriminant(a, b, c) < 0.0 then []
    else
      var q := StableQ(a, b, c, sqrt);
      [Div(q, a), Div(c, q)]
  }

  /** With a real `sqrt`, the helper `q` vanishes exactly when `b` does (because
      `Math.sign(0)` is 0, a zero `b` cancels the square root term). */
  lemma StableQZeroIffLinearTermZero(a: real, b: real, c: real, sqrt: real -> real)
    requires IsSqrt(sqrt)
    requires Discriminant(a, b, c) >= 0.0
    ensures StableQ(a, b, c, sqrt) == 0.0 <==> b == 0.0
  {
    var s := sqrt(Discriminant(a, b, c));
    assert 0.0 <= s;
    if b > 0.0 {
      assert b + s * Sign(b) > 0.0;
    } else if b < 0.0 {
      assert b + s * Sign(b) < 0.0;
    }
  }

  /** `sign(b) * sqrt(delta)` squares back to the discriminant when `b != 0`. */
  lemma SignedRootSquared(a: real, b: real, c: real, sqrt: real -> real)
    requires IsSqrt(sqrt)
    requires Discriminant(a, b, c) >= 0.0 && b != 0.0
    ensures var sigma := sqrt(Discriminant(a, b, c)) * Sign(b);
            sigma * sigma == Discriminant(a, b, c)
  {
    var s := sqrt(Discriminant(a, b, c));
    assert s * s == Discriminant(a, b, c);
    if b < 0.0 {
      assert s * Sign(b) == -s;
      assert (-s) * (-s) == s * s;
    } else {
      assert s * Sign(b) == s;
    }
  }

  /** The defining identity of the stable form: for `q = -(b + sigma) / 2` with
      `sigma^2 = b^2 - 4ac`, `q^2 + b q + a c == 0`. */
  lemma StableQAlgebra(b: real, sigma: real, ac: real)
    requires sigma * sigma == b * b - 4.0 * ac
    ensures var q := -0.5 * (b + sigma); q * q + b * q + ac == 0.0
  {
    var q := -0.5 * (b + sigma);
    assert q * q == 0.25 * (b * b + 2.0 * b * sigma + sigma * sigma);
    assert b * q == -0.5 * (b * b + b * sigma);
  }

  /** `q` satisfies `q^2 + b q + a c == 0` when `b` is non-zero. */
  lemma StableQEquation(a: real, b: real, c: real, sqrt: real -> real)
    requires IsSqrt(sqrt)
    requires Discriminant(a, b, c) >= 0.0 && b != 0.0
    ensures var q := StableQ(a, b, c, sqrt); q * q + b * q + a * c == 0.0
  {
    var sigma := sqrt(Discriminant(a, b, c)) * Sign(b);
    SignedRootSquared(a, b, c, sqrt);
    StableQAlgebra(b, sigma, a * c);
  }

  /** From the equation of `q`, `q / a` is a root. */
  lemma FirstRootSolves(a: real, b: real, c: real, q: real)
    requires a != 0.0 && q * q + b * q + a * c == 0.0
    ensures QuadAt(a, b, c, q / a) == 0.0
  {
    var r := q / a;
    DivTimes(q, a);
    assert q == a * r;
    assert a * (a * r * r + b * r + c) == q * q + b * q + a * c;
    ZeroFactor(a * r * r + b * r + c, a);
  }

  /** From the equation of `q`, `c / q` is a root, and `a * (c / q) == -q - b`. */
  lemma SecondRootSolves(a: real, b: real, c: real, q: real)
    requires q != 0.0 && q * q + b * q + a * c == 0.0
    ensures a * (c / q) == -q - b
    ensures QuadAt(a, b, c, c / q) == 0.0
  {
    var r := c / q;
    DivTimes(c, q);
    assert c == q * r;
    assert q * (q + b + a * r) == q * q + b * q + a * c;
    ZeroFactor(q + b + a * r, q);
    assert QuadAt(a, b, c, r) == r * (a * r + b) + c;
  }

  /** Vieta's formulas for the pair `[q / a, c / q]`. */
  lemma RootsVieta(a: real, b: real, c: real, q: real)
    requires a != 0.0 && q != 0.0 && q * q + b * q + a * c == 0.0
    ensures (q / a) * (c / q) == c / a
    ensures q / a + c / q == -b / a
  {
    var r0, r1 := q / a, c / q;
    DivTimes(q, a);
    DivTimes(c, q);
    DivTimes(c, a);
    assert (r0 * r1) * a == (c / a) * a by {
      assert (r0 * r1) * a == (r0 * a) * r1;
    }
    CancelFactor(r0 * r1, c / a, a);
    SecondRootSolves(a, b, c, q);
    DivTimes(-b, a);
    assert (r0 + r1) * a == (-b / a) * a;
    CancelFactor(r0 + r1, -b / a, a);
  }

  /** The roots `quadRoots` returns solve the equation and obey Vieta's
      formulas, whenever neither division is by zero (`a != 0`, and `b != 0`,
      which is the same as `q != 0`). */
  lemma QuadRootsSolve(a: real, b: real, c: real, sqrt: real -> real)
    requires IsSqrt(sqrt)
    requires a != 0.0 && b != 0.0
    ensures var roots := QuadRoots(a, b, c, sqrt);
            |roots| == 2 ==>
              && roots[0].Finite? && roots[1].Finite?
              && QuadAt(a, b, c, roots[0].value) == 0.0
              && QuadAt(a, b, c, roots[1].value) == 0.0
              && roots[0].value * roots[1].value == c / a
              && roots[0].value + roots[1].value == -b / a
  {
    if Discriminant(a, b, c) >= 0.0 {
      var q := StableQ(a, b, c, sqrt);
      StableQZeroIffLinearTermZero(a, b, c, sqrt);
      StableQEquation(a, b, c, sqrt);
      FirstRootSolves(a, b, c, q);
      SecondRootSolves(a, b, c, q);
      RootsVieta(a, b, c, q);
    }
  }

  /** Degenerate leading coefficient: with `a == 0` and `b != 0` the first
      entry is a division by zero, while the second is the root of the linear
      equation `b t + c == 0`. */
  lemma QuadRootsLinear(b: real, c: real, sqrt: real -> real)
    requires IsSqrt(sqrt)
    requires b != 0.0
    ensures QuadRoots(0.0, b, c, sqrt) == [NonFinite, Finite(-c / b)]
  {
    assert Discriminant(0.0, b, c) == b * b;
    MulPositive(Abs(b), Abs(b));
    var s := sqrt(Discriminant(0.0, b, c));
    SquareRootUnique(s, Abs(b));
    assert s * Sign(b) == b;
    assert StableQ(0.0, b, c, sqrt) == -b;
    assert c / -b == -c / b by {
      DivTimes(c, -b);
      DivTimes(-c, b);
    }
  }

  /** Zero linear coefficient: `q` collapses to 0 (since `Math.sign(0) == 0`),
      so the second entry is always non-finite even when real roots exist,
      e.g. `t^2 - 4` yields `[0, non-finite]` rather than `[-2, 2]`. */
  lemma QuadRootsZeroLinearTerm(a: real, c: real, sqrt: real -> real)
    requires a * c <= 0.0
    ensures QuadRoots(a, 0.0, c, sqrt) == [Div(0.0, a), NonFinite]
  {
    assert Discriminant(a, 0.0, c) >= 0.0;
  }

  /** The cached coefficient layout `[ax, ay, bx, by]` of a curve. */
  function CoefficientCache(curve: Points3): (cache: Points2)
    ensures cache[0] + cache[2] + curve[0] == curve[4]
    ensures cache[1] + cache[3] + curve[1] == curve[5]
    ensures cache[2] == 2.0 * (curve[2] - curve[0]) && cache[3] == 2.0 * (curve[3] - curve[1])
  {
    var kx := GetCoefficients(curve[0], curve[2], curve[4]);
    var ky := GetCoefficients(curve[1], curve[3], curve[5]);
    [kx.0, ky.0, kx.1, ky.1]
  }

  /** The position of the curve at `t`, from the power basis of each axis. */
  function Evaluate(curve: Points3, t: real): (p: Point)
    ensures t == 0.0 ==> p == Point(curve[0], curve[1])
    ensures t == 1.0 ==> p == Point(curve[4], curve[5])
  {
    var kx := GetCoefficients(curve[0], curve[2], curve[4]);
    var ky := GetCoefficients(curve[1], curve[3], curve[5]);
    Point(QuadAt(kx.0, kx.1, kx.2, t), QuadAt(ky.0, ky.1, ky.2, t))
  }

  /** The roots of one axis: `quadRoots(a, b, p0)`. */
  function AxisRoots(p0: real, p1: real, p2: real, sqrt: real -> real): (roots: seq<Quotient>)
    ensures |roots| == 0 || |roots| == 2
    ensures |roots| == 2 ==> (roots[0].Finite? <==> p2 - 2.0 * p1 + p0 != 0.0)
  {
    var k := GetCoefficients(p0, p1, p2);
    QuadRoots(k.0, k.1, p0, sqrt)
  }

  /** Every finite root `roots()` reports for the x axis is a parameter at
      which the curve crosses `x == 0` (and likewise for y). */
  lemma AxisRootsAreCrossings(curve: Points3, sqrt: real -> real)
    requires IsSqrt(sqrt)
    ensures var kx := GetCoefficients(curve[0], curve[2], curve[4]);
            kx.0 != 0.0 && kx.1 != 0.0 ==>
              forall r | r in AxisRoots(curve[0], curve[2], curve[4], sqrt) ::
                r.Finite? && Evaluate(curve, r.value).x == 0.0
    ensures var ky := GetCoefficients(curve[1], curve[3], curve[5]);
            ky.0 != 0.0 && ky.1 != 0.0 ==>
              forall r | r in AxisRoots(curve[1], curve[3], curve[5], sqrt) ::
                r.Finite? && Evaluate(curve, r.value).y == 0.0
  {
    var kx := GetCoefficients(curve[0], curve[2], curve[4]);
    if kx.0 != 0.0 && kx.1 != 0.0 {
      QuadRootsSolve(kx.0, kx.1, kx.2, sqrt);
    }
    var ky := GetCoefficients(curve[1], curve[3], curve[5]);
    if ky.0 != 0.0 && ky.1 != 0.0 {
      QuadRootsSolve(ky.0, ky.1, ky.2, sqrt);
    }
  }

  /** The stationary parameter of each axis, `-b / (2a)`, as `extremas()`
      computes it from an up-to-date cache. */
  function StationaryPoint(curve: Points3): (s: (Quotient, Quotient))
    ensures s.0.Finite? <==> curve[4] - 2.0 * curve[2] + curve[0] != 0.0
    ensures s.1.Finite? <==> curve[5] - 2.0 * curve[3] + curve[1] != 0.0
  {
    var dx := GetDerivativeCoefficients(curve[0], curve[2], curve[4]);
    var dy := GetDerivativeCoefficients(curve[1], curve[3], curve[5]);
    (Div(-dx.1, dx.0), Div(-dy.1, dy.0))
  }

  /** At a finite stationary parameter `v` the axis polynomial differs from its
      value at `v` by exactly `a * (t - v)^2`: `v` is the axis's only extremum
      (a minimum when `a > 0`, a maximum when `a < 0`). */
  lemma StationaryIsExtremum(a: real, b: real, c: real, t: real)
    requires a != 0.0
    ensures var v := -b / (2.0 * a);
            2.0 * a * v + b == 0.0 &&
            QuadAt(a, b, c, t) - QuadAt(a, b, c, v) == a * (t - v) * (t - v)
  {
    var v := -b / (2.0 * a);
    DivTimes(-b, 2.0 * a);
    assert 2.0 * a * v == -b;
    calc {
      QuadAt(a, b, c, t) - QuadAt(a, b, c, v);
      a * (t * t - v * v) + b * (t - v);
      (t - v) * (a * (t + v) + b);
      (t - v) * (a * t + a * v + b);
      (t - v) * (a * t - a * v);
      a * (t - v) * (t - v);
    }
  }

  /** `StationaryPoint` is finite exactly where the axis is truly quadratic,
      and there the axis's derivative vanishes and the axis attains its extremum. */
  lemma StationaryPointIsExtremum(curve: Points3, t: real)
    ensures var k := GetCoefficients(curve[0], curve[2], curve[4]);
            var s := StationaryPoint(curve).0;
            (s.Finite? <==> k.0 != 0.0) &&
            (s.Finite? ==> Evaluate(curve, t).x - Evaluate(curve, s.value).x
                             == k.0 * (t - s.value) * (t - s.value))
    ensures var k := GetCoefficients(curve[1], curve[3], curve[5]);
            var s := StationaryPoint(curve).1;
            (s.Finite? <==> k.0 != 0.0) &&
            (s.Finite? ==> Evaluate(curve, t).y - Evaluate(curve, s.value).y
                             == k.0 * (t - s.value) * (t - s.value))
  {
    var kx := GetCoefficients(curve[0], curve[2], curve[4]);
    if kx.0 != 0.0 {
      StationaryIsExtremum(kx.0, kx.1, kx.2, t);
    }
    var ky := GetCoefficients(curve[1], curve[3], curve[5]);
    if ky.0 != 0.0 {
      StationaryIsExtremum(ky.0, ky.1, ky.2, t);
    }
  }

  /** de Casteljau subdivision of the control polygon at `t`: the control
      points of the left and the right part. */
  function SplitPoints(curve: Points3, t: real): (parts: (Points3, Points3))
    ensures parts.0[..2] == curve[..2]
    ensures parts.1[4..] == curve[4..]
    ensures parts.0[4..] == parts.1[..2]
  {
    var p01x, p01y := Lerp(curve[0], curve[2], t), Lerp(curve[1], curve[3], t);
    var p12x, p12y := Lerp(curve[2], curve[4], t), Lerp(curve[3], curve[5], t);
    var midx, midy := Lerp(p01x, p12x, t), Lerp(p01y, p12y, t);
    ([curve[0], curve[1], p01x, p01y, midx, midy],
     [midx, midy, p12x, p12y, curve[4], curve[5]])
  }

  /** The left part of a subdivision at `t` has the original's coefficients
      scaled by `t^2` and `t`. */
  lemma SplitLeftCoefficients(p0: real, p1: real, p2: real, t: real, l1: real, r1: real, m: real)
    requires l1 == Lerp(p0, p1, t) && r1 == Lerp(p1, p2, t) && m == Lerp(l1, r1, t)
    ensures GetCoefficients(p0, l1, m).0 == GetCoefficients(p0, p1, p2).0 * (t * t)
    ensures GetCoefficients(p0, l1, m).1 == GetCoefficients(p0, p1, p2).1 * t
    ensures GetCoefficients(p0, l1, m).2 == p0
  {
    SplitLeftAlgebra(p0, p1, p2, t);
  }

  lemma SplitLeftAlgebra(p0: real, p1: real, p2: real, t: real)
    ensures var l1, r1 := p0 + (p1 - p0) * t, p1 + (p2 - p1) * t;
            var m := l1 + (r1 - l1) * t;
            (m - l1) - (l1 - p0) == ((p2 - p1) - (p1 - p0)) * (t * t) &&
            2.0 * (l1 - p0) == (2.0 * (p1 - p0)) * t
  {
  }

  /** The right part of a subdivision at `t` is the original re-expanded around
      `t` (value `P(t)`, slope `P'(t)`) and scaled by `1 - t`. */
  lemma SplitRightCoefficients(p0: real, p1: real, p2: real, t: real, l1: real, r1: real, m: real)
    requires l1 == Lerp(p0, p1, t) && r1 == Lerp(p1, p2, t) && m == Lerp(l1, r1, t)
    ensures m == QuadAt(GetCoefficients(p0, p1, p2).0, GetCoefficients(p0, p1, p2).1, p0, t)
    ensures GetCoefficients(m, r1, p2).0 == GetCoefficients(p0, p1, p2).0 * ((1.0 - t) * (1.0 - t))
    ensures GetCoefficients(m, r1, p2).1
              == (GetCoefficients(p0, p1, p2).1 + 2.0 * GetCoefficients(p0, p1, p2).0 * t) * (1.0 - t)
    ensures GetCoefficients(m, r1, p2).2 == m
  {
    SplitRightAlgebra(p0, p1, p2, t);
  }

  lemma SplitRightAlgebra(p0: real, p1: real, p2: real, t: real)
    ensures var l1, r1 := p0 + (p1 - p0) * t, p1 + (p2 - p1) * t;
            var m := l1 + (r1 - l1) * t;
            var a, b := (p2 - p1) - (p1 - p0), 2.0 * (p1 - p0);
            && m == (a * t + b) * t + p0
            && (p2 - r1) - (r1 - m) == a * ((1.0 - t) * (1.0 - t))
            && 2.0 * (r1 - m) == (b + 2.0 * a * t) * (1.0 - t)
  {
  }

  /** One axis of the subdivision: the left part traced over `[0, 1]` is the
      original over `[0, t]`, the right part the original over `[t, 1]`. */
  lemma SplitAxis(p0: real, p1: real, p2: real, t: real, u: real)
    ensures var l1, r1 := Lerp(p0, p1, t), Lerp(p1, p2, t);
            var m := Lerp(l1, r1, t);
            var k, kl, kr := GetCoefficients(p0, p1, p2), GetCoefficients(p0, l1, m), GetCoefficients(m, r1, p2);
            QuadAt(kl.0, kl.1, kl.2, u) == QuadAt(k.0, k.1, k.2, t * u) &&
            QuadAt(kr.0, kr.1, kr.2, u) == QuadAt(k.0, k.1, k.2, t + (1.0 - t) * u)
  {
    var k := GetCoefficients(p0, p1, p2);
    var a, b := k.0, k.1;
    var l1, r1 := Lerp(p0, p1, t), Lerp(p1, p2, t);
    var m := Lerp(l1, r1, t);
    SplitLeftCoefficients(p0, p1, p2, t, l1, r1, m);
    QuadScale(a, b, p0, t, u);
    SplitRightCoefficients(p0, p1, p2, t, l1, r1, m);
    QuadScale(a, b + 2.0 * a * t, m, 1.0 - t, u);
    QuadShift(a, b, p0, t, (1.0 - t) * u);
  }

  /** Scaling the parameter by `t` scales the coefficients by `t^2` and `t`. */
  lemma QuadScale(a: real, b: real, c: real, t: real, u: real)
    ensures QuadAt(a * (t * t), b * t, c, u) == QuadAt(a, b, c, t * u)
  {
  }

  /** Shifting the parameter by `t` re-expands the polynomial around `t`. */
  lemma QuadShift(a: real, b: real, c: real, t: real, s: real)
    ensures QuadAt(a, b, c, t + s) == QuadAt(a, b + 2.0 * a * t, QuadAt(a, b, c, t), s)
  {
  }

  /** Splitting reproduces the original curve: both parts meet at the point
      `at(t)`, and reparameterising them covers the original exactly. */
  lemma SplitReproducesCurve(curve: Points3, t: real, u: real)
    ensures var (left, right) := SplitPoints(curve, t);
            && Evaluate(left, 1.0) == Evaluate(right, 0.0) == Evaluate(curve, t)
            && Evaluate(left, u) == Evaluate(curve, t * u)
            && Evaluate(right, u) == Evaluate(curve, t + (1.0 - t) * u)
  {
    SplitAxis(curve[0], curve[2], curve[4], t, u);
    SplitAxis(curve[1], curve[3], curve[5], t, u);
    SplitAxis(curve[0], curve[2], curve[4], t, 1.0);
    SplitAxis(curve[1], curve[3], curve[5], t, 1.0);
  }

  /** A quadratic curve over a flat six-slot buffer, caching its coefficients
      `[ax, ay, bx, by]` until a control point is replaced. */
  class QuadCurve {
    /** Control points `x0, y0, x1, y1, x2, y2`. */
    const points: array<real>
    /** The cache `_coefficients`: `ax, ay, bx, by`. */
    const coefficients: array<real>
    /** `_dirty`: set when a control point changes, cleared by a recomputation. */
    var dirty: bool

    /** The cache is a pure recomputation from the current points unless dirty. */
    ghost predicate Valid()
      reads this, points, coefficients
    {
      && points.Length == 6
      && coefficients.Length == 4
      && points != coefficients
      && (!dirty ==> coefficients[..] == CoefficientCache(points[..]))
    }

    /** Wraps an existing six-slot buffer without copying it (`new QuadCurve`,
        `fromBuffer`); the cache starts zeroed and dirty. */
    constructor FromBuffer(buffer: array<real>)
      requires buffer.Length == 6
      ensures points == buffer && fresh(coefficients)
      ensures dirty && coefficients[..] == [0.0, 0.0, 0.0, 0.0]
      ensures Valid()
    {
      points := buffer;
      coefficients := new real[4](_ => 0.0);
      dirty := true;
      new;
      assert coefficients[..] == [0.0, 0.0, 0.0, 0.0];
    }

    /** `QuadCurve.of`: a fresh buffer holding the three points. */
    constructor Of(p0: Point, p1: Point, p2: Point)
      ensures fresh(points) && fresh(coefficients)
      ensures points[..] == [p0.x, p0.y, p1.x, p1.y, p2.x, p2.y]
      ensures dirty && coefficients[..] == [0.0, 0.0, 0.0, 0.0]
      ensures Valid()
    {
      var buffer := new real[6];
      buffer[0], buffer[1], buffer[2], buffer[3], buffer[4], buffer[5] := p0.x, p0.y, p1.x, p1.y, p2.x, p2.y;
      points := buffer;
      coefficients := new real[4](_ => 0.0);
      dirty := true;
      new;
      assert coefficients[..] == [0.0, 0.0, 0.0, 0.0];
    }

    /** The start point, where the curve is at `t = 0`. */
    function P0(): (p: Point)
      reads this, points, coefficients
      requires Valid()
      ensures p == Evaluate(points[..], 0.0)
    {
      Point(points[0], points[1])
    }

    /** The middle control point, which fixes the start tangent `b = 2 (p1 - p0)`. */
    function P1(): (p: Point)
      reads this, points, coefficients
      requires Valid()
      ensures p.x == points[0] + GetCoefficients(points[0], points[2], points[4]).1 / 2.0
      ensures p.y == points[1] + GetCoefficients(points[1], points[3], points[5]).1 / 2.0
    {
      Point(points[2], points[3])
    }

    /** The end point, where the curve is at `t = 1`. */
    function P2(): (p: Point)
      reads this, points, coefficients
      requires Valid()
      ensures p == Evaluate(points[..], 1.0)
    {
      Point(points[4], points[5])
    }

    /** The `vectors` getter: `[v1x, v1y, v2x, v2y]`. */
    function Vectors(): (v: Points2)
      reads this, points, coefficients
      requires Valid()
      ensures v == InterleavedVectors(points[..])
    {
      [points[2] - points[0], points[3] - points[1], points[4] - points[2], points[5] - points[3]]
    }

    /** Writes one point into slots `slot` and `slot + 1` and invalidates the cache. */
    method SetPoint(slot: nat, p: Point)
      requires Valid() && slot <= 4 && slot % 2 == 0
      modifies points, this`dirty
      ensures Valid() && dirty
      ensures points[..] == old(points[..])[slot := p.x][slot + 1 := p.y]
    {
      points[slot], points[slot + 1] := p.x, p.y;
      dirty := true;
    }

    /** The setter `p0`: only slots 0 and 1 change, and the cache is marked stale. */
    method SetP0(p: Point)
      requires Valid()
      modifies points, this`dirty
      ensures Valid() && dirty
      ensures points[..] == old(points[..])[0 := p.x][1 := p.y]
    {
      SetPoint(0, p);
    }

    /** The setter `p1`: only slots 2 and 3 change. */
    method SetP1(p: Point)
      requires Valid()
      modifies points, this`dirty
      ensures Valid() && dirty
      ensures points[..] == old(points[..])[2 := p.x][3 := p.y]
    {
      SetPoint(2, p);
    }

    /** The setter `p2`: only slots 4 and 5 change. */
    method SetP2(p: Point)
      requires Valid()
      modifies points, this`dirty
      ensures Valid() && dirty
      ensures points[..] == old(points[..])[4 := p.x][5 := p.y]
    {
      SetPoint(4, p);
    }

    /** Recomputes the cache from the interleaved vectors and clears `dirty`. */
    method CalculateCoefficients()
      requires Valid()
      modifies coefficients, this`dirty
      ensures Valid() && !dirty
      ensures coefficients[..] == CoefficientCache(points[..])
    {
      var v := Vectors();
      var v0x, v0y, v1x, v1y := v[0], v[1], v[2], v[3];
      var aX := v1x - v0x;
      var aY := v1y - v0y;
      var bX := 2.0 * v0x;
      var bY := 2.0 * v0y;
      coefficients[0], coefficients[1] := aX, aY;
      coefficients[2], coefficients[3] := bX, bY;
      dirty := false;
    }

    /** The `coefficients` getter: recomputes only when dirty. */
    method Coefficients() returns (cache: seq<real>)
      requires Valid()
      modifies coefficients, this`dirty
      ensures Valid() && !dirty
      ensures cache == coefficients[..] == CoefficientCache(points[..])
      ensures !old(dirty) ==> unchanged(coefficients)
    {
      if dirty {
        CalculateCoefficients();
      }
      cache := coefficients[..];
    }

    /** The getter `a`: the quadratic coefficient of each axis. */
    method A() returns (a: Point)
      requires Valid()
      modifies coefficients, this`dirty
      ensures Valid() && !dirty
      ensures a == Point(GetCoefficients(points[0], points[2], points[4]).0,
                         GetCoefficients(points[1], points[3], points[5]).0)
    {
      if dirty {
        CalculateCoefficients();
      }
      a := Point(coefficients[0], coefficients[1]);
    }

    /** The getter `b`: the linear coefficient of each axis. */
    method B() returns (b: Point)
      requires Valid()
      modifies coefficients, this`dirty
      ensures Valid() && !dirty
      ensures b == Point(GetCoefficients(points[0], points[2], points[4]).1,
                         GetCoefficients(points[1], points[3], points[5]).1)
    {
      if dirty {
        CalculateCoefficients();
      }
      b := Point(coefficients[2], coefficients[3]);
    }

    /** The getter `c`: the constant coefficient is the start point. */
    function C(): (c: Point)
      reads this, points, coefficients
      requires Valid()
      ensures c == Point(GetCoefficients(points[0], points[2], points[4]).2,
                         GetCoefficients(points[1], points[3], points[5]).2)
    {
      P0()
    }

    /** `at(t)`: the point of the curve at `t`, through the (refreshed) cache. */
    method At(t: real) returns (p: Point)
      requires Valid()
      modifies coefficients, this`dirty
      ensures Valid() && !dirty
      ensures p == Evaluate(points[..], t)
    {
      var cache := Coefficients();
      var aX, aY, bX, bY := cache[0], cache[1], cache[2], cache[3];
      var c := C();
      assert [aX, aY, bX, bY] == CoefficientCache(points[..]);
      var x := (aX * t + bX) * t + c.x;
      var y := (aY * t + bY) * t + c.y;
      p := Point(x, y);
    }

    /** `roots()`: `quadRoots(a, b, c)` for each axis on its own. */
    method Roots(sqrt: real -> real) returns (xRoots: seq<Quotient>, yRoots: seq<Quotient>)
      requires Valid()
      modifies coefficients, this`dirty
      ensures Valid() && !dirty
      ensures xRoots == AxisRoots(points[0], points[2], points[4], sqrt)
      ensures yRoots == AxisRoots(points[1], points[3], points[5], sqrt)
    {
      var a := A();
      var b := B();
      var c := C();
      xRoots := QuadRoots(a.x, b.x, c.x, sqrt);
      yRoots := QuadRoots(a.y, b.y, c.y, sqrt);
    }

    /** `extremas()`: `-b / (2a)` per axis, read straight from the cache without
        refreshing it. With a fresh cache this is the stationary point of the
        current curve; with a stale one it belongs to the points the cache was
        last computed from (all zeros, hence non-finite, before any computation). */
    method Extremas() returns (e: (Quotient, Quotient))
      requires Valid()
      ensures e == (Div(-coefficients[2], 2.0 * coefficients[0]), Div(-coefficients[3], 2.0 * coefficients[1]))
      ensures !dirty ==> e == StationaryPoint(points[..])
    {
      var aX, aY, bX, bY := coefficients[0], coefficients[1], coefficients[2], coefficients[3];
      e := (Div(-bX, 2.0 * aX), Div(-bY, 2.0 * aY));
    }

    /** `splitAt(t)`: two fresh curves from de Casteljau subdivision; this
        curve's points and cache flag are left as they were. */
    method SplitAt(t: real) returns (left: QuadCurve, right: QuadCurve)
      requires Valid()
      ensures fresh(left) && fresh(left.points) && fresh(left.coefficients) && left.Valid() && left.dirty
      ensures fresh(right) && fresh(right.points) && fresh(right.coefficients) && right.Valid() && right.dirty
      ensures (left.points[..], right.points[..]) == SplitPoints(points[..], t)
    {
      var p0, p1, p2 := P0(), P1(), P2();
      var p01x := Lerp(p0.x, p1.x, t);
      var p01y := Lerp(p0.y, p1.y, t);
      var p12x := Lerp(p1.x, p2.x, t);
      var p12y := Lerp(p1.y, p2.y, t);
      left := new QuadCurve.Of(p0, Point(p01x, p01y), Point(Lerp(p01x, p12x, t), Lerp(p01y, p12y, t)));
      right := new QuadCurve.Of(left.P2(), Point(p12x, p12y), p2);
    }

    /** `split()`: the subdivision at the parameter midpoint. */
    method Split() returns (left: QuadCurve, right: QuadCurve)
      requires Valid()
      ensures fresh(left) && fresh(left.points) && fresh(left.coefficients) && left.Valid() && left.dirty
      ensures fresh(right) && fresh(right.points) && fresh(right.coefficients) && right.Valid() && right.dirty
      ensures (left.points[..], right.points[..]) == SplitPoints(points[..], 0.5)
    {
      left, right := SplitAt(0.5);
    }
  }
}
