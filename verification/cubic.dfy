/** Cubic Bézier curves: power-basis coefficients, two evaluators (Horner form
    and nested interpolation) and the `CubicCurve` object with its lazily
    recomputed coefficient cache.

    A curve is four control points stored flat as `x0, y0, ..., x3, y3`.
    Per axis, with `v1 = p1 - p0`, `v2 = p2 - p1`, `v3 = p3 - p2`, the position
    is `((a * t + b) * t + c) * t + d` where `a = v3 - 2 v2 + v1`,
    `b = 3 (v2 - v1)`, `c = 3 v1` and `d = p0`. */
module Cubic {
  import opened Numbers
  import opened Interpolation

  /** The three consecutive control-point differences, interleaved
      `[v1x, v1y, v2x, v2y, v3x, v3y]`. */
  function GetVectors(curve: Points4): (v: Points3)
    ensures forall i :: 0 <= i < 6 ==> curve[i] + v[i] == curve[i + 2]
    ensures curve[0] + v[0] + v[2] + v[4] == curve[6]
    ensures curve[1] + v[1] + v[3] + v[5] == curve[7]
  {
    [curve[2] - curve[0], curve[3] - curve[1],
     curve[4] - curve[2], curve[5] - curve[3],
     curve[6] - curve[4], curve[7] - curve[5]]
  }

  /** Horner evaluation of `a t^3 + b t^2 + c t + d`. */
  function CubicAt(a: real, b: real, c: real, d: real, t: real): real
  {
    ((a * t + b) * t + c) * t + d
  }

  /** Power-basis coefficients `[ax, ay, bx, by, cx, cy, dx, dy]`. The
      polynomial starts at `p0`, ends at `p3`, and its slopes at the two ends
      are `3 (p1 - p0)` and `3 (p3 - p2)`. */
  function GetCoefficients(curve: Points4): (k: Points4)
    ensures k[6] == curve[0] && k[7] == curve[1]
    ensures k[0] + k[2] + k[4] == curve[6] - curve[0]
    ensures k[1] + k[3] + k[5] == curve[7] - curve[1]
    ensures k[4] == 3.0 * (curve[2] - curve[0]) && k[5] == 3.0 * (curve[3] - curve[1])
    ensures 3.0 * k[0] + 2.0 * k[2] + k[4] == 3.0 * (curve[6] - curve[4])
    ensures 3.0 * k[1] + 2.0 * k[3] + k[5] == 3.0 * (curve[7] - curve[5])
  {
    var v := GetVectors(curve);
    var v1x, v1y, v2x, v2y, v3x, v3y := v[0], v[1], v[2], v[3], v[4], v[5];
    [v3x - v2x - v2x + v1x, v3y - v2y - v2y + v1y,
     3.0 * (v2x - v1x), 3.0 * (v2y - v1y),
     3.0 * v1x, 3.0 * v1y,
     curve[0], curve[1]]
  }

  /** Coefficients `[3ax, 3ay, 2bx, 2by, cx, cy]` of the derivative
      `3a t^2 + 2b t + c`. Evaluated at the ends they give the Bezier end
      tangents: `3 (p1 - p0)` at `t = 0` and `3 (p3 - p2)` at `t = 1`. */
  function GetDerivativeCoefficients(curve: Points4): (d: Points3)
    ensures d[4] == 3.0 * (curve[2] - curve[0]) && d[5] == 3.0 * (curve[3] - curve[1])
    ensures d[0] + d[2] + d[4] == 3.0 * (curve[6] - curve[4])
    ensures d[1] + d[3] + d[5] == 3.0 * (curve[7] - curve[5])
  {
    var k := GetCoefficients(curve);
    var aX, aY, bX, bY, cX, cY := k[0], k[1], k[2], k[3], k[4], k[5];
    [3.0 * aX, 3.0 * aY, 2.0 * bX, 2.0 * bY, cX, cY]
  }

  /** The exact change of a cubic over a step `h`: the derivative's first-order
      term plus the second- and third-order remainders. */
  lemma CubicStep(a: real, b: real, c: real, d: real, t: real, h: real)
    ensures CubicAt(a, b, c, d, t + h) - CubicAt(a, b, c, d, t)
            == h * ((3.0 * a * t + 2.0 * b) * t + c) + h * h * (3.0 * a * t + b) + a * h * h * h
  {
  }

  /** The derivative coefficients give the slope of each axis. */
  lemma DerivativeIsSlope(curve: Points4, t: real, h: real)
    ensures var k, dk := GetCoefficients(curve), GetDerivativeCoefficients(curve);
            CubicAt(k[0], k[2], k[4], k[6], t + h) - CubicAt(k[0], k[2], k[4], k[6], t)
              == h * ((dk[0] * t + dk[2]) * t + dk[4]) + h * h * (3.0 * k[0] * t + k[2]) + k[0] * h * h * h
    ensures var k, dk := GetCoefficients(curve), GetDerivativeCoefficients(curve);
            CubicAt(k[1], k[3], k[5], k[7], t + h) - CubicAt(k[1], k[3], k[5], k[7], t)
              == h * ((dk[1] * t + dk[3]) * t + dk[5]) + h * h * (3.0 * k[1] * t + k[3]) + k[1] * h * h * h
  {
    var k := GetCoefficients(curve);
    CubicStep(k[0], k[2], k[4], k[6], t, h);
    CubicStep(k[1], k[3], k[5], k[7], t, h);
  }

  /** `evalT`: the point at `t` by Horner's rule on the coefficients. */
  function EvalT(curve: Points4, t: real): (p: Point)
    ensures t == 0.0 ==> p == Point(curve[0], curve[1])
    ensures t == 1.0 ==> p == Point(curve[6], curve[7])
  {
    var k := GetCoefficients(curve);
    var aX, aY, bX, bY, cX, cY, dX, dY := k[0], k[1], k[2], k[3], k[4], k[5], k[6], k[7];
    Point(((aX * t + bX) * t + cX) * t + dX, ((aY * t + bY) * t + cY) * t + dY)
  }

  /** `evalIndependentT`: de Casteljau's construction (three levels of `lerp`)
      with its own parameter per axis. */
  function EvalIndependentT(curve: Points4, tPoint: Point): (p: Point)
    ensures tPoint.x == 0.0 ==> p.x == curve[0]
    ensures tPoint.x == 1.0 ==> p.x == curve[6]
    ensures tPoint.y == 0.0 ==> p.y == curve[1]
    ensures tPoint.y == 1.0 ==> p.y == curve[7]
  {
    var tx, ty := tPoint.x, tPoint.y;
    var p01x, p01y := Lerp(curve[0], curve[2], tx), Lerp(curve[1], curve[3], ty);
    var p12x, p12y := Lerp(curve[2], curve[4], tx), Lerp(curve[3], curve[5], ty);
    var p23x, p23y := Lerp(curve[4], curve[6], tx), Lerp(curve[5], curve[7], ty);
    Point(Lerp(Lerp(p01x, p12x, tx), Lerp(p12x, p23x, tx), tx),
          Lerp(Lerp(p01y, p12y, ty), Lerp(p12y, p23y, ty), ty))
  }

  /** One axis: nested interpolation equals the Horner form of the power basis. */
  lemma DeCasteljauIsHorner(p0: real, p1: real, p2: real, p3: real, t: real)
    ensures var l1, l2, l3 := p0 + (p1 - p0) * t, p1 + (p2 - p1) * t, p2 + (p3 - p2) * t;
            var m1, m2 := l1 + (l2 - l1) * t, l2 + (l3 - l2) * t;
            var v1, v2, v3 := p1 - p0, p2 - p1, p3 - p2;
            m1 + (m2 - m1) * t == ((((v3 - v2 - v2 + v1) * t + 3.0 * (v2 - v1)) * t + 3.0 * v1) * t + p0)
  {
  }

  /** One axis of `evalIndependentT` is the Horner form of that axis's
      coefficients. */
  lemma AxisAgrees(p0: real, p1: real, p2: real, p3: real, t: real)
    ensures Lerp(Lerp(Lerp(p0, p1, t), Lerp(p1, p2, t), t), Lerp(Lerp(p1, p2, t), Lerp(p2, p3, t), t), t)
            == CubicAt((p3 - p2) - (p2 - p1) - (p2 - p1) + (p1 - p0), 3.0 * ((p2 - p1) - (p1 - p0)),
                       3.0 * (p1 - p0), p0, t)
  {
    DeCasteljauIsHorner(p0, p1, p2, p3, t);
  }

  /** `evalT` is the Horner form of the coefficients on each axis. */
  lemma EvalTIsHorner(curve: Points4, t: real)
    ensures var k := GetCoefficients(curve);
            EvalT(curve, t) == Point(CubicAt(k[0], k[2], k[4], k[6], t), CubicAt(k[1], k[3], k[5], k[7], t))
  {
  }

  /** The cache holds the first six coefficients, entry by entry. */
  lemma CacheEntries(curve: Points4, cache: seq<real>)
    requires cache == CoefficientCache(curve)
    ensures var k := GetCoefficients(curve);
            && cache[0] == k[0] && cache[1] == k[1] && cache[2] == k[2]
            && cache[3] == k[3] && cache[4] == k[4] && cache[5] == k[5]
  {
  }

  /** Horner evaluation from the cached coefficients, with the start point as
      constant term, is `evalT`. */
  lemma CachedHorner(curve: Points4, cache: seq<real>, t: real)
    requires |cache| == 6
    requires var k := GetCoefficients(curve);
             && cache[0] == k[0] && cache[1] == k[1] && cache[2] == k[2]
             && cache[3] == k[3] && cache[4] == k[4] && cache[5] == k[5]
    ensures EvalT(curve, t) == Point(CubicAt(cache[0], cache[2], cache[4], curve[0], t),
                                     CubicAt(cache[1], cache[3], cache[5], curve[1], t))
  {
    EvalTIsHorner(curve, t);
  }

  /** The two evaluators agree axis by axis, for any pair of parameters; with
      the same parameter on both axes they give the same point. */
  lemma EvaluatorsAgree(curve: Points4, tx: real, ty: real)
    ensures EvalIndependentT(curve, Point(tx, ty)) == Point(EvalT(curve, tx).x, EvalT(curve, ty).y)
    ensures EvalIndependentT(curve, Point(tx, tx)) == EvalT(curve, tx)
  {
    AxisAgrees(curve[0], curve[2], curve[4], curve[6], tx);
    AxisAgrees(curve[1], curve[3], curve[5], curve[7], ty);
    AxisAgrees(curve[1], curve[3], curve[5], curve[7], tx);
    EvalTIsHorner(curve, tx);
    EvalTIsHorner(curve, ty);
  }

  /** The symmetric test curve (0,0), (10,10), (20,-10), (30,0). */
  const ExampleCurve: Points4 := [0.0, 0.0, 10.0, 10.0, 20.0, -10.0, 30.0, 0.0]

  /** Both evaluators put the test curve's midpoint at (15, 0). */
  lemma ExampleMidpoint()
    ensures EvalT(ExampleCurve, 0.5) == Point(15.0, 0.0)
    ensures EvalIndependentT(ExampleCurve, Point(0.5, 0.5)) == Point(15.0, 0.0)
  {
  }

  /** The cached coefficient layout `[ax, ay, bx, by, cx, cy]`: the first six
      entries of `GetCoefficients`. */
  function CoefficientCache(curve: Points4): (cache: Points3)
    ensures cache[0] + cache[2] + cache[4] + curve[0] == curve[6]
    ensures cache[1] + cache[3] + cache[5] + curve[1] == curve[7]
    ensures cache[4] == 3.0 * (curve[2] - curve[0]) && cache[5] == 3.0 * (curve[3] - curve[1])
  {
    GetCoefficients(curve)[..6]
  }

  /** A cubic curve over a flat eight-slot buffer, caching `[ax, ay, bx, by,
      cx, cy]` until a control point is replaced. */
  class CubicCurve {
    /** Control points `x0, y0, x1, y1, x2, y2, x3, y3`. */
    const points: array<real>
    /** The cache `_coefficients`. */
    const coefficients: array<real>
    /** `_dirty`: set when a control point changes, cleared by a recomputation. */
    var dirty: bool

    /** The cache is a pure recomputation from the current points unless dirty. */
    ghost predicate Valid()
      reads this, points, coefficients
    {
      && points.Length == 8
      && coefficients.Length == 6
      && points != coefficients
      && (!dirty ==> coefficients[..] == CoefficientCache(points[..]))
    }

    /** Wraps an existing eight-slot buffer without copying it (`new
        CubicCurve`, `fromBuffer`); the cache starts zeroed and dirty. */
    constructor FromBuffer(buffer: array<real>)
      requires buffer.Length == 8
      ensures points == buffer && fresh(coefficients)
      ensures dirty && coefficients[..] == [0.0, 0.0, 0.0, 0.0, 0.0, 0.0]
      ensures Valid()
    {
      points := buffer;
      coefficients := new real[6](_ => 0.0);
      dirty := true;
      new;
      assert coefficients[..] == [0.0, 0.0, 0.0, 0.0, 0.0, 0.0];
    }

    /** `CubicCurve.of`: a fresh buffer laid out `x0, y0, ..., x3, y3`. */
    constructor Of(p0: Point, p1: Point, p2: Point, p3: Point)
      ensures fresh(points) && fresh(coefficients)
      ensures points[..] == [p0.x, p0.y, p1.x, p1.y, p2.x, p2.y, p3.x, p3.y]
      ensures dirty && coefficients[..] == [0.0, 0.0, 0.0, 0.0, 0.0, 0.0]
      ensures Valid()
    {
      var buffer := new real[8];
      buffer[0], buffer[1], buffer[2], buffer[3] := p0.x, p0.y, p1.x, p1.y;
      buffer[4], buffer[5], buffer[6], buffer[7] := p2.x, p2.y, p3.x, p3.y;
      points := buffer;
      coefficients := new real[6](_ => 0.0);
      dirty := true;
      new;
      assert coefficients[..] == [0.0, 0.0, 0.0, 0.0, 0.0, 0.0];
    }

    /** The start point, where the curve is at `t = 0`. */
    function P0(): (p: Point)
      reads this, points, coefficients
      requires Valid()
      ensures p == EvalT(points[..], 0.0)
    {
      Point(points[0], points[1])
    }

    /** The first inner control point, which fixes the start tangent `c = 3 (p1 - p0)`. */
    function P1(): (p: Point)
      reads this, points, coefficients
      requires Valid()
      ensures p.x == points[0] + GetCoefficients(points[..])[4] / 3.0
      ensures p.y == points[1] + GetCoefficients(points[..])[5] / 3.0
    {
      Point(points[2], points[3])
    }

    /** The second inner control point, which fixes the end tangent `3a + 2b + c = 3 (p3 - p2)`. */
    function P2(): (p: Point)
      reads this, points, coefficients
      requires Valid()
      ensures var k := GetCoefficients(points[..]);
              p.x == points[6] - (3.0 * k[0] + 2.0 * k[2] + k[4]) / 3.0
      ensures var k := GetCoefficients(points[..]);
              p.y == points[7] - (3.0 * k[1] + 2.0 * k[3] + k[5]) / 3.0
    {
      Point(points[4], points[5])
    }

    /** The end point, where the curve is at `t = 1`. */
    function P3(): (p: Point)
      reads this, points, coefficients
      requires Valid()
      ensures p == EvalT(points[..], 1.0)
    {
      Point(points[6], points[7])
    }

    /** The `vectors` getter. */
    function Vectors(): (v: Points3)
      reads this, points, coefficients
      requires Valid()
      ensures v == GetVectors(points[..])
    {
      [points[2] - points[0], points[3] - points[1], points[4] - points[2],
       points[5] - points[3], points[6] - points[4], points[7] - points[5]]
    }

    /** Writes one point into slots `slot` and `slot + 1` and invalidates the cache. */
    method SetPoint(slot: nat, p: Point)
      requires Valid() && slot <= 6 && slot % 2 == 0
      modifies points, this`dirty
      ensures Valid() && dirty
      ensures points[..] == old(points[..])[slot := p.x][slot + 1 := p.y]
    {
      points[slot], points[slot + 1] := p.x, p.y;
      dirty := true;
    }

    /** The setter `p0`: only slots 0 and 1 change, and the cache is marked stale. */
    method SetP0(p: Point)
      requires Valid()
      modifies points, this`dirty
      ensures Valid() && dirty
      ensures points[..] == old(points[..])[0 := p.x][1 := p.y]
    {
      SetPoint(0, p);
    }

    /** The setter `p1`: only slots 2 and 3 change. */
    method SetP1(p: Point)
      requires Valid()
      modifies points, this`dirty
      ensures Valid() && dirty
      ensures points[..] == old(points[..])[2 := p.x][3 := p.y]
    {
      SetPoint(2, p);
    }

    /** The setter `p2`: only slots 4 and 5 change. */
    method SetP2(p: Point)
      requires Valid()
      modifies points, this`dirty
      ensures Valid() && dirty
      ensures points[..] == old(points[..])[4 := p.x][5 := p.y]
    {
      SetPoint(4, p);
    }

    /** The setter `p3`: only slots 6 and 7 change. */
    method SetP3(p: Point)
      requires Valid()
      modifies points, this`dirty
      ensures Valid() && dirty
      ensures points[..] == old(points[..])[6 := p.x][7 := p.y]
    {
      SetPoint(6, p);
    }

    /** Recomputes the cache from the vectors and clears `dirty`. */
    method CalculateCoefficients()
      requires Valid()
      modifies coefficients, this`dirty
      ensures Valid() && !dirty
      ensures coefficients[..] == CoefficientCache(points[..])
    {
      var v := Vectors();
      var v1x, v1y, v2x, v2y, v3x, v3y := v[0], v[1], v[2], v[3], v[4], v[5];
      var aX := v3x - v2x - v2x + v1x;
      var aY := v3y - v2y - v2y + v1y;
      var bX := 3.0 * (v2x - v1x);
      var bY := 3.0 * (v2y - v1y);
      var cX := 3.0 * v1x;
      var cY := 3.0 * v1y;
      coefficients[0], coefficients[1], coefficients[2] := aX, aY, bX;
      coefficients[3], coefficients[4], coefficients[5] := bY, cX, cY;
      dirty := false;
    }

    /** The `coefficients` getter: recomputes only when dirty. */
    method Coefficients() returns (cache: seq<real>)
      requires Valid()
      modifies coefficients, this`dirty
      ensures Valid() && !dirty
      ensures cache == coefficients[..] == CoefficientCache(points[..])
      ensures !old(dirty) ==> unchanged(coefficients)
    {
      if dirty {
        CalculateCoefficients();
      }
      cache := coefficients[..];
    }

    /** The getter `a`: the cubic coefficient of each axis. */
    method A() returns (a: Point)
      requires Valid()
      modifies coefficients, this`dirty
      ensures Valid() && !dirty
      ensures a == Point(GetCoefficients(points[..])[0], GetCoefficients(points[..])[1])
    {
      if dirty {
        CalculateCoefficients();
      }
      a := Point(coefficients[0], coefficients[1]);
    }

    /** The getter `b`: the quadratic coefficient of each axis. */
    method B() returns (b: Point)
      requires Valid()
      modifies coefficients, this`dirty
      ensures Valid() && !dirty
      ensures b == Point(GetCoefficients(points[..])[2], GetCoefficients(points[..])[3])
    {
      if dirty {
        CalculateCoefficients();
      }
      b := Point(coefficients[2], coefficients[3]);
    }

    /** The getter `c`: the linear coefficient of each axis. */
    method C() returns (c: Point)
      requires Valid()
      modifies coefficients, this`dirty
      ensures Valid() && !dirty
      ensures c == Point(GetCoefficients(points[..])[4], GetCoefficients(points[..])[5])
    {
      if dirty {
        CalculateCoefficients();
      }
      c := Point(coefficients[4], coefficients[5]);
    }

    /** The getter `d`: the constant coefficient is the start point, read from
        the points without consulting the cache. */
    function D(): (d: Point)
      reads this, points, coefficients
      requires Valid()
      ensures d == Point(GetCoefficients(points[..])[6], GetCoefficients(points[..])[7])
    {
      Point(points[0], points[1])
    }

    /** `at(t)`: the point of the curve at `t`, through the (refreshed) cache;
        the same point `evalT` computes from the control points. */
    method At(t: real) returns (p: Point)
      requires Valid()
      modifies coefficients, this`dirty
      ensures Valid() && !dirty
      ensures p == EvalT(points[..], t)
    {
      var cache := Coefficients();
      var d := D();
      CacheEntries(points[..], cache);
      CachedHorner(points[..], cache, t);
      p := Point(CubicAt(cache[0], cache[2], cache[4], d.x, t),
                 CubicAt(cache[1], cache[3], cache[5], d.y, t));
    }
  }
}
