# Bézier curves and graph coordinate boxes, modelled in Dafny

This project models the numeric core of a 2D Bézier toolkit and of the graph
utilities of its documentation site. It covers:

- **Scalar helpers** (`lerp.dfy`, `copy_sign.dfy`):
  - linear interpolation `lerp`, its inverse `inverseLerp`, and `remap`;
  - `copySign`.
- **Quadratic curves** (`quadratic.dfy`):
  - the pure helpers that turn three control coordinates into power-basis coefficients and derivative coefficients;
  - the stable-form root solver `quadRoots`;
  - the `QuadCurve` object. It holds a six-slot point buffer and a coefficient cache, and a `_dirty` flag guards the cache. It offers evaluation `at`, per-axis `roots`, `extremas` and de Casteljau subdivision `splitAt`/`split`.
- **Cubic curves** (`cubic.dfy`):
  - coefficient and derivative extraction;
  - two evaluators: Horner form `evalT` and nested interpolation `evalIndependentT`;
  - the `CubicCurve` object, with the same dirty-flag cache over an eight-slot buffer.
- **Coordinate boxes of the graphs** (`graph_utils.dfy`):
  - mapping a coordinate into view space;
  - converting between ranges and boxes;
  - reading the unit of a `NumberUnit`;
  - `calculateVisibleCoordBox`, which pads a coordinate box and widens one axis so that the box has the view's aspect ratio counted in grid steps.
- **Dash patterns** (`graph_styles.dfy`): `getStrokeDashArray`.

JavaScript numbers and `Float32Array` slots are modelled as Dafny `real`, so
every property below is an exact algebraic identity or a state invariant. The
model makes no claim about rounding. `numbers.dfy` holds the shared vocabulary:
- points, and the flat layouts `Points2`/`Points3`/`Points4`;
- `Math.min`, `Math.max` and `Math.sign`;
- `Quotient`, the outcome of a division whose divisor may be zero: a finite value, or `NonFinite` (which stands for Infinity, -Infinity and NaN alike).

`Math.sqrt` is passed in as a function parameter. Lemmas that rely on it
require `IsSqrt(sqrt)`: the result is non-negative and squares back to the
argument.

The two curve classes keep the source's state as fields:
- a `points` array;
- a `coefficients` array;
- a `dirty` flag.

Their invariant `Valid()` states that a clean cache equals the pure
recomputation from the current points. Every setter, getter and
recomputation keeps that invariant. `calculateVisibleCoordBox` is a method
that reassigns the interval ends step by step, as the source does. It is
proved equal to the specification function `VisibleCoordBox`, and the
fitting properties are proved about that function.

## Model

| member | source | states |
|---|---|---|
| Interpolation.Lerp | packages/math/src/utils/lerp.ts:4-6 | `t = 0` gives `a` and `t = 1` gives `b` |
| Interpolation.InverseLerp | packages/math/src/utils/lerp.ts:8-10 | for distinct ends, `a` maps to 0, `b` to 1, and interpolating at the result gives back `v` |
| Interpolation.Remap | packages/math/src/utils/lerp.ts:12-20 | for distinct source ends, `a` goes to `c` and `b` to `d` |
| Interpolation.LerpBetween | packages/math/src/utils/lerp.ts:4-6 | for `t` in [0, 1] the result lies between `min(a, b)` and `max(a, b)` |
| Interpolation.InverseLerpOfLerp | packages/math/src/utils/lerp.ts:4-10 | `inverseLerp(a, b, lerp(a, b, t)) == t` when `a != b` |
| Interpolation.RemapPreservesFraction | packages/math/src/utils/lerp.ts:12-20 | a point a fraction `t` through `[a, b]` is sent the same fraction through `[c, d]` |
| Interpolation.LerpExamples | packages/math/src/utils/lerp.test.ts:5-9 | the four values the unit test expects (5, 0, 10, 15) |
| CopySign.CopySign | packages/math/src/utils/copy-sign.ts:1-3 | result is `n` or `-n` with the same magnitude; unchanged when the signs agree; takes the sign of `sign` when both are non-zero; a zero `sign` negates a non-zero `n`; zero stays zero |
| Numbers.Sign | packages/math/src/quadratic/base.ts:50 | `Math.sign` of a finite number is -1, 0 or 1, is 0 exactly at 0, and `sign(x) * x == abs(x)` |
| Numbers.Div | packages/math/src/quadratic/base.ts:52 | a division is finite exactly when the divisor is non-zero, and then the quotient times the divisor is the dividend |
| Quadratic.GetVectors | packages/math/src/quadratic/base.ts:4-12 | the two vectors are the consecutive differences: `p0 + v1 == p1`, `p1 + v2 == p2` |
| Quadratic.GetCurveVectors | packages/math/src/quadratic/base.ts:14-17 | the vectors grouped by axis `[v1x, v2x, v1y, v2y]` lead from point to point |
| Quadratic.InterleavedVectors | packages/math/src/quadratic/base.ts:116-119 | the interleaved layout `[v1x, v1y, v2x, v2y]` leads from point to point |
| Quadratic.CurveVectorsRegroup | packages/math/src/quadratic/base.ts:14-17 | the two layouts hold the same numbers with the middle two swapped |
| Quadratic.GetCoefficients | packages/math/src/quadratic/base.ts:19-29 | `c == p0`, `a + b + c == p2`, and `b` is twice the first vector |
| Quadratic.CoefficientsAreDeCasteljau | packages/math/src/quadratic/base.ts:19-29 | the power basis equals two levels of `lerp` for every `t` |
| Quadratic.GetDerivativeCoefficients | packages/math/src/quadratic/base.ts:31-41 | the derivative coefficients are `(2a, b)` of `getCoefficients` |
| Quadratic.DerivativeIsSlope | packages/math/src/quadratic/base.ts:31-41 | the exact change over a step `h` is `h` times the derivative plus `a h^2` |
| Quadratic.QuadRoots | packages/math/src/quadratic/base.ts:43-53 | no roots exactly when the discriminant is negative, otherwise two; the first is finite exactly when `a != 0` |
| Quadratic.StableQZeroIffLinearTermZero | packages/math/src/quadratic/base.ts:49-50 | `q == 0` exactly when `b == 0` |
| Quadratic.StableQEquation | packages/math/src/quadratic/base.ts:45-50 | for `b != 0`, `q^2 + b q + a c == 0` |
| Quadratic.FirstRootSolves | packages/math/src/quadratic/base.ts:52 | `q / a` solves the quadratic |
| Quadratic.SecondRootSolves | packages/math/src/quadratic/base.ts:52 | `c / q` solves the quadratic |
| Quadratic.RootsVieta | packages/math/src/quadratic/base.ts:52 | the pair's product is `c / a` and its sum `-b / a` |
| Quadratic.QuadRootsSolve | packages/math/src/quadratic/base.ts:43-53 | when `a != 0` and `b != 0`, both returned values are finite roots obeying Vieta's formulas |
| Quadratic.QuadRootsLinear | packages/math/src/quadratic/base.ts:43-53 | with `a == 0` and `b != 0` the result is a non-finite entry followed by the root `-c / b` of the linear equation |
| Quadratic.QuadRootsZeroLinearTerm | packages/math/src/quadratic/base.ts:50-52 | with `b == 0` and real roots, `q` collapses to 0, so the second entry is non-finite |
| Quadratic.CoefficientCache | packages/math/src/quadratic/base.ts:131-143 | the cache layout `[ax, ay, bx, by]`: per axis `a + b + p0 == p2` and `b == 2 (p1 - p0)` |
| Quadratic.Evaluate | packages/math/src/quadratic/base.ts:145-151 | the curve passes through `p0` at 0 and through `p2` at 1 |
| Quadratic.AxisRoots | packages/math/src/quadratic/base.ts:153-162 | one axis of `roots()` yields none or two entries, and the first is finite exactly when the axis is truly quadratic (`p2 - 2 p1 + p0 != 0`) |
| Quadratic.AxisRootsAreCrossings | packages/math/src/quadratic/base.ts:153-162 | on an axis with non-zero `a` and `b`, every root `roots()` reports is finite and the curve's coordinate there is 0 |
| Quadratic.StationaryPoint | packages/math/src/quadratic/base.ts:163-169 | `-b / (2a)` per axis is finite exactly when that axis is truly quadratic |
| Quadratic.StationaryIsExtremum | packages/math/src/quadratic/base.ts:163-169 | at `-b / (2a)` the derivative vanishes and the polynomial differs from its value there by `a (t - v)^2` |
| Quadratic.StationaryPointIsExtremum | packages/math/src/quadratic/base.ts:163-169 | the stationary parameter is finite exactly when the axis's `a != 0`, and it is that axis's extremum |
| Quadratic.SplitPoints | packages/math/src/quadratic/base.ts:173-188 | left starts at `p0`, right ends at `p2`, and the two parts share their joining point |
| Quadratic.SplitLeftCoefficients | packages/math/src/quadratic/base.ts:174-184 | the left part's coefficients are the original's scaled by `t^2` and `t` |
| Quadratic.SplitRightCoefficients | packages/math/src/quadratic/base.ts:177-185 | the joining point is `at(t)`; the right part is the original re-expanded around `t` and scaled by `1 - t` |
| Quadratic.SplitAxis | packages/math/src/quadratic/base.ts:173-188 | per axis, the left part over [0, 1] traces the original over [0, t], and the right part traces it over [t, 1] |
| Quadratic.QuadScale | packages/math/src/quadratic/base.ts:173-188 | scaling the parameter scales the coefficients by `t^2` and `t` |
| Quadratic.QuadShift | packages/math/src/quadratic/base.ts:173-188 | shifting the parameter re-expands the polynomial around the shift |
| Quadratic.SplitReproducesCurve | packages/math/src/quadratic/base.ts:170-188 | both parts meet at `at(t)`, and reparameterised they cover the original curve exactly |
| Quadratic.QuadCurve.FromBuffer | packages/math/src/quadratic/base.ts:121-129 | wraps the given buffer; the cache starts zeroed and dirty; the invariant holds |
| Quadratic.QuadCurve.Of | packages/math/src/quadratic/base.ts:124-126 | a fresh buffer laid out `x0, y0, x1, y1, x2, y2`, dirty, invariant established |
| Quadratic.QuadCurve.P0 | packages/math/src/quadratic/base.ts:60-62 | the getter returns the point the curve passes through at `t = 0` |
| Quadratic.QuadCurve.P1 | packages/math/src/quadratic/base.ts:63-65 | the getter returns the middle control point, which lies half the start tangent `b` beyond `p0` |
| Quadratic.QuadCurve.P2 | packages/math/src/quadratic/base.ts:66-68 | the getter returns the point the curve passes through at `t = 1` |
| Quadratic.QuadCurve.Vectors | packages/math/src/quadratic/base.ts:116-119 | the getter returns the interleaved vectors of the current points |
| Quadratic.QuadCurve.SetPoint | packages/math/src/quadratic/base.ts:69-80 | only the two slots of the point change; dirty is set; the invariant is kept |
| Quadratic.QuadCurve.SetP0 | packages/math/src/quadratic/base.ts:69-72 | only slots 0 and 1 change and the cache is marked stale |
| Quadratic.QuadCurve.SetP1 | packages/math/src/quadratic/base.ts:73-76 | only slots 2 and 3 change and the cache is marked stale |
| Quadratic.QuadCurve.SetP2 | packages/math/src/quadratic/base.ts:77-80 | only slots 4 and 5 change and the cache is marked stale |
| Quadratic.QuadCurve.CalculateCoefficients | packages/math/src/quadratic/base.ts:131-143 | afterwards the cache equals `getCoefficients` of the current points, and dirty is cleared |
| Quadratic.QuadCurve.Coefficients | packages/math/src/quadratic/base.ts:89-94 | returns the up-to-date cache; a clean cache is not rewritten |
| Quadratic.QuadCurve.A | packages/math/src/quadratic/base.ts:96-101 | the quadratic coefficient of each axis of the current points |
| Quadratic.QuadCurve.B | packages/math/src/quadratic/base.ts:102-107 | the linear coefficient of each axis of the current points |
| Quadratic.QuadCurve.C | packages/math/src/quadratic/base.ts:109-111 | the constant coefficient of each axis, which is `p0` |
| Quadratic.QuadCurve.At | packages/math/src/quadratic/base.ts:145-151 | the point computed through the cache is the curve's point at `t` for the current control points |
| Quadratic.QuadCurve.Roots | packages/math/src/quadratic/base.ts:153-162 | each axis's roots are `quadRoots(a, b, p0)` of the current points |
| Quadratic.QuadCurve.Extremas | packages/math/src/quadratic/base.ts:163-169 | reads the cache without refreshing it; with a clean cache the result is the stationary point of the current curve |
| Quadratic.QuadCurve.SplitAt | packages/math/src/quadratic/base.ts:173-188 | two fresh dirty curves holding the de Casteljau subdivision; this curve is left untouched |
| Quadratic.QuadCurve.Split | packages/math/src/quadratic/base.ts:170-172 | the subdivision at 0.5 |
| Cubic.GetVectors | packages/math/src/cubic/base.ts:5-33 | consecutive differences, so that `p0 + v1 + v2 + v3 == p3` per axis |
| Cubic.GetCoefficients | packages/math/src/cubic/base.ts:35-48 | last two entries are `p0`; `a + b + c == p3 - p0`; end slopes `3 (p1 - p0)` and `3 (p3 - p2)` |
| Cubic.GetDerivativeCoefficients | packages/math/src/cubic/base.ts:50-63 | the derivative, evaluated at the ends, gives the Bézier end tangents: `3 (p1 - p0)` at `t = 0` and `3 (p3 - p2)` at `t = 1` |
| Cubic.DerivativeIsSlope | packages/math/src/cubic/base.ts:50-63 | per axis, the change over a step `h` is `h` times the derivative plus the exact higher-order terms |
| Cubic.EvalT | packages/math/src/cubic/base.ts:65-72 | `evalT(curve, 0) == p0` and `evalT(curve, 1) == p3` |
| Cubic.EvalIndependentT | packages/math/src/cubic/base.ts:74-102 | each axis starts at `p0` when its own parameter is 0 and ends at `p3` when it is 1, independently of the other axis |
| Cubic.DeCasteljauIsHorner | packages/math/src/cubic/base.ts:89-99 | per axis, three levels of `lerp` equal the Horner form of the coefficients |
| Cubic.AxisAgrees | packages/math/src/cubic/base.ts:89-99 | one axis of `evalIndependentT` is the Horner form of that axis's coefficients |
| Cubic.EvaluatorsAgree | packages/math/src/cubic/base.ts:65-102 | `evalIndependentT(curve, [tx, ty])` is `evalT`'s x at `tx` and y at `ty`, so `[t, t]` gives `evalT(curve, t)` |
| Cubic.ExampleMidpoint | packages/math/src/cubic/base.test.ts:19-46 | both evaluators put the test curve's midpoint at (15, 0) |
| Cubic.CoefficientCache | packages/math/src/cubic/base.ts:214-227 | the cache layout `[ax, ay, bx, by, cx, cy]`: per axis `a + b + c + p0 == p3` and `c == 3 (p1 - p0)` |
| Cubic.CubicCurve.FromBuffer | packages/math/src/cubic/base.ts:211-213 | `fromBuffer` (through the constructor) wraps the given buffer; the cache starts zeroed and dirty; the invariant holds |
| Cubic.CubicCurve.Of | packages/math/src/cubic/base.ts:208-210 | a fresh buffer laid out `x0, y0, ..., x3, y3`, dirty, invariant established |
| Cubic.CubicCurve.P0 | packages/math/src/cubic/base.ts:130-132 | the getter returns `evalT` of the current points at `t = 0` |
| Cubic.CubicCurve.P1 | packages/math/src/cubic/base.ts:133-135 | the getter returns the control point a third of the start tangent `c` beyond `p0` |
| Cubic.CubicCurve.P2 | packages/math/src/cubic/base.ts:136-138 | the getter returns the control point a third of the end tangent `3a + 2b + c` before `p3` |
| Cubic.CubicCurve.P3 | packages/math/src/cubic/base.ts:140-142 | the getter returns `evalT` of the current points at `t = 1` |
| Cubic.CubicCurve.Vectors | packages/math/src/cubic/base.ts:204-207 | the getter equals `getVectors` of the current points |
| Cubic.CubicCurve.SetPoint | packages/math/src/cubic/base.ts:144-159 | only the two slots of the point change; dirty is set; the invariant is kept |
| Cubic.CubicCurve.SetP0 | packages/math/src/cubic/base.ts:144-147 | only slots 0 and 1 change and the cache is marked stale |
| Cubic.CubicCurve.SetP1 | packages/math/src/cubic/base.ts:148-151 | only slots 2 and 3 change and the cache is marked stale |
| Cubic.CubicCurve.SetP2 | packages/math/src/cubic/base.ts:152-155 | only slots 4 and 5 change and the cache is marked stale |
| Cubic.CubicCurve.SetP3 | packages/math/src/cubic/base.ts:156-159 | only slots 6 and 7 change and the cache is marked stale |
| Cubic.CubicCurve.CalculateCoefficients | packages/math/src/cubic/base.ts:214-227 | afterwards the cache equals the first six entries of `getCoefficients` of the current points, and dirty is cleared |
| Cubic.CubicCurve.Coefficients | packages/math/src/cubic/base.ts:167-172 | returns the up-to-date cache; a clean cache is not rewritten |
| Cubic.CubicCurve.A | packages/math/src/cubic/base.ts:174-179 | the cubic coefficient of each axis of the current points |
| Cubic.CubicCurve.B | packages/math/src/cubic/base.ts:180-185 | the quadratic coefficient of each axis of the current points |
| Cubic.CubicCurve.C | packages/math/src/cubic/base.ts:187-192 | the linear coefficient of each axis of the current points |
| Cubic.CubicCurve.D | packages/math/src/cubic/base.ts:194-196 | the constant coefficient of each axis, which is `p0`, read without touching the cache |
| Cubic.CubicCurve.At | packages/math/src/cubic/base.ts:229-237 | the point computed through the cache is `evalT` of the current control points |
| GraphUtils.AxisCoordToViewSpace | packages/docs/src/components/graph/utils/index.ts:4-11 | the range's start goes to 0 and its end to the view size |
| GraphUtils.AxisCoordOfFraction | packages/docs/src/components/graph/utils/index.ts:4-11 | a coordinate a fraction `u` along the range lands at `u` times the view size |
| GraphUtils.CoordBoxFromRanges | packages/docs/src/components/graph/utils/index.ts:13-26 | `[minX, minY, maxX, maxY]`: ordered per axis and holding exactly the two ends of each range |
| GraphUtils.RangesFromCoordBox | packages/docs/src/components/graph/utils/index.ts:28-53 | the axis whose view-per-coordinate ratio is the minimum keeps its range |
| GraphUtils.Stretch | packages/docs/src/components/graph/utils/index.ts:43-50 | one axis of `rangesFromCoordBox`: each end times the common ratio equals the original end times the axis's own ratio |
| GraphUtils.AxisStretch | packages/docs/src/components/graph/utils/index.ts:43-50 | an axis multiplied by its ratio over the common ratio has its span scaled by that factor, and never shrinks |
| GraphUtils.StretchedSpan | packages/docs/src/components/graph/utils/index.ts:35-50 | each displayed axis spans its view size divided by the common ratio |
| GraphUtils.RangesMatchView | packages/docs/src/components/graph/utils/index.ts:28-53 | the displayed ranges have the view's aspect ratio, and neither is narrower than the box |
| GraphUtils.RangesFromBoxRoundTrip | packages/docs/src/components/graph/utils/index.ts:13-53 | increasing ranges already in the view's proportions survive the trip through a box unchanged |
| GraphUtils.UnitText | packages/docs/src/components/graph/utils/index.ts:55 | each space has its own two-character suffix, `"vs"` for view space and `"cs"` for coordinate space, so the suffix identifies the space |
| GraphUtils.ParseNumberUnit | packages/docs/src/components/graph/utils/index.ts:59-69 | a number takes the default space; a text splits into its last two characters (the unit) and the rest |
| GraphUtils.ParseNumberUnitRoundTrip | packages/docs/src/components/graph/utils/index.ts:59-69 | a magnitude written with a unit suffix reads back as the same two parts |
| GraphUtils.PadRange | packages/docs/src/components/graph/utils/index.ts:98-108 | non-positive padding changes nothing; positive padding moves the start of a non-degenerate range |
| GraphUtils.PaddingMultiplier | packages/docs/src/components/graph/utils/index.ts:99 | the source's multiplier equals `1 + padding / size` |
| GraphUtils.SequentialPadding | packages/docs/src/components/graph/utils/index.ts:98-102 | the two sequential `lerp`s, the second reading the already-moved start, give the closed form `PadRange` |
| GraphUtils.PaddedSpan | packages/docs/src/components/graph/utils/index.ts:98-108 | padding multiplies the signed extent by `(1 + k)^2` and keeps a non-degenerate range non-degenerate |
| GraphUtils.PaddingAsymmetry | packages/docs/src/components/graph/utils/index.ts:98-102 | the end moves `1 + k` times as far as the start, so positive padding of a non-degenerate range is never symmetric |
| GraphUtils.PaddingExample | packages/docs/src/components/graph/utils/index.test.ts:57-66 | the model's value for the case that test only logs (it asserts nothing): ten units of padding on a 100-unit view turn `[0, 10]` into `[-1, 11.1]` |
| GraphUtils.WidenIsScale | packages/docs/src/components/graph/utils/index.ts:117-127 | interpolating past both ends by `f / 2 + 0.5` scales the range by `f` about its midpoint |
| GraphUtils.ScaleAboutMidProperties | packages/docs/src/components/graph/utils/index.ts:116-129 | scaling by a positive factor keeps the midpoint and the orientation and multiplies the span |
| GraphUtils.StepAspect | packages/docs/src/components/graph/utils/index.ts:110-114 | `coordRatio`: multiplied by the box height in grid steps it gives the box width in grid steps |
| GraphUtils.VisibleCoordBox | packages/docs/src/components/graph/utils/index.ts:81-130 | the reference definition of the visible box; it returns at least one axis exactly as padded. The fitting lemmas below are proved about it |
| GraphUtils.StepAspectNonZero | packages/docs/src/components/graph/utils/index.ts:114 | the box's aspect in grid steps is non-zero, so the division on line 124 is defined |
| GraphUtils.VisibleKeepsCentres | packages/docs/src/components/graph/utils/index.ts:110-129 | one axis comes back exactly as padded; both keep their padded midpoint and orientation |
| GraphUtils.VisibleMatchesView | packages/docs/src/components/graph/utils/index.ts:110-129 | the visible box has the view's proportions counted in grid steps, and covers the padded box on both axes |
| GraphUtils.WidenYFits | packages/docs/src/components/graph/utils/index.ts:116-122 | widening y by `coordRatio / viewRatio` matches the view and does not shrink y |
| GraphUtils.WidenXFits | packages/docs/src/components/graph/utils/index.ts:124-129 | widening x by `viewRatio / coordRatio` matches the view and does not shrink x |
| GraphUtils.VisibleFixedPoint | packages/docs/src/components/graph/utils/index.ts:110-129 | an unpadded box already in the view's proportions is returned unchanged |
| GraphUtils.SquareViewExample | packages/docs/src/components/graph/utils/index.test.ts:4-13 | `[100, 100]` with `[0, 10]` on both axes is returned unchanged |
| GraphUtils.FittedToWiderView | packages/docs/src/components/graph/utils/index.ts:124-129 | a view `f` times wider than the box scales x by `f` about its midpoint and keeps y |
| GraphUtils.FittedToTallerView | packages/docs/src/components/graph/utils/index.ts:116-122 | a view `f > 1` times taller than the box scales y by `f` about its midpoint and keeps x |
| GraphUtils.WideViewExample | packages/docs/src/components/graph/utils/index.test.ts:15-24 | `[200, 100]` turns x `[0, 10]` into `[-5, 15]` |
| GraphUtils.FittingCommutesWithFlip | packages/docs/src/components/graph/utils/index.ts:110-129 | without padding, a reversed axis is fitted to the reverse of the fitted axis |
| GraphUtils.WideFlippedExample | packages/docs/src/components/graph/utils/index.test.ts:25-34 | `[200, 100]` turns x `[10, 0]` into `[15, -5]` |
| GraphUtils.TallViewExample | packages/docs/src/components/graph/utils/index.test.ts:36-45 | `[100, 200]` turns y `[0, 10]` into `[-5, 15]` |
| GraphUtils.TallFlippedExample | packages/docs/src/components/graph/utils/index.test.ts:46-55 | `[100, 200]` turns y `[10, 0]` into `[15, -5]` |
| GraphUtils.PaddedSquareExample | packages/docs/src/components/graph/utils/index.test.ts:57-66 | the model's value for the padded square case, which the test only logs: `[-1, 11.1]` on both axes |
| GraphUtils.CalculateVisibleCoordBox | packages/docs/src/components/graph/utils/index.ts:81-130 | the step-by-step method returns exactly `VisibleCoordBox`, about which the fitting lemmas above are proved |
| GraphStyles.GetStrokeDashArray | packages/docs/src/components/graph/utils/styles.ts:40-54 | dashed `[2w, 4w]`, dotted `[0, 2w]`, a pair verbatim, solid `[]`; the length is always 0 or 2, and 0 exactly for solid |
| GraphStyles.DashArrayScalesWithWidth | packages/docs/src/components/graph/utils/styles.ts:40-54 | the named styles scale with the stroke width; an explicit pair ignores it |

## Left out

- Floating point: single-precision `Float32Array` storage, double rounding, NaN, -0 and `Math.sign(NaN)` are not modelled; reals are exact.
- Non-finite results: Infinity, -Infinity and NaN are collapsed into one `NonFinite` value.
- `Math.sqrt` is a parameter of `QuadRoots`, `AxisRoots` and `QuadCurve.Roots`. Its properties are assumed through `IsSqrt`.
- `parseFloat` in `parseNumberUnit` is not modelled: the numeric text is returned unparsed as `Unparsed(digits)`, and only the unit split is modelled. A malformed unit is also returned as written, because the source only casts it.
- InverseLerp: requires `a != b`, where the source divides by zero and returns a non-finite value.
- Remap: requires `a != b`, for the same reason.
- AxisCoordToViewSpace: requires a non-degenerate range, for the same reason.
- RangesFromCoordBox: requires a non-degenerate box and non-zero view sizes. Its properties `RangesMatchView` and `RangesFromBoxRoundTrip` additionally assume positive view sizes.
- VisibleCoordBox: requires a positive view, a non-degenerate box and non-zero steps. With a zero divisor the source produces non-finite ranges, and those cases are not modelled. Negative view sizes are excluded as well, because callers pass the measured sizes of a rendered view, which are never negative.
- CalculateVisibleCoordBox: has the same requires as `VisibleCoordBox`, for the same reason.
- VisibleKeepsCentres: assumes positive grid steps, like the other fitting lemmas (`Fittable`). Negative steps are accepted by `VisibleCoordBox` but not characterised.
- RangesFromCoordBox: scales about coordinate 0 rather than about the box's centre, as the source does; no claim about centres is made.
- The curve getters `p0`..`p3` and `a`/`b`/`c` return fresh value snapshots. The source's `coefficients` getter hands out the live cache array, which the model returns as a sequence copy.
- Writes made directly to the public `points` field, or through another alias of a buffer given to `fromBuffer`, bypass the dirty flag. They are outside the `Valid()` invariant: the model only changes points through the setters.
- The cubic test at packages/math/src/cubic/base.test.ts:70 expects `quadRoots` to return a single root. That contradicts `quadRoots`, which always returns zero or two values, so it is not modelled.
- `solveCubic` and `solveCubic2`, which packages/math/src/cubic/base.test.ts:4-5 imports, are not part of this model.
- The React components, hooks and providers of the documentation site are not modelled (UI, DOM and SVG measurement). So are its trigonometric label-layout helpers and the floating-point step loops `generateStepArray` and the parametric sampler.
- The duplicate snapshots packages/math/utils/lerp.ts and packages/docs/src/components/graph/utils.ts, and the type-only files, carry no behaviour beyond what is modelled here.
