/** Coordinate-box arithmetic of the documentation graphs: mapping coordinates
    to view space, converting between ranges and boxes, fitting a coordinate
    box to the aspect ratio of the view, and reading a number's unit. */
module GraphUtils {
  import opened Numbers
  import opened Interpolation

  /** A `[start, end]` pair along one axis; `start` may exceed `end` for a
      flipped axis. */
  datatype Range = Range(start: real, end: real)

  /** The `BBox` record: one range per axis. */
  datatype BBox = BBox(x: Range, y: Range)

  /** A `[minX, minY, maxX, maxY]`-shaped box (the first two entries are the
      starts, the last two the ends). */
  type CoordBox = b: seq<real> | |b| == 4 witness [0.0, 0.0, 0.0, 0.0]

  /** Length of a range regardless of its orientation. */
  function Span(r: Range): real
  {
    Max(r.start, r.end) - Min(r.start, r.end)
  }

  function Mid(r: Range): real
  {
    (r.start + r.end) / 2.0
  }

  // ---------------------------------------------------------------------
  // axisCoordToViewSpace

  /** Position of `coord` along a view of `viewSpaceSize` units, where the
      range's start sits at 0 and its end at the far edge. */
  function AxisCoordToViewSpace(coord: real, coordRange: Range, viewSpaceSize: real): (v: real)
    requires coordRange.start != coordRange.end
    ensures coord == coordRange.start ==> v == 0.0
    ensures coord == coordRange.end ==> v == viewSpaceSize
  {
    InverseLerp(coordRange.start, coordRange.end, coord) * viewSpaceSize
  }

  /** The coordinate a fraction `u` of the way along the range lands a fraction
      `u` of the way across the view. */
  lemma AxisCoordOfFraction(coordRange: Range, u: real, viewSpaceSize: real)
    requires coordRange.start != coordRange.end
    ensures AxisCoordToViewSpace(Lerp(coordRange.start, coordRange.end, u), coordRange, viewSpaceSize)
            == u * viewSpaceSize
  {
    InverseLerpOfLerp(coordRange.start, coordRange.end, u);
  }

  // ---------------------------------------------------------------------
  // coordBoxFromRanges / rangesFromCoordBox

  /** The box `[minX, minY, maxX, maxY]` spanned by two ranges. */
  function CoordBoxFromRanges(xRange: Range, yRange: Range): (box: CoordBox)
    ensures box[0] <= box[2] && box[1] <= box[3]
    ensures multiset{box[0], box[2]} == multiset{xRange.start, xRange.end}
    ensures multiset{box[1], box[3]} == multiset{yRange.start, yRange.end}
  {
    [Min(xRange.start, xRange.end), Min(yRange.start, yRange.end),
     Max(xRange.start, xRange.end), Max(yRange.start, yRange.end)]
  }

  /** View units per coordinate unit along one axis. */
  function AxisRatio(size: real, start: real, end: real): real
    requires start != end
  {
    size / Span(Range(start, end))
  }

  /** The ranges to display so that a box fills a view of `width` by `height`
      at one common scale: each axis is multiplied by its own ratio over the
      smaller of the two ratios, so the axis with the smaller ratio is kept
      and the other grows (about coordinate 0). */
  function RangesFromCoordBox(coordBox: CoordBox, width: real, height: real): (ranges: (Range, Range))
    requires coordBox[0] != coordBox[2] && coordBox[1] != coordBox[3]
    requires width != 0.0 && height != 0.0
    ensures AxisRatio(width, coordBox[0], coordBox[2]) <= AxisRatio(height, coordBox[1], coordBox[3])
            ==> ranges.0 == Range(coordBox[0], coordBox[2])
    ensures AxisRatio(height, coordBox[1], coordBox[3]) <= AxisRatio(width, coordBox[0], coordBox[2])
            ==> ranges.1 == Range(coordBox[1], coordBox[3])
  {
    var xStart, yStart, xEnd, yEnd := coordBox[0], coordBox[1], coordBox[2], coordBox[3];
    var xRatio := AxisRatio(width, xStart, xEnd);
    var yRatio := AxisRatio(height, yStart, yEnd);
    assert xRatio != 0.0 && yRatio != 0.0 by {
      DivNonZero(width, Span(Range(xStart, xEnd)));
      DivNonZero(height, Span(Range(yStart, yEnd)));
    }
    var ratio := Min(xRatio, yRatio);
    StretchByOwnRatio(xStart, xEnd, xRatio);
    StretchByOwnRatio(yStart, yEnd, yRatio);
    (Stretch(Range(xStart, xEnd), xRatio, ratio), Stretch(Range(yStart, yEnd), yRatio, ratio))
  }

  /** One axis of `rangesFromCoordBox`: both ends times `axisRatio / ratio`. */
  function Stretch(r: Range, axisRatio: real, ratio: real): (s: Range)
    requires ratio != 0.0
    ensures s.start * ratio == r.start * axisRatio && s.end * ratio == r.end * axisRatio
  {
    DivTimes(r.start * axisRatio, ratio);
    DivTimes(r.end * axisRatio, ratio);
    Range(r.start * axisRatio / ratio, r.end * axisRatio / ratio)
  }

  lemma DivNonZero(x: real, y: real)
    requires x != 0.0 && y != 0.0
    ensures x / y != 0.0
  {
    if x / y == 0.0 {
      DivTimes(x, y);
      assert false;
    }
  }

  lemma StretchByOwnRatio(start: real, end: real, ratio: real)
    requires ratio != 0.0
    ensures Stretch(Range(start, end), ratio, ratio) == Range(start, end)
  {
    DivCancel(start, ratio);
    DivCancel(end, ratio);
    assert start * ratio == ratio * start && end * ratio == ratio * end;
  }

  /** Scaling a range by a non-negative factor scales its span. */
  lemma SpanOfScaled(start: real, end: real, s: real)
    requires 0.0 <= s
    ensures Span(Range(start * s, end * s)) == Span(Range(start, end)) * s
  {
    if start <= end {
      assert end * s - start * s == (end - start) * s;
      MulNonNegative(end - start, s);
    } else {
      assert start * s - end * s == (start - end) * s;
      MulNonNegative(start - end, s);
    }
  }

  /** One axis of `RangesFromCoordBox`: multiplying by its own ratio over
      the smaller ratio scales the span by a factor of at least one. */
  lemma AxisStretch(r: Range, axisRatio: real, ratio: real)
    requires r.start != r.end && 0.0 < ratio <= axisRatio
    ensures Span(Stretch(r, axisRatio, ratio)) == Span(r) * (axisRatio / ratio)
    ensures Span(Stretch(r, axisRatio, ratio)) >= Span(r)
  {
    var start, end := r.start, r.end;
    var f := axisRatio / ratio;
    DivAtLeastOne(axisRatio, ratio);
    ScaleAssociates(start, axisRatio, ratio);
    ScaleAssociates(end, axisRatio, ratio);
    SpanOfScaled(start, end, f);
    assert Range(start, end) == r;
    assert Stretch(r, axisRatio, ratio) == Range(start * f, end * f);
    var bw := Span(r);
    MulNonNegative(bw, f - 1.0);
    assert bw * (f - 1.0) == bw * f - bw;
  }

  /** The displayed ranges have the view's aspect ratio, and neither is
      narrower than the box it was made from. */
  lemma RangesMatchView(coordBox: CoordBox, width: real, height: real)
    requires coordBox[0] != coordBox[2] && coordBox[1] != coordBox[3]
    requires 0.0 < width && 0.0 < height
    ensures var ranges := RangesFromCoordBox(coordBox, width, height);
            Span(ranges.0) * height == Span(ranges.1) * width
    ensures var ranges := RangesFromCoordBox(coordBox, width, height);
            Span(ranges.0) >= Span(Range(coordBox[0], coordBox[2]))
            && Span(ranges.1) >= Span(Range(coordBox[1], coordBox[3]))
  {
    var xRatio := AxisRatio(width, coordBox[0], coordBox[2]);
    var yRatio := AxisRatio(height, coordBox[1], coordBox[3]);
    var x, y := Range(coordBox[0], coordBox[2]), Range(coordBox[1], coordBox[3]);
    var ratio := Min(xRatio, yRatio);
    PositiveRatios(x, y, width, height, xRatio, yRatio);
    StretchedSpan(x, width, xRatio, ratio);
    StretchedSpan(y, height, yRatio, ratio);
    var sx, sy := Span(Stretch(x, xRatio, ratio)), Span(Stretch(y, yRatio, ratio));
    CrossQuotients(sx, sy, width, height, ratio);
  }

  /** An axis shown at the common ratio spans its view size over that ratio. */
  lemma StretchedSpan(r: Range, size: real, axisRatio: real, ratio: real)
    requires r.start != r.end && 0.0 < size && axisRatio == size / Span(r)
    requires 0.0 < ratio <= axisRatio
    ensures Span(Stretch(r, axisRatio, ratio)) == size / ratio
    ensures Span(Stretch(r, axisRatio, ratio)) >= Span(r)
  {
    AxisStretch(r, axisRatio, ratio);
    SpanAtRatio(Span(Stretch(r, axisRatio, ratio)), Span(r), size, ratio);
  }

  lemma SpanAtRatio(s: real, bw: real, size: real, m: real)
    requires 0.0 < bw && 0.0 < m && s == bw * ((size / bw) / m)
    ensures s == size / m
  {
    DivTimes(size, bw);
    assert bw * ((size / bw) / m) == ((size / bw) * bw) / m;
  }

  lemma CrossQuotients(sx: real, sy: real, w: real, h: real, m: real)
    requires m != 0.0 && sx == w / m && sy == h / m
    ensures sx * h == sy * w
  {
    assert (w / m) * h == (w * h) / m;
    assert (h / m) * w == (h * w) / m;
  }

  lemma PositiveRatios(x: Range, y: Range, width: real, height: real, xRatio: real, yRatio: real)
    requires x.start != x.end && y.start != y.end && 0.0 < width && 0.0 < height
    requires xRatio == width / Span(x) && yRatio == height / Span(y)
    ensures 0.0 < Span(x) && 0.0 < Span(y) && 0.0 < xRatio && 0.0 < yRatio
  {
    DivPositive(width, Span(x));
    DivPositive(height, Span(y));
  }

  lemma DivPositive(a: real, b: real)
    requires 0.0 < a && 0.0 < b
    ensures 0.0 < a / b
  {
    DivTimes(a, b);
  }

  lemma DivAtLeastOne(x: real, m: real)
    requires 0.0 < m <= x
    ensures 1.0 <= x / m
  {
    DivTimes(x, m);
  }

  lemma ScaleAssociates(v: real, r: real, m: real)
    requires m != 0.0
    ensures v * r / m == v * (r / m)
  {
  }

  /** Ranges already in the view's proportions survive the round trip through
      a box unchanged. */
  lemma RangesFromBoxRoundTrip(xRange: Range, yRange: Range, width: real, height: real)
    requires xRange.start < xRange.end && yRange.start < yRange.end
    requires 0.0 < width && 0.0 < height
    requires Span(xRange) * height == Span(yRange) * width
    ensures RangesFromCoordBox(CoordBoxFromRanges(xRange, yRange), width, height) == (xRange, yRange)
  {
    var box := CoordBoxFromRanges(xRange, yRange);
    assert box == [xRange.start, yRange.start, xRange.end, yRange.end];
    var bw, bh := Span(xRange), Span(yRange);
    assert width / bw == height / bh by {
      EqualRatios(width, bw, height, bh);
    }
  }

  lemma EqualRatios(w: real, bw: real, h: real, bh: real)
    requires 0.0 < bw && 0.0 < bh && bw * h == bh * w
    ensures w / bw == h / bh
  {
    DivTimes(w, bw);
    DivTimes(h, bh);
    assert (w / bw) * bw * bh == (h / bh) * bh * bw;
    MulPositive(bw, bh);
    CancelFactor(w / bw, h / bh, bw * bh);
  }

  // ---------------------------------------------------------------------
  // parseNumberUnit

  /** `"vs"` (view space) or `"cs"` (coordinate space). */
  datatype Space = ViewSpace | CoordSpace

  function UnitText(space: Space): (text: string)
    ensures |text| == 2
    ensures text == "vs" <==> space == ViewSpace
    ensures text == "cs" <==> space == CoordSpace
  {
    match space
    case ViewSpace => "vs"
    case CoordSpace => "cs"
  }

  /** A `NumberUnit`: a plain number or a text such as `"2.5vs"`. */
  datatype NumberUnit = Number(value: real) | Text(text: string)

  /** The magnitude: a number passes through; the numeric text of a unit
      string is returned unparsed. */
  datatype Magnitude = Parsed(value: real) | Unparsed(digits: string)

  datatype ParsedNumberUnit = ParsedNumberUnit(magnitude: Magnitude, unit: string)

  /** `parseNumberUnit`: a plain number takes the default space (coordinate
      space unless told otherwise); a text is cut before its last two
      characters, which are the unit (all of a text shorter than that). */
  function ParseNumberUnit(value: NumberUnit, defaultSpace: Space := CoordSpace): (r: ParsedNumberUnit)
    ensures value.Number? ==> r == ParsedNumberUnit(Parsed(value.value), UnitText(defaultSpace))
    ensures value.Text? ==> r.magnitude.Unparsed? && r.magnitude.digits + r.unit == value.text
    ensures value.Text? ==> |r.unit| == if |value.text| < 2 then |value.text| else 2
  {
    match value
    case Number(n) => ParsedNumberUnit(Parsed(n), UnitText(defaultSpace))
    case Text(text) =>
      var cut := if |text| < 2 then 0 else |text| - 2;
      ParsedNumberUnit(Unparsed(text[..cut]), text[cut..])
  }

  /** Writing a magnitude's text followed by a unit and reading it back gives
      both parts again. */
  lemma ParseNumberUnitRoundTrip(digits: string, space: Space, defaultSpace: Space)
    ensures ParseNumberUnit(Text(digits + UnitText(space)), defaultSpace)
            == ParsedNumberUnit(Unparsed(digits), UnitText(space))
  {
    var text := digits + UnitText(space);
    assert text[..|digits|] == digits;
    assert text[|digits|..] == UnitText(space);
  }

  // ---------------------------------------------------------------------
  // calculateVisibleCoordBox

  /** The closed form of padding one axis by `padding` view units out of
      `size`: with `k = padding / size` and `d = end - start`, the start moves
      out by `d k` and the end by `d k (1 + k)`, because the end is computed
      from the already-moved start. Non-positive padding changes nothing. */
  function PadRange(r: Range, padding: real, size: real): (p: Range)
    requires 0.0 < size
    ensures padding <= 0.0 ==> p == r
    ensures 0.0 < padding ==> p.start != r.start || r.start == r.end
  {
    if 0.0 < padding then
      var k := padding / size;
      var d := r.end - r.start;
      assert 0.0 < k;
      assert d != 0.0 ==> d * k != 0.0;
      Range(r.start - d * k, r.end + d * k * (1.0 + k))
    else
      r
  }

  /** The range with the same midpoint and `factor` times the extent, keeping
      its orientation. */
  function ScaleAboutMid(r: Range, factor: real): (s: Range)
  {
    Range(Mid(r) - (r.end - r.start) * factor / 2.0, Mid(r) + (r.end - r.start) * factor / 2.0)
  }

  /** Steps per view unit ratio of a box: `(width / xStep) / (height / yStep)`. */
  function StepAspect(x: Range, y: Range, xStep: real, yStep: real): (r: real)
    requires y.start != y.end && xStep != 0.0 && yStep != 0.0
    ensures r * (Span(y) / yStep) == Span(x) / xStep
  {
    DivNonZero(Span(y), yStep);
    DivTimes(Span(x) / xStep, Span(y) / yStep);
    Span(x) / xStep / (Span(y) / yStep)
  }

  /** What `calculateVisibleCoordBox` computes: pad both axes, then widen the
      axis that is short, relative to the view, about its midpoint until the
      box has the view's aspect (counted in grid steps). */
  function VisibleCoordBox(viewSize: (real, real), coordBox: BBox, stepSize: (real, real), padding: (real, real)): (r: BBox)
    requires 0.0 < viewSize.0 && 0.0 < viewSize.1
    requires coordBox.x.start != coordBox.x.end && coordBox.y.start != coordBox.y.end
    requires stepSize.0 != 0.0 && stepSize.1 != 0.0
    ensures r.x == PadRange(coordBox.x, padding.0, viewSize.0) || r.y == PadRange(coordBox.y, padding.1, viewSize.1)
  {
    var x := PadRange(coordBox.x, padding.0, viewSize.0);
    var y := PadRange(coordBox.y, padding.1, viewSize.1);
    PaddedSpan(coordBox.y, padding.1, viewSize.1);
    PaddedSpan(coordBox.x, padding.0, viewSize.0);
    var viewRatio := viewSize.0 / viewSize.1;
    var coordRatio := StepAspect(x, y, stepSize.0, stepSize.1);
    if viewRatio < coordRatio then
      BBox(x, ScaleAboutMid(y, coordRatio / viewRatio))
    else
      assert coordRatio != 0.0 by { StepAspectNonZero(x, y, stepSize.0, stepSize.1); }
      BBox(ScaleAboutMid(x, viewRatio / coordRatio), y)
  }

  lemma StepAspectNonZero(x: Range, y: Range, xStep: real, yStep: real)
    requires x.start != x.end && y.start != y.end && xStep != 0.0 && yStep != 0.0
    ensures StepAspect(x, y, xStep, yStep) != 0.0
  {
    DivNonZero(Span(x), xStep);
    DivNonZero(Span(y), yStep);
    DivNonZero(Span(x) / xStep, Span(y) / yStep);
  }

  /** Padding multiplies the signed extent by `(1 + k)^2`. */
  lemma PaddedSpan(r: Range, padding: real, size: real)
    requires 0.0 < size
    ensures 0.0 < padding ==>
              PadRange(r, padding, size).end - PadRange(r, padding, size).start
              == (r.end - r.start) * (1.0 + padding / size) * (1.0 + padding / size)
    ensures r.start != r.end ==> PadRange(r, padding, size).start != PadRange(r, padding, size).end
  {
    if 0.0 < padding {
      var k := padding / size;
      var d := r.end - r.start;
      PadAlgebra(r.start, r.end, k);
      if d != 0.0 {
        assert 0.0 < k;
        MulPositive(1.0 + k, 1.0 + k);
        if d * (1.0 + k) * (1.0 + k) == 0.0 {
          ZeroFactor(d, (1.0 + k) * (1.0 + k));
        }
      }
    }
  }

  lemma PadAlgebra(s: real, e: real, k: real)
    ensures (e + (e - s) * k * (1.0 + k)) - (s - (e - s) * k) == (e - s) * (1.0 + k) * (1.0 + k)
  {
  }

  /** `(size + 2 padding) / size / 2 + 0.5` is `1 + padding / size`. */
  lemma PaddingMultiplier(padding: real, size: real)
    requires 0.0 < size
    ensures (size + padding * 2.0) / size / 2.0 + 0.5 == 1.0 + padding / size
  {
    var q, r := (size + padding * 2.0) / size, padding / size;
    DivTimes(size + padding * 2.0, size);
    DivTimes(padding, size);
    assert (1.0 + 2.0 * r) * size == size + padding * 2.0;
    CancelFactor(q, 1.0 + 2.0 * r, size);
  }

  /** The two sequential interpolations of the padding step, with the
      source's multiplier, give the closed form `PadRange`. */
  lemma SequentialPadding(r: Range, padding: real, size: real)
    requires 0.0 < size && 0.0 < padding
    ensures var m := (size + padding * 2.0) / size / 2.0 + 0.5;
            Range(Lerp(r.end, r.start, m), Lerp(Lerp(r.end, r.start, m), r.end, m)) == PadRange(r, padding, size)
  {
    PaddingMultiplier(padding, size);
    SequentialPaddingAlgebra(r.start, r.end, padding / size);
  }

  lemma SequentialPaddingAlgebra(s: real, e: real, k: real)
    ensures e + (s - e) * (1.0 + k) == s - (e - s) * k
    ensures (s - (e - s) * k) + (e - (s - (e - s) * k)) * (1.0 + k) == e + (e - s) * k * (1.0 + k)
  {
  }

  /** Interpolating past both ends by `factor / 2 + 0.5` scales the range about
      its midpoint. */
  lemma WidenIsScale(r: Range, factor: real)
    ensures Range(Lerp(r.end, r.start, factor / 2.0 + 0.5), Lerp(r.start, r.end, factor / 2.0 + 0.5))
            == ScaleAboutMid(r, factor)
  {
  }

  /** The end is pushed out `1 + k` times as far as the start, so positive
      padding of a non-degenerate range is never symmetric. */
  lemma PaddingAsymmetry(r: Range, padding: real, size: real)
    requires 0.0 < size && 0.0 < padding
    ensures var p := PadRange(r, padding, size);
            p.end - r.end == (r.start - p.start) * (1.0 + padding / size)
    ensures var p := PadRange(r, padding, size);
            r.start != r.end ==> p.end - r.end != r.start - p.start
  {
    var k, d := padding / size, r.end - r.start;
    assert 0.0 < k;
    if r.start != r.end {
      var p := PadRange(r, padding, size);
      if p.end - r.end == r.start - p.start {
        assert d * k * k == 0.0;
        ZeroFactor(d * k, k);
        ZeroFactor(d, k);
      }
    }
  }

  /** Ten units of padding on a 100-unit view widen `[0, 10]` to `[-1, 11.1]`. */
  lemma PaddingExample()
    ensures PadRange(Range(0.0, 10.0), 10.0, 100.0) == Range(-1.0, 11.1)
  {
  }

  lemma SpanIsAbs(r: Range)
    ensures Span(r) == Abs(r.end - r.start)
  {
  }

  /** Scaling about the midpoint by a positive factor keeps the midpoint and
      the orientation and multiplies the span. */
  lemma ScaleAboutMidProperties(r: Range, factor: real)
    requires 0.0 < factor
    ensures Mid(ScaleAboutMid(r, factor)) == Mid(r)
    ensures Sign(ScaleAboutMid(r, factor).end - ScaleAboutMid(r, factor).start) == Sign(r.end - r.start)
    ensures Span(ScaleAboutMid(r, factor)) == Span(r) * factor
  {
    var d := r.end - r.start;
    var sc := ScaleAboutMid(r, factor);
    HalvesAroundMid(Mid(r), d * factor);
    assert sc.end - sc.start == d * factor;
    SpanIsAbs(r);
    SpanIsAbs(sc);
    if 0.0 < d {
      MulPositive(d, factor);
    } else if d < 0.0 {
      MulPositive(-d, factor);
    }
  }

  lemma HalvesAroundMid(m: real, e: real)
    ensures (m + e / 2.0) - (m - e / 2.0) == e
    ensures ((m - e / 2.0) + (m + e / 2.0)) / 2.0 == m
  {
  }

  /** A positive view, a non-degenerate box and positive grid steps. */
  predicate Fittable(viewSize: (real, real), coordBox: BBox, stepSize: (real, real))
  {
    && 0.0 < viewSize.0 && 0.0 < viewSize.1
    && coordBox.x.start != coordBox.x.end && coordBox.y.start != coordBox.y.end
    && 0.0 < stepSize.0 && 0.0 < stepSize.1
  }

  /** Exactly one axis may change: the other is returned as padded; both
      axes keep their padded midpoints and orientation. */
  lemma VisibleKeepsCentres(viewSize: (real, real), coordBox: BBox, stepSize: (real, real), padding: (real, real))
    requires Fittable(viewSize, coordBox, stepSize)
    ensures var x, y := PadRange(coordBox.x, padding.0, viewSize.0), PadRange(coordBox.y, padding.1, viewSize.1);
            var r := VisibleCoordBox(viewSize, coordBox, stepSize, padding);
            (r.x == x || r.y == y)
            && Mid(r.x) == Mid(x) && Mid(r.y) == Mid(y)
            && Sign(r.x.end - r.x.start) == Sign(x.end - x.start)
            && Sign(r.y.end - r.y.start) == Sign(y.end - y.start)
  {
    var x, y := PadRange(coordBox.x, padding.0, viewSize.0), PadRange(coordBox.y, padding.1, viewSize.1);
    PaddedSpan(coordBox.x, padding.0, viewSize.0);
    PaddedSpan(coordBox.y, padding.1, viewSize.1);
    var viewRatio := viewSize.0 / viewSize.1;
    var coordRatio := StepAspect(x, y, stepSize.0, stepSize.1);
    StepAspectPositive(x, y, stepSize.0, stepSize.1);
    if viewRatio < coordRatio {
      ScaleAboutMidProperties(y, coordRatio / viewRatio);
    } else {
      ScaleAboutMidProperties(x, viewRatio / coordRatio);
    }
  }

  lemma StepAspectPositive(x: Range, y: Range, xStep: real, yStep: real)
    requires x.start != x.end && y.start != y.end && 0.0 < xStep && 0.0 < yStep
    ensures 0.0 < StepAspect(x, y, xStep, yStep)
  {
  }

  /** The visible box has the view's proportions when both are counted in grid
      steps, and it covers at least the padded box on both axes. */
  lemma VisibleMatchesView(viewSize: (real, real), coordBox: BBox, stepSize: (real, real), padding: (real, real))
    requires Fittable(viewSize, coordBox, stepSize)
    ensures var r := VisibleCoordBox(viewSize, coordBox, stepSize, padding);
            Span(r.x) / stepSize.0 * viewSize.1 == Span(r.y) / stepSize.1 * viewSize.0
    ensures var x, y := PadRange(coordBox.x, padding.0, viewSize.0), PadRange(coordBox.y, padding.1, viewSize.1);
            var r := VisibleCoordBox(viewSize, coordBox, stepSize, padding);
            Span(r.x) >= Span(x) && Span(r.y) >= Span(y)
  {
    var x, y := PadRange(coordBox.x, padding.0, viewSize.0), PadRange(coordBox.y, padding.1, viewSize.1);
    PaddedSpan(coordBox.x, padding.0, viewSize.0);
    PaddedSpan(coordBox.y, padding.1, viewSize.1);
    var w, h, xs, ys := viewSize.0, viewSize.1, stepSize.0, stepSize.1;
    var viewRatio := w / h;
    var coordRatio := StepAspect(x, y, xs, ys);
    StepAspectPositive(x, y, xs, ys);
    if viewRatio < coordRatio {
      WidenYFits(x, y, xs, ys, w, h);
    } else {
      WidenXFits(x, y, xs, ys, w, h);
    }
  }

  /** The tall-box branch: widening `y` by `coordRatio / viewRatio`. */
  lemma WidenYFits(x: Range, y: Range, xs: real, ys: real, w: real, h: real)
    requires x.start != x.end && y.start != y.end && 0.0 < xs && 0.0 < ys && 0.0 < w && 0.0 < h
    requires w / h < StepAspect(x, y, xs, ys)
    ensures var wide := ScaleAboutMid(y, StepAspect(x, y, xs, ys) / (w / h));
            Span(x) / xs * h == Span(wide) / ys * w && Span(wide) >= Span(y)
  {
    var coordRatio := StepAspect(x, y, xs, ys);
    var f := coordRatio / (w / h);
    ScaleAboutMidProperties(y, f);
    DivAtLeastOne(coordRatio, w / h);
    WidenedAspectY(Span(x), Span(y), xs, ys, w, h, f);
    GrowsSpan(Span(ScaleAboutMid(y, f)), Span(y), f);
  }

  /** The wide-box branch: widening `x` by `viewRatio / coordRatio`. */
  lemma WidenXFits(x: Range, y: Range, xs: real, ys: real, w: real, h: real)
    requires x.start != x.end && y.start != y.end && 0.0 < xs && 0.0 < ys && 0.0 < w && 0.0 < h
    requires StepAspect(x, y, xs, ys) <= w / h
    ensures StepAspect(x, y, xs, ys) != 0.0
    ensures var wide := ScaleAboutMid(x, (w / h) / StepAspect(x, y, xs, ys));
            Span(wide) / xs * h == Span(y) / ys * w && Span(wide) >= Span(x)
  {
    var coordRatio := StepAspect(x, y, xs, ys);
    StepAspectPositive(x, y, xs, ys);
    var f := (w / h) / coordRatio;
    ScaleAboutMidProperties(x, f);
    DivAtLeastOne(w / h, coordRatio);
    WidenedAspectX(Span(x), Span(y), xs, ys, w, h, f);
    GrowsSpan(Span(ScaleAboutMid(x, f)), Span(x), f);
  }

  lemma GrowsSpan(grown: real, s: real, f: real)
    requires 0.0 <= s && 1.0 <= f && grown == s * f
    ensures grown >= s
  {
    MulNonNegative(s, f - 1.0);
    assert s * (f - 1.0) == s * f - s;
  }

  /** Widening `y` by `coordRatio / viewRatio` gives the view's proportions. */
  lemma WidenedAspectY(sx: real, sy: real, xs: real, ys: real, w: real, h: real, f: real)
    requires 0.0 < sx && 0.0 < sy && 0.0 < xs && 0.0 < ys && 0.0 < w && 0.0 < h
    requires f == (sx / xs / (sy / ys)) / (w / h)
    ensures sx / xs * h == sy * f / ys * w
  {
    var a, b := sx / xs, sy / ys;
    assert sy * f / ys == b * ((a / b) / (w / h));
    FieldAspect(a, b, w, h);
  }

  /** Widening `x` by `viewRatio / coordRatio` gives the view's proportions. */
  lemma WidenedAspectX(sx: real, sy: real, xs: real, ys: real, w: real, h: real, f: real)
    requires 0.0 < sx && 0.0 < sy && 0.0 < xs && 0.0 < ys && 0.0 < w && 0.0 < h
    requires f == (w / h) / (sx / xs / (sy / ys))
    ensures sx * f / xs * h == sy / ys * w
  {
    var a, b := sx / xs, sy / ys;
    assert sx * f / xs == a * ((w / h) / (a / b));
    FieldAspectInverse(a, b, w, h);
  }

  /** `a * ((w / h) / (a / b)) * h == b * w` for positive values. */
  lemma FieldAspectInverse(a: real, b: real, w: real, h: real)
    requires 0.0 < a && 0.0 < b && 0.0 < w && 0.0 < h
    ensures a * ((w / h) / (a / b)) * h == b * w
  {
    DivTimes(a, b);
    DivTimes(w, h);
    DivTimes(w / h, a / b);
  }

  /** `b * ((a / b) / (w / h)) * w == a * h` for positive values. */
  lemma FieldAspect(a: real, b: real, w: real, h: real)
    requires 0.0 < a && 0.0 < b && 0.0 < w && 0.0 < h
    ensures b * ((a / b) / (w / h)) * w == a * h
  {
    DivTimes(a, b);
    DivTimes(w, h);
    DivTimes(a / b, w / h);
  }

  /** A box already in the view's proportions, without padding, is shown as
      it is. */
  lemma VisibleFixedPoint(viewSize: (real, real), coordBox: BBox, stepSize: (real, real))
    requires Fittable(viewSize, coordBox, stepSize)
    requires Span(coordBox.x) / stepSize.0 * viewSize.1 == Span(coordBox.y) / stepSize.1 * viewSize.0
    ensures VisibleCoordBox(viewSize, coordBox, stepSize, (0.0, 0.0)) == coordBox
  {
    var x, y := coordBox.x, coordBox.y;
    var a, b := Span(x) / stepSize.0, Span(y) / stepSize.1;
    assert 0.0 < b;
    EqualRatios(viewSize.0, viewSize.1, a, b);
    var coordRatio := StepAspect(x, y, stepSize.0, stepSize.1);
    assert viewSize.0 / viewSize.1 == coordRatio;
    DivSelf(coordRatio);
    assert ScaleAboutMid(x, 1.0) == x;
  }

  /** A square box in a square view with unit steps and no padding is shown
      as it is. */
  lemma SquareViewExample()
    ensures VisibleCoordBox((100.0, 100.0), BBox(Range(0.0, 10.0), Range(0.0, 10.0)), (1.0, 1.0), (0.0, 0.0))
            == BBox(Range(0.0, 10.0), Range(0.0, 10.0))
  {
    VisibleFixedPoint((100.0, 100.0), BBox(Range(0.0, 10.0), Range(0.0, 10.0)), (1.0, 1.0));
  }

  /** A view `f` times wider (in grid steps) than an unpadded box stretches
      the x range by `f` about its midpoint and keeps the y range. */
  lemma FittedToWiderView(viewSize: (real, real), coordBox: BBox, stepSize: (real, real), f: real)
    requires Fittable(viewSize, coordBox, stepSize)
    requires 1.0 <= f && StepAspect(coordBox.x, coordBox.y, stepSize.0, stepSize.1) * f == viewSize.0 / viewSize.1
    ensures VisibleCoordBox(viewSize, coordBox, stepSize, (0.0, 0.0)) == BBox(ScaleAboutMid(coordBox.x, f), coordBox.y)
  {
    var coordRatio := StepAspect(coordBox.x, coordBox.y, stepSize.0, stepSize.1);
    StepAspectPositive(coordBox.x, coordBox.y, stepSize.0, stepSize.1);
    assert coordRatio <= coordRatio * f by { GrowsSpan(coordRatio * f, coordRatio, f); }
    ExactQuotient(viewSize.0 / viewSize.1, coordRatio, f);
  }

  /** A view `f` times taller (in grid steps) than an unpadded box, `f > 1`,
      stretches the y range by `f` about its midpoint and keeps the x range. */
  lemma FittedToTallerView(viewSize: (real, real), coordBox: BBox, stepSize: (real, real), f: real)
    requires Fittable(viewSize, coordBox, stepSize)
    requires 1.0 < f && viewSize.0 / viewSize.1 * f == StepAspect(coordBox.x, coordBox.y, stepSize.0, stepSize.1)
    ensures VisibleCoordBox(viewSize, coordBox, stepSize, (0.0, 0.0)) == BBox(coordBox.x, ScaleAboutMid(coordBox.y, f))
  {
    var viewRatio := viewSize.0 / viewSize.1;
    assert 0.0 < viewRatio;
    assert viewRatio < viewRatio * f by { MulStrict(viewRatio, 1.0, f); }
    var coordRatio := StepAspect(coordBox.x, coordBox.y, stepSize.0, stepSize.1);
    ExactQuotient(coordRatio, viewRatio, f);
    assert PadRange(coordBox.x, 0.0, viewSize.0) == coordBox.x;
    assert PadRange(coordBox.y, 0.0, viewSize.1) == coordBox.y;
    assert viewRatio < coordRatio;
  }

  lemma MulStrict(v: real, one: real, f: real)
    requires 0.0 < v && one == 1.0 && one < f
    ensures v < v * f
  {
    MulPositive(v, f - 1.0);
    assert v * (f - 1.0) == v * f - v;
  }

  lemma ExactQuotient(a: real, b: real, q: real)
    requires b != 0.0 && a == b * q
    ensures a / b == q
  {
    DivTimes(a, b);
    assert (a / b) * b == q * b;
    CancelFactor(a / b, q, b);
  }

  /** A view twice as wide as tall doubles the x range about its midpoint. */
  lemma WideViewExample()
    ensures VisibleCoordBox((200.0, 100.0), BBox(Range(0.0, 10.0), Range(0.0, 10.0)), (1.0, 1.0), (0.0, 0.0))
            == BBox(Range(-5.0, 15.0), Range(0.0, 10.0))
  {
    assert StepAspect(Range(0.0, 10.0), Range(0.0, 10.0), 1.0, 1.0) == 1.0 by {
      assert Span(Range(0.0, 10.0)) == 10.0 && Span(Range(0.0, 10.0)) == 10.0;
    }
    FittedToWiderView((200.0, 100.0), BBox(Range(0.0, 10.0), Range(0.0, 10.0)), (1.0, 1.0), 2.0);
  }

  /** Reversing both ends of a range. */
  function Flip(r: Range): Range
  {
    Range(r.end, r.start)
  }

  /** Without padding, fitting commutes with reversing an axis: a flipped
      axis is shown flipped. */
  lemma FittingCommutesWithFlip(viewSize: (real, real), coordBox: BBox, stepSize: (real, real))
    requires Fittable(viewSize, coordBox, stepSize)
    ensures var r := VisibleCoordBox(viewSize, coordBox, stepSize, (0.0, 0.0));
            VisibleCoordBox(viewSize, BBox(Flip(coordBox.x), coordBox.y), stepSize, (0.0, 0.0)) == BBox(Flip(r.x), r.y)
            && VisibleCoordBox(viewSize, BBox(coordBox.x, Flip(coordBox.y)), stepSize, (0.0, 0.0)) == BBox(r.x, Flip(r.y))
  {
    var x, y := coordBox.x, coordBox.y;
    assert Span(Flip(x)) == Span(x) && Span(Flip(y)) == Span(y);
    assert StepAspect(Flip(x), y, stepSize.0, stepSize.1) == StepAspect(x, y, stepSize.0, stepSize.1);
    assert StepAspect(x, Flip(y), stepSize.0, stepSize.1) == StepAspect(x, y, stepSize.0, stepSize.1);
    forall f: real
      ensures ScaleAboutMid(Flip(x), f) == Flip(ScaleAboutMid(x, f))
      ensures ScaleAboutMid(Flip(y), f) == Flip(ScaleAboutMid(y, f))
    {
    }
  }

  /** The same with the x axis running from 10 down to 0: it stays flipped. */
  lemma WideFlippedExample()
    ensures VisibleCoordBox((200.0, 100.0), BBox(Range(10.0, 0.0), Range(0.0, 10.0)), (1.0, 1.0), (0.0, 0.0))
            == BBox(Range(15.0, -5.0), Range(0.0, 10.0))
  {
    WideViewExample();
    FittingCommutesWithFlip((200.0, 100.0), BBox(Range(0.0, 10.0), Range(0.0, 10.0)), (1.0, 1.0));
  }

  /** A view twice as tall as wide doubles the y range about its midpoint. */
  lemma TallViewExample()
    ensures VisibleCoordBox((100.0, 200.0), BBox(Range(0.0, 10.0), Range(0.0, 10.0)), (1.0, 1.0), (0.0, 0.0))
            == BBox(Range(0.0, 10.0), Range(-5.0, 15.0))
  {
    assert StepAspect(Range(0.0, 10.0), Range(0.0, 10.0), 1.0, 1.0) == 1.0 by {
      assert Span(Range(0.0, 10.0)) == 10.0 && Span(Range(0.0, 10.0)) == 10.0;
    }
    FittedToTallerView((100.0, 200.0), BBox(Range(0.0, 10.0), Range(0.0, 10.0)), (1.0, 1.0), 2.0);
  }

  /** The same with the y axis running from 10 down to 0. */
  lemma TallFlippedExample()
    ensures VisibleCoordBox((100.0, 200.0), BBox(Range(0.0, 10.0), Range(10.0, 0.0)), (1.0, 1.0), (0.0, 0.0))
            == BBox(Range(0.0, 10.0), Range(15.0, -5.0))
  {
    TallViewExample();
    FittingCommutesWithFlip((100.0, 200.0), BBox(Range(0.0, 10.0), Range(0.0, 10.0)), (1.0, 1.0));
  }

  /** Ten units of padding on both axes of a square view: both ranges become
      `[-1, 11.1]` and no further widening is needed. */
  lemma PaddedSquareExample()
    ensures VisibleCoordBox((100.0, 100.0), BBox(Range(0.0, 10.0), Range(0.0, 10.0)), (1.0, 1.0), (10.0, 10.0))
            == BBox(Range(-1.0, 11.1), Range(-1.0, 11.1))
  {
    PaddingExample();
    assert StepAspect(Range(-1.0, 11.1), Range(-1.0, 11.1), 1.0, 1.0) == 1.0;
  }

  /** `calculateVisibleCoordBox`, step by step: the padding branches reassign
      the interval ends in order, then one axis is widened. */
  method CalculateVisibleCoordBox(viewSize: (real, real), coordBox: BBox, stepSize: (real, real),
                                  padding: (real, real) := (0.0, 0.0))
    returns (visible: BBox)
    requires 0.0 < viewSize.0 && 0.0 < viewSize.1
    requires coordBox.x.start != coordBox.x.end && coordBox.y.start != coordBox.y.end
    requires stepSize.0 != 0.0 && stepSize.1 != 0.0
    ensures visible == VisibleCoordBox(viewSize, coordBox, stepSize, padding)
  {
    var xPadding, yPadding := padding.0, padding.1;
    var width, height := viewSize.0, viewSize.1;
    var xStart, xEnd := coordBox.x.start, coordBox.x.end;
    var yStart, yEnd := coordBox.y.start, coordBox.y.end;
    var xStep, yStep := stepSize.0, stepSize.1;

    if xPadding > 0.0 {
      var xMultiplier := (width + xPadding * 2.0) / width / 2.0 + 0.5;
      SequentialPadding(coordBox.x, xPadding, width);
      xStart := Lerp(xEnd, xStart, xMultiplier);
      xEnd := Lerp(xStart, xEnd, xMultiplier);
    }
    var x := Range(xStart, xEnd);
    assert x == PadRange(coordBox.x, xPadding, width);

    if yPadding > 0.0 {
      var yMultiplier := (height + yPadding * 2.0) / height / 2.0 + 0.5;
      SequentialPadding(coordBox.y, yPadding, height);
      yStart := Lerp(yEnd, yStart, yMultiplier);
      yEnd := Lerp(yStart, yEnd, yMultiplier);
    }
    var y := Range(yStart, yEnd);
    assert y == PadRange(coordBox.y, yPadding, height);
    PaddedSpan(coordBox.x, xPadding, width);
    PaddedSpan(coordBox.y, yPadding, height);

    var coordHeight := Max(yEnd, yStart) - Min(yEnd, yStart);
    var coordWidth := Max(xEnd, xStart) - Min(xEnd, xStart);
    var viewRatio := width / height;
    var coordRatio := coordWidth / xStep / (coordHeight / yStep);
    assert coordRatio == StepAspect(x, y, xStep, yStep);
    StepAspectNonZero(x, y, xStep, yStep);

    if viewRatio < coordRatio {
      var ty := coordRatio / viewRatio / 2.0 + 0.5;
      WidenIsScale(y, coordRatio / viewRatio);
      return BBox(Range(xStart, xEnd), Range(Lerp(yEnd, yStart, ty), Lerp(yStart, yEnd, ty)));
    }

    var tx := viewRatio / coordRatio / 2.0 + 0.5;
    WidenIsScale(x, viewRatio / coordRatio);
    return BBox(Range(Lerp(xEnd, xStart, tx), Lerp(xStart, xEnd, tx)), Range(yStart, yEnd));
  }
}
