/** Stroke dash patterns for the graph's lines. */
module GraphStyles {

  /** `"solid"`, `"dashed"`, `"dotted"`, or an explicit `[on, off]` pair. */
  datatype StrokeStyle = Solid | Dashed | Dotted | Pattern(on: real, off: real)

  /** The SVG dash array for a style: dashes twice the stroke width long with
      gaps of four widths, zero-length dots (round caps) two widths apart, an
      explicit pair verbatim, and no dashes for a solid line. */
  function GetStrokeDashArray(style: StrokeStyle, strokeWidth: real): (dash: seq<real>)
    ensures style.Dashed? ==> dash == [strokeWidth * 2.0, strokeWidth * 4.0]
    ensures style.Dotted? ==> dash == [0.0, strokeWidth * 2.0]
    ensures style.Pattern? ==> dash == [style.on, style.off]
    ensures |dash| == 0 || |dash| == 2
    ensures dash == [] <==> style.Solid?
  {
    match style
    case Dashed => [strokeWidth * 2.0, strokeWidth * 4.0]
    case Dotted => [0.0, strokeWidth * 2.0]
    case Pattern(on, off) => [on, off]
    case Solid => []
  }

  /** Every entry of `dash` multiplied by `k`. */
  function Scaled(dash: seq<real>, k: real): (r: seq<real>)
    ensures |r| == |dash|
    ensures forall i :: 0 <= i < |dash| ==> r[i] == dash[i] * k
  {
    if dash == [] then [] else [dash[0] * k] + Scaled(dash[1..], k)
  }

  /** The named styles scale with the stroke: doubling the width doubles
      every dash and gap, while an explicit pair ignores the width. */
  lemma DashArrayScalesWithWidth(style: StrokeStyle, strokeWidth: real, k: real)
    ensures !style.Pattern? ==>
              GetStrokeDashArray(style, strokeWidth * k) == Scaled(GetStrokeDashArray(style, strokeWidth), k)
    ensures style.Pattern? ==>
              GetStrokeDashArray(style, strokeWidth * k) == GetStrokeDashArray(style, strokeWidth)
  {
    var scaled := GetStrokeDashArray(style, strokeWidth * k);
    var base := GetStrokeDashArray(style, strokeWidth);
    if !style.Pattern? {
      assert |scaled| == |Scaled(base, k)|;
      forall i | 0 <= i < |scaled|
        ensures scaled[i] == Scaled(base, k)[i]
      {
      }
    }
  }
}
