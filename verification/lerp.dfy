/** Linear interpolation helpers (`lerp`, `inverseLerp`, `remap`). */
module Interpolation {
  import opened Numbers

  /** The value a fraction `t` of the way from `a` to `b`; `t` is not clamped. */
  function Lerp(a: real, b: real, t: real): (r: real)
    ensures t == 0.0 ==> r == a
    ensures t == 1.0 ==> r == b
  {
    a + (b - a) * t
  }

  /** The fraction at which `v` lies between `a` and `b`; the source divides by
      `b - a`, so the two ends must differ. */
  function InverseLerp(a: real, b: real, v: real): (t: real)
    requires a != b
    ensures v == a ==> t == 0.0
    ensures v == b ==> t == 1.0
    ensures Lerp(a, b, t) == v
  {
    var t := (v - a) / (b - a);
    DivTimes(v - a, b - a);
    if v == b then DivSelf(b - a); t else t
  }

  /** Maps `v` from the range `[a, b]` onto the range `[c, d]`. */
  function Remap(v: real, a: real, b: real, c: real, d: real): (r: real)
    requires a != b
    ensures v == a ==> r == c
    ensures v == b ==> r == d
  {
    Lerp(c, d, InverseLerp(a, b, v))
  }

  /** For `t` in `[0, 1]` the interpolated value stays between the two ends. */
  lemma LerpBetween(a: real, b: real, t: real)
    requires 0.0 <= t <= 1.0
    ensures Min(a, b) <= Lerp(a, b, t) <= Max(a, b)
  {
    var r := Lerp(a, b, t);
    assert r == a * (1.0 - t) + b * t;
    if a <= b {
      MulNonNegative(b - a, t);
      MulNonNegative(b - a, 1.0 - t);
    } else {
      MulNonNegative(a - b, t);
      MulNonNegative(a - b, 1.0 - t);
    }
  }

  /** `inverseLerp` undoes `lerp`: the other half of the round trip stated by
      `InverseLerp`'s own contract. */
  lemma InverseLerpOfLerp(a: real, b: real, t: real)
    requires a != b
    ensures InverseLerp(a, b, Lerp(a, b, t)) == t
  {
    var v := Lerp(a, b, t);
    assert v - a == (b - a) * t;
    DivCancel(t, b - a);
  }

  /** Remapping is affine: the image of a point a fraction `t` of the way
      through `[a, b]` lies the same fraction of the way through `[c, d]`. */
  lemma RemapPreservesFraction(a: real, b: real, c: real, d: real, t: real)
    requires a != b
    ensures Remap(Lerp(a, b, t), a, b, c, d) == Lerp(c, d, t)
  {
    InverseLerpOfLerp(a, b, t);
  }

  /** The values the unit test expects. */
  lemma LerpExamples()
    ensures Lerp(0.0, 10.0, 0.5) == 5.0
    ensures Lerp(0.0, 10.0, 0.0) == 0.0
    ensures Lerp(0.0, 10.0, 1.0) == 10.0
    ensures Lerp(10.0, 20.0, 0.5) == 15.0
  {
  }
}
