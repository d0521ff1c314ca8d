/** The red-yellow-green colour scale used for ratings: a two-segment,
    per-channel linear interpolation over three anchor colours, each channel
    rounded to an integer, with a fixed opacity of 0.9.

    The same code appears twice in the repository with a different red anchor,
    so the anchors are a parameter (`Palette`) and the two copies are the two
    constants `IslandPalette` and `ChartPalette`. */
module ColorScale {
  import opened Numeric

  datatype Rgb = Rgb(r: int, g: int, b: int)

  /** What `toCss(rgb, a)` describes: a colour and its opacity. */
  datatype Rgba = Rgba(rgb: Rgb, alpha: real)

  /** The default opacity of `toCss`. */
  const DefaultAlpha: real := 0.9

  datatype Palette = Palette(low: Rgb, mid: Rgb, high: Rgb)

  /** RED, YEL, GRN of the rating board. */
  const IslandPalette: Palette := Palette(Rgb(229, 57, 53), Rgb(253, 216, 53), Rgb(67, 160, 71))

  /** RED, YEL, GRN of the bar chart: only the red anchor differs. */
  const ChartPalette: Palette := Palette(Rgb(229, 15, 15), Rgb(253, 216, 53), Rgb(67, 160, 71))

  /** `toCss(rgb)`: the colour with the default opacity. */
  function ToCss(c: Rgb): Rgba {
    Rgba(c, DefaultAlpha)
  }

  /** `lerpRGB`: interpolate each channel and round it. */
  function LerpRgb(a: Rgb, b: Rgb, t: real): Rgb {
    Rgb(Round(Lerp(a.r as real, b.r as real, t)),
        Round(Lerp(a.g as real, b.g as real, t)),
        Round(Lerp(a.b as real, b.b as real, t)))
  }

  /** `colorFor`: clamp the score to [0, 100], then interpolate low to mid
      on [0, 50] and mid to high on (50, 100]. */
  function ColorFor(p: Palette, s: real): (c: Rgba)
    ensures c.alpha == DefaultAlpha
  {
    var v := Clamp(s, 0.0, 100.0);
    ToCss(if v <= 50.0 then LerpRgb(p.low, p.mid, v / 50.0) else LerpRgb(p.mid, p.high, (v - 50.0) / 50.0))
  }

  predicate Between(x: int, a: int, b: int) {
    (a <= x <= b) || (b <= x <= a)
  }

  /** Every channel of `c` lies between the same channel of `a` and of `b`. */
  predicate RgbBetween(c: Rgb, a: Rgb, b: Rgb) {
    Between(c.r, a.r, b.r) && Between(c.g, a.g, b.g) && Between(c.b, a.b, b.b)
  }

  lemma LerpChannelBetween(a: int, b: int, t: real)
    requires 0.0 <= t <= 1.0
    ensures Between(Round(Lerp(a as real, b as real, t)), a, b)
  {
    LerpBetween(a as real, b as real, t);
    if a <= b {
      RoundBetween(Lerp(a as real, b as real, t), a, b);
    } else {
      RoundBetween(Lerp(a as real, b as real, t), b, a);
    }
  }

  /** For t in [0, 1] each interpolated channel lies between the two anchors. */
  lemma LerpRgbBetween(a: Rgb, b: Rgb, t: real)
    requires 0.0 <= t <= 1.0
    ensures RgbBetween(LerpRgb(a, b, t), a, b)
  {
    LerpChannelBetween(a.r, b.r, t);
    LerpChannelBetween(a.g, b.g, t);
    LerpChannelBetween(a.b, b.b, t);
  }

  /** The interpolation returns its end points exactly at t = 0 and t = 1. */
  lemma LerpRgbEnds(a: Rgb, b: Rgb)
    ensures LerpRgb(a, b, 0.0) == a
    ensures LerpRgb(a, b, 1.0) == b
  {
    RoundInt(a.r); RoundInt(a.g); RoundInt(a.b);
    RoundInt(b.r); RoundInt(b.g); RoundInt(b.b);
  }

  /** Out-of-range scores are clamped first. */
  lemma ColorForClamps(p: Palette, s: real)
    ensures ColorFor(p, s) == ColorFor(p, Clamp(s, 0.0, 100.0))
  {
    ClampIdempotent(s, 0.0, 100.0);
  }

  /** Continuity at the boundary: both branches give the mid anchor at 50. */
  lemma ColorForContinuousAtMid(p: Palette)
    ensures LerpRgb(p.low, p.mid, 50.0 / 50.0) == p.mid
    ensures LerpRgb(p.mid, p.high, (50.0 - 50.0) / 50.0) == p.mid
    ensures ColorFor(p, 50.0) == Rgba(p.mid, DefaultAlpha)
  {
    LerpRgbEnds(p.low, p.mid);
    LerpRgbEnds(p.mid, p.high);
  }

  /** The scale hits the low, mid and high anchors at 0, 50 and 100, and stays
      at the end anchors beyond the range. */
  lemma ColorForAnchors(p: Palette, s: real)
    ensures ColorFor(p, 0.0) == Rgba(p.low, DefaultAlpha)
    ensures ColorFor(p, 50.0) == Rgba(p.mid, DefaultAlpha)
    ensures ColorFor(p, 100.0) == Rgba(p.high, DefaultAlpha)
    ensures s <= 0.0 ==> ColorFor(p, s) == Rgba(p.low, DefaultAlpha)
    ensures s >= 100.0 ==> ColorFor(p, s) == Rgba(p.high, DefaultAlpha)
  {
    LerpRgbEnds(p.low, p.mid);
    LerpRgbEnds(p.mid, p.high);
  }

  /** Each channel lies between the two anchors of the segment the clamped
      score falls in. */
  lemma ColorForWithinSegment(p: Palette, s: real)
    ensures Clamp(s, 0.0, 100.0) <= 50.0 ==> RgbBetween(ColorFor(p, s).rgb, p.low, p.mid)
    ensures Clamp(s, 0.0, 100.0) > 50.0 ==> RgbBetween(ColorFor(p, s).rgb, p.mid, p.high)
  {
    var v := Clamp(s, 0.0, 100.0);
    if v <= 50.0 {
      LerpRgbBetween(p.low, p.mid, v / 50.0);
    } else {
      LerpRgbBetween(p.mid, p.high, (v - 50.0) / 50.0);
    }
  }

  /** The concrete anchors of the board's scale: [229,57,53] at 0,
      [253,216,53] at 50 and [67,160,71] at 100. */
  lemma IslandColorAnchors()
    ensures ColorFor(IslandPalette, 0.0).rgb == Rgb(229, 57, 53)
    ensures ColorFor(IslandPalette, 50.0).rgb == Rgb(253, 216, 53)
    ensures ColorFor(IslandPalette, 100.0).rgb == Rgb(67, 160, 71)
  {
    ColorForAnchors(IslandPalette, 0.0);
  }

  /** The chart draws a zero rating in [229,15,15], not in the [229,57,53]
      of the board's own scale and legend; the scales agree from 50 upwards. */
  lemma ChartAndIslandScalesDiffer(s: real)
    ensures ColorFor(ChartPalette, 0.0).rgb == Rgb(229, 15, 15)
    ensures ColorFor(ChartPalette, 0.0) != ColorFor(IslandPalette, 0.0)
    ensures Clamp(s, 0.0, 100.0) >= 50.0 ==> ColorFor(ChartPalette, s) == ColorFor(IslandPalette, s)
  {
    ColorForAnchors(ChartPalette, 0.0);
    ColorForAnchors(IslandPalette, 0.0);
  }
}
