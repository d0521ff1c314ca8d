/** The bar chart of ratings: a pure mapping from category labels, values and
    an optional height to the geometry of an SVG drawing (gridlines with tick
    labels, one bar with a value label per value, a rotated label per
    category, the y axis and its title). Coordinates grow downwards. */
module BarChart {
  import opened Numeric
  import opened Collections
  import opened ColorScale

  /** The viewBox width, fixed at design time. */
  const Width: real := 760.0

  /** 760 * 9 / 16, the height when none (or 0) is given. */
  const DefaultHeight: real := 427.5

  datatype Margin = Margin(top: real, right: real, bottom: real, left: real)

  /** The derived layout: everything the drawing is computed from. */
  datatype Frame = Frame(
    width: real, height: real, angle: int, margin: Margin,
    innerW: real, innerH: real, band: real, barW: real)

  datatype TextAnchor = Start | Middle | End

  datatype Line = Line(x1: real, x2: real, y1: real, y2: real)
  datatype TickLabel = TickLabel(x: real, y: real, anchor: TextAnchor, tick: int)
  datatype Gridline = Gridline(line: Line, tickLabel: TickLabel)

  datatype Rect = Rect(x: real, y: real, width: real, height: real, radius: real, fill: Rgba)
  datatype ValueLabel = ValueLabel(x: real, y: real, anchor: TextAnchor, shown: int)
  datatype Bar = Bar(rect: Rect, valueLabel: ValueLabel)

  datatype CategoryLabel = CategoryLabel(x: real, y: real, angle: int, anchor: TextAnchor, text: string)

  /** The axis title is rotated by -90 degrees about (cx, cy). */
  datatype AxisTitle = AxisTitle(angle: int, cx: real, cy: real, anchor: TextAnchor, text: string)

  datatype Drawing = Drawing(
    viewW: real, viewH: real,
    gridlines: seq<Gridline>, bars: seq<Bar>, categories: seq<CategoryLabel>,
    axis: Line, title: AxisTitle)

  /** `height ? height : W * 9 / 16`: an absent or zero height falls back to
      the default (JavaScript truthiness). */
  function ChartHeight(height: Option<real>): (h: real)
    ensures height.Some? && height.value != 0.0 ==> h == height.value
    ensures height.None? || height.value == 0.0 ==> h == Width * 9.0 / 16.0
  {
    if height.Some? && height.value != 0.0 then height.value else DefaultHeight
  }

  /** The label-rotation preset: shallow on a wide canvas, vertical otherwise. */
  function LabelAngle(w: real): int {
    if w > 500.0 then -60 else -90
  }

  /** The vertical preset needs more room under the plot. */
  function BottomMargin(angle: int): real {
    if angle == -90 then 140.0 else 120.0
  }

  /** The two presets and their margins; the fixed width always selects the
      shallow one. */
  lemma LabelPresets(w: real)
    ensures w > 500.0 ==> LabelAngle(w) == -60 && BottomMargin(LabelAngle(w)) == 120.0
    ensures w <= 500.0 ==> LabelAngle(w) == -90 && BottomMargin(LabelAngle(w)) == 140.0
    ensures LabelAngle(Width) == -60 && BottomMargin(LabelAngle(Width)) == 120.0
  {
  }

  /** `n ? innerW / n : 0`: the band is an n-th of the inner width, and zero
      for an empty chart instead of a division by zero. */
  function Band(innerW: real, n: nat): (b: real)
    ensures n > 0 ==> b * (n as real) == innerW
    ensures n == 0 ==> b == 0.0
  {
    if n > 0 then innerW / (n as real) else 0.0
  }

  /** `Math.max(2, band * 0.7)`: 70% of the band, but never under 2 units. */
  function BarWidth(band: real): (w: real)
    ensures w >= 2.0 && w >= 0.7 * band
    ensures w == 2.0 || w == 0.7 * band
  {
    Max(2.0, band * 0.7)
  }

  /** The layout for `n` categories. */
  function FrameFor(n: nat, height: Option<real>): (f: Frame)
    ensures f.width == Width && f.height == ChartHeight(height)
    ensures f.angle == -60 && f.margin == Margin(20.0, 12.0, 120.0, 46.0)
    ensures f.innerW == 702.0 && f.innerH == ChartHeight(height) - 140.0
    ensures f.band == Band(f.innerW, n) && f.barW == BarWidth(f.band)
  {
    var h := ChartHeight(height);
    var angle := LabelAngle(Width);
    var m := Margin(20.0, 12.0, BottomMargin(angle), 46.0);
    var innerW := Width - m.left - m.right;
    var innerH := h - m.top - m.bottom;
    var band := Band(innerW, n);
    Frame(Width, h, angle, m, innerW, innerH, band, BarWidth(band))
  }

  /** The baseline of the plotting area, where every bar stands. */
  function Baseline(f: Frame): real {
    f.margin.top + f.innerH
  }

  /** `(clamp(v, 0, 100) / 100) * h`: the clamped value's share of a height. */
  function Share(v: real, h: real): (s: real)
    ensures h >= 0.0 ==> 0.0 <= s <= h
    ensures Clamp(v, 0.0, 100.0) == 0.0 ==> s == 0.0
    ensures Clamp(v, 0.0, 100.0) == 100.0 ==> s == h
  {
    var k := Clamp(v, 0.0, 100.0) / 100.0;
    FractionOf(k, h);
    k * h
  }

  /** `barH`: the bar's height, the value's share of the inner height. */
  function BarH(f: Frame, v: real): (h: real)
    ensures f.innerH >= 0.0 ==> 0.0 <= h <= f.innerH
  {
    Share(v, f.innerH)
  }

  /** `y`: the top edge of the bar for value `v`. */
  function Y(f: Frame, v: real): (y: real)
    ensures y + BarH(f, v) == Baseline(f)
  {
    f.margin.top + f.innerH - Share(v, f.innerH)
  }

  /** `x`: the left edge of bar `i`, placed so that the bar is centred in its band. */
  function X(f: Frame, i: int): (x: real)
    ensures x + f.barW / 2.0 == BandCentre(f, i)
  {
    f.margin.left + (i as real) * f.band + (f.band - f.barW) / 2.0
  }

  /** The horizontal centre of band `i`, where the category label is anchored. */
  function BandCentre(f: Frame, i: int): real {
    f.margin.left + (i as real) * f.band + f.band / 2.0
  }

  /** The gridline ticks 0, 10, ..., 100. */
  function Ticks(): (t: seq<int>)
    ensures |t| == 11 && forall i :: 0 <= i < 11 ==> t[i] == 10 * i
  {
    seq(11, i => i * 10)
  }

  lemma TicksExactly()
    ensures Ticks() == [0, 10, 20, 30, 40, 50, 60, 70, 80, 90, 100]
  {
  }

  function GridlineAt(f: Frame, t: int): Gridline {
    var gy := Y(f, t as real);
    Gridline(Line(f.margin.left, f.margin.left + f.innerW, gy, gy),
             TickLabel(f.margin.left - 8.0, gy + 4.0, End, t))
  }

  function BarAt(f: Frame, i: int, v: real): Bar {
    Bar(Rect(X(f, i), Y(f, v), f.barW, BarH(f, v), 3.0, ColorFor(ChartPalette, v)),
        ValueLabel(X(f, i) + f.barW / 2.0, Y(f, v) - 6.0, Middle, Round(v)))
  }

  function CategoryAt(f: Frame, i: int, name: string): CategoryLabel {
    CategoryLabel(BandCentre(f, i), Baseline(f) + 18.0, f.angle,
                  if f.angle < 0 then End else Start, name)
  }

  /** The whole drawing. One gridline per tick, one bar per value and one
      label per category; the band is sized by the number of labels. */
  function Render(labels: seq<string>, values: seq<real>, height: Option<real>): (d: Drawing)
    ensures var f := FrameFor(|labels|, height);
      && d.viewW == Width && d.viewH == ChartHeight(height)
      && |d.gridlines| == 11 && |d.bars| == |values| && |d.categories| == |labels|
      && (forall i :: 0 <= i < 11 ==>
            && d.gridlines[i].line == Line(f.margin.left, f.margin.left + f.innerW, Y(f, 10.0 * i as real), Y(f, 10.0 * i as real))
            && d.gridlines[i].tickLabel == TickLabel(f.margin.left - 8.0, Y(f, 10.0 * i as real) + 4.0, End, 10 * i))
      && (forall i :: 0 <= i < |values| ==>
            && d.bars[i].rect == Rect(X(f, i), Y(f, values[i]), f.barW, BarH(f, values[i]), 3.0, ColorFor(ChartPalette, values[i]))
            && d.bars[i].rect.width >= 2.0
            && d.bars[i].rect.y + d.bars[i].rect.height == f.margin.top + f.innerH
            && (f.innerH >= 0.0 ==> 0.0 <= d.bars[i].rect.height <= f.innerH)
            && d.bars[i].rect.x + d.bars[i].rect.width / 2.0 == BandCentre(f, i)
            && d.bars[i].valueLabel.x == BandCentre(f, i)
            && d.bars[i].valueLabel.y == d.bars[i].rect.y - 6.0
            && d.bars[i].valueLabel.shown == Round(values[i])
            && d.bars[i].rect.fill == ColorFor(ChartPalette, values[i]))
      && (forall i :: 0 <= i < |labels| ==>
            && d.categories[i].x == BandCentre(f, i)
            && d.categories[i].y == f.margin.top + f.innerH + 18.0
            && d.categories[i].angle == f.angle
            && (d.categories[i].anchor == End <==> f.angle < 0)
            && d.categories[i].text == labels[i])
      && d.axis == Line(f.margin.left, f.margin.left, f.margin.top, f.margin.top + f.innerH)
      && d.title == AxisTitle(-90, f.margin.left - 32.0, f.margin.top + f.innerH / 2.0, Middle, "Rating")
  {
    var f := FrameFor(|labels|, height);
    var ticks := Ticks();
    Drawing(
      f.width, f.height,
      seq(|ticks|, i requires 0 <= i < |ticks| => GridlineAt(f, ticks[i])),
      seq(|values|, i requires 0 <= i < |values| => BarAt(f, i, values[i])),
      seq(|labels|, i requires 0 <= i < |labels| => CategoryAt(f, i, labels[i])),
      Line(f.margin.left, f.margin.left, f.margin.top, f.margin.top + f.innerH),
      AxisTitle(-90, f.margin.left - 32.0, f.margin.top + f.innerH / 2.0, Middle, "Rating"))
  }

  /** With the default height the plot is 702 by 287.5 units. */
  lemma DefaultFrame(n: nat)
    ensures FrameFor(n, None).height == 427.5
    ensures FrameFor(n, None).innerW == 702.0 && FrameFor(n, None).innerH == 287.5
  {
  }

  /** A zero value gives an empty bar and a full value reaches the top margin. */
  lemma BarExtremes(f: Frame)
    ensures BarH(f, 0.0) == 0.0 && Y(f, 0.0) == Baseline(f)
    ensures Y(f, 100.0) == f.margin.top
  {
    assert BarH(f, 100.0) == f.innerH;
  }

  /** Higher values are drawn higher: `y` never increases with the value
      (when the plot has non-negative height). */
  lemma YNonIncreasing(f: Frame, v1: real, v2: real)
    requires f.innerH >= 0.0 && v1 <= v2
    ensures Y(f, v2) <= Y(f, v1)
    ensures BarH(f, v1) <= BarH(f, v2)
  {
    ClampMonotone(v1, v2, 0.0, 100.0);
    var k1, k2 := Clamp(v1, 0.0, 100.0) / 100.0, Clamp(v2, 0.0, 100.0) / 100.0;
    var b1, b2 := BarH(f, v1), BarH(f, v2);
    assert b1 == k1 * f.innerH && b2 == k2 * f.innerH;
    assert b2 - b1 == (k2 - k1) * f.innerH;
    MulBetween(k2 - k1, f.innerH);
  }

  /** Bar i of the drawing has the geometry of the value it shows. */
  lemma RenderBarGeometry(labels: seq<string>, values: seq<real>, height: Option<real>, i: int)
    requires 0 <= i < |values|
    ensures var f := FrameFor(|labels|, height);
      var r := Render(labels, values, height).bars[i].rect;
      r.x == X(f, i) && r.y == Y(f, values[i]) && r.width == f.barW && r.height == BarH(f, values[i])
  {
  }

  /** In any drawing with a non-negative plot height, a bar for a larger
      value is at least as tall and its top edge is at least as high. */
  lemma RenderHigherIsHigher(labels: seq<string>, values: seq<real>, height: Option<real>, i: int, j: int)
    requires 0 <= i < |values| && 0 <= j < |values| && values[i] <= values[j]
    requires FrameFor(|labels|, height).innerH >= 0.0
    ensures Render(labels, values, height).bars[j].rect.y <= Render(labels, values, height).bars[i].rect.y
    ensures Render(labels, values, height).bars[i].rect.height <= Render(labels, values, height).bars[j].rect.height
  {
    RenderBarGeometry(labels, values, height, i);
    RenderBarGeometry(labels, values, height, j);
    YNonIncreasing(FrameFor(|labels|, height), values[i], values[j]);
  }

  /** A default-height chart of four values whose first is 0 and third is 100
      (such as [0, 50, 100, 75]): the bar for 100 reaches the top of the plot,
      and the bar for 0 has no height and sits on the baseline. */
  lemma FourBarExample(labels: seq<string>, values: seq<real>)
    requires |labels| == 4 && |values| == 4 && values[0] == 0.0 && values[2] == 100.0
    ensures |Render(labels, values, None).bars| == 4
    ensures Render(labels, values, None).bars[2].rect.y == 20.0
    ensures Render(labels, values, None).bars[0].rect.height == 0.0
    ensures Render(labels, values, None).bars[0].rect.y == 20.0 + 287.5
    ensures Render(labels, values, None).bars[0].rect.width == 0.7 * 702.0 / 4.0
  {
    var f := FrameFor(4, None);
    var r0 := Render(labels, values, None).bars[0].rect;
    var r2 := Render(labels, values, None).bars[2].rect;
    assert r0.y == Y(f, 0.0) && r0.height == BarH(f, 0.0) && r0.width == f.barW by {
      RenderBarGeometry(labels, values, None, 0);
    }
    assert r2.y == Y(f, 100.0) by {
      RenderBarGeometry(labels, values, None, 2);
    }
    FourBarFrame();
  }

  /** The default frame for four labels, where the bars for 0 and 100 go. */
  lemma FourBarFrame()
    ensures var f := FrameFor(4, None);
      && f.barW == 0.7 * 702.0 / 4.0
      && Y(f, 100.0) == 20.0 && BarH(f, 0.0) == 0.0 && Y(f, 0.0) == 20.0 + 287.5
  {
    var f := FrameFor(4, None);
    BarExtremes(f);
    assert f.innerH == 287.5 && f.margin.top == 20.0;
    assert f.band == 702.0 / 4.0;
  }

  /** In the same chart the bar for 100 has the smallest y of all four. */
  lemma FourBarOrder(labels: seq<string>, values: seq<real>)
    requires |labels| == 4 && values == [0.0, 50.0, 100.0, 75.0]
    ensures var d := Render(labels, values, None);
      && |d.bars| == 4
      && (forall i :: 0 <= i < 4 ==> d.bars[2].rect.y <= d.bars[i].rect.y)
  {
    assert FrameFor(4, None).innerH == 287.5;
    forall i | 0 <= i < 4
      ensures Render(labels, values, None).bars[2].rect.y <= Render(labels, values, None).bars[i].rect.y
    {
      RenderHigherIsHigher(labels, values, None, i, 2);
    }
  }
}
