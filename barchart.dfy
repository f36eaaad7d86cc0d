/**
 * The numeric layout of `renderExpenseChart`: one bar per category of the
 * aggregate, in key order, scaled against the largest category total.
 * Canvas sizing, fonts and paint calls are not part of this model; the
 * layout is computed for a drawing area of `width` by `height` units.
 */
module BarChart {
  import opened Expenses
  import opened Aggregation

  const PadLeft: real := 40.0
  const PadRight: real := 14.0
  const PadTop: real := 30.0
  const PadBottom: real := 36.0
  /** Space between neighbouring bars. */
  const Gap: real := 12.0
  /** The category label sits this far above the bottom edge. */
  const CaptionRise: real := 20.0
  /** The amount label sits this far above the top of its bar. */
  const ValueRise: real := 4.0
  const TitleY: real := 8.0

  const Palette: seq<string> := ["#6366f1", "#22c55e", "#f59e0b", "#ef4444", "#06b6d4", "#a855f7", "#10b981"]

  /** A filled rectangle with its two label anchors (category below, amount above). */
  datatype Bar = Bar(x: real, y: real, width: real, height: real, color: string,
                     labelX: real, captionY: real, valueY: real)

  /** Either the centred "No expense data to display" text, or the bars and the title anchor. */
  datatype Chart = NoData(textX: real, textY: real) | Bars(bars: seq<Bar>, titleX: real, titleY: real)

  function ChartWidth(width: real): real { width - PadLeft - PadRight }

  function ChartHeight(height: real): real { height - PadTop - PadBottom }

  /** `chartWidth / categories.length - 12`. */
  function BarWidth(width: real, n: nat): real
    requires n > 0
  {
    ChartWidth(width) / n as real - Gap
  }

  /** `Math.max(...amounts)`. */
  function Max(s: seq<real>): (m: real)
    requires |s| > 0
    ensures m in s
    ensures forall i :: 0 <= i < |s| ==> s[i] <= m
  {
    if |s| == 1 then s[0]
    else
      var rest := Max(s[..|s| - 1]);
      assert forall i :: 0 <= i < |s| - 1 ==> s[..|s| - 1][i] == s[i];
      if s[|s| - 1] > rest then s[|s| - 1] else rest
  }

  /** `Math.max(...amounts) || 1`: the largest amount, or 1 when that is zero. */
  function Scale(amounts: seq<real>): (k: real)
    requires |amounts| > 0
    ensures k != 0.0
    ensures Max(amounts) != 0.0 ==> k == Max(amounts)
    ensures Max(amounts) == 0.0 ==> k == 1.0
  {
    var m := Max(amounts);
    if m == 0.0 then 1.0 else m
  }

  /** The bar of the category at position `i` of `n`, whose total is `amount`. */
  function BarAt(width: real, height: real, n: nat, scale: real, i: nat, amount: real): Bar
    requires n > 0 && scale != 0.0
  {
    var chartHeight := ChartHeight(height);
    var barWidth := BarWidth(width, n);
    var barHeight := (amount / scale) * chartHeight;
    var x := PadLeft + i as real * (barWidth + Gap);
    var y := PadTop + (chartHeight - barHeight);
    Bar(x, y, barWidth, barHeight, Palette[i % |Palette|], x + barWidth / 2.0, height - CaptionRise, y - ValueRise)
  }

  /** A bar's height is its share of the scale times the plot height; it stands on the
      plot's baseline, has the common bar width, takes its colour from the palette by
      index, and carries its labels centred above and below. */
  lemma {:induction false} BarShape(width: real, height: real, n: nat, scale: real, i: nat, amount: real)
    requires n > 0 && scale != 0.0
    ensures var b := BarAt(width, height, n, scale, i, amount);
      && b.height * scale == amount * ChartHeight(height)
      && b.y + b.height == PadTop + ChartHeight(height)
      && b.x == PadLeft + i as real * (BarWidth(width, n) + Gap)
      && b.width == BarWidth(width, n)
      && b.color == Palette[i % |Palette|]
      && b.labelX == b.x + b.width / 2.0
      && b.captionY == height - CaptionRise && b.valueY == b.y - ValueRise
  {
    var q := amount / scale;
    assert q * scale == amount;
    assert q * ChartHeight(height) * scale == q * scale * ChartHeight(height);
  }

  /** A share in (0, 1] of a positive height is a positive height no taller. */
  lemma {:induction false} FractionOfHeight(a: real, m: real, h: real)
    requires 0.0 < a <= m && h > 0.0
    ensures 0.0 < (a / m) * h <= h
  {
    var q := a / m;
    assert q * m == a;
    assert q <= 1.0;
    assert q * h <= 1.0 * h;
  }

  /** Cancelling a non-zero factor. */
  lemma {:induction false} Cancel(x: real, y: real, m: real)
    requires m != 0.0 && x * m == y * m
    ensures x == y
  {
    assert (x - y) * m == 0.0;
  }

  /**
   * `renderExpenseChart` without the canvas: aggregate, handle the empty
   * state, then lay the bars out left to right in category order.
   */
  method RenderExpenseChart(es: seq<Expense>, width: real, height: real) returns (chart: Chart)
    ensures chart.NoData? <==> |es| == 0
    ensures chart.NoData? ==> chart == NoData(width / 2.0, height / 2.0)
    ensures chart.Bars? ==>
      var amounts := CategoryAmounts(es);
      && chart.titleX == width / 2.0 && chart.titleY == TitleY
      && |chart.bars| == |amounts| > 0
      && forall i :: 0 <= i < |amounts| ==>
           chart.bars[i] == BarAt(width, height, |amounts|, Scale(amounts), i, amounts[i])
  {
    var cats, byCat := TotalsByCategory(es);
    if |cats| == 0 {
      return NoData(width / 2.0, height / 2.0);
    }
    var amounts := Values(cats, byCat);
    assert amounts == CategoryAmounts(es);
    var m := Max(amounts);
    var max := if m == 0.0 then 1.0 else m;
    var bars := LayoutBars(amounts, max, width, height);
    chart := Bars(bars, width / 2.0, TitleY);
  }

  /** The `forEach((category, index) => ...)` that places one bar per total. */
  method LayoutBars(amounts: seq<real>, max: real, width: real, height: real) returns (bars: seq<Bar>)
    requires |amounts| > 0 && max != 0.0
    ensures |bars| == |amounts|
    ensures forall i :: 0 <= i < |amounts| ==> bars[i] == BarAt(width, height, |amounts|, max, i, amounts[i])
  {
    var chartWidth := width - PadLeft - PadRight;
    var chartHeight := height - PadTop - PadBottom;
    var n := |amounts|;
    var barWidth := chartWidth / n as real - Gap;

    bars := [];
    var i := 0;
    while i < n
      invariant 0 <= i <= n
      invariant |bars| == i
      invariant forall k :: 0 <= k < i ==> bars[k] == BarAt(width, height, n, max, k, amounts[k])
    {
      var amount := amounts[i];
      var barHeight := (amount / max) * chartHeight;
      var x := PadLeft + i as real * (barWidth + Gap);
      var y := PadTop + (chartHeight - barHeight);
      bars := bars + [Bar(x, y, barWidth, barHeight, Palette[i % |Palette|], x + barWidth / 2.0, height - CaptionRise, y - ValueRise)];
      i := i + 1;
    }
  }

  // ---------------------------------------------------------------------
  // What the layout promises.
  // ---------------------------------------------------------------------

  /** Heights are proportional to amounts: the ratio of two bars is the ratio of their totals. */
  lemma {:induction false} HeightsProportional(width: real, height: real, n: nat, scale: real,
                                               i: nat, a: real, j: nat, b: real)
    requires n > 0 && scale != 0.0
    ensures BarAt(width, height, n, scale, i, a).height * b == BarAt(width, height, n, scale, j, b).height * a
  {
    var hi := BarAt(width, height, n, scale, i, a).height;
    var hj := BarAt(width, height, n, scale, j, b).height;
    BarShape(width, height, n, scale, i, a);
    BarShape(width, height, n, scale, j, b);
    var H := ChartHeight(height);
    assert (hi * b) * scale == (hi * scale) * b;
    assert (hj * a) * scale == (hj * scale) * a;
    assert (a * H) * b == (b * H) * a;
    Cancel(hi * b, hj * a, scale);
  }

  /** The bar of the largest category fills the whole plot height. */
  lemma {:induction false} LargestBarIsFullHeight(amounts: seq<real>, width: real, height: real)
    requires |amounts| > 0
    requires Max(amounts) != 0.0
    ensures exists k :: 0 <= k < |amounts| && amounts[k] == Max(amounts) &&
              BarAt(width, height, |amounts|, Scale(amounts), k, amounts[k]).height == ChartHeight(height)
  {
    var m := Max(amounts);
    var k :| 0 <= k < |amounts| && amounts[k] == m;
    var b := BarAt(width, height, |amounts|, m, k, m);
    BarShape(width, height, |amounts|, m, k, m);
    assert b.height * m == ChartHeight(height) * m;
    Cancel(b.height, ChartHeight(height), m);
  }

  /** With positive amounts the scale is the largest total and every bar is a
      positive fraction of the plot height. */
  lemma {:induction false} PositiveBarsWithinPlot(es: seq<Expense>, width: real, height: real, i: nat)
    requires AllPositive(es) && |es| > 0
    requires ChartHeight(height) > 0.0
    requires i < |CategoryAmounts(es)|
    ensures var amounts := CategoryAmounts(es);
      var b := BarAt(width, height, |amounts|, Scale(amounts), i, amounts[i]);
      && Scale(amounts) == Max(amounts) > 0.0
      && 0.0 < b.height <= ChartHeight(height)
      && PadTop <= b.y < PadTop + ChartHeight(height)
  {
    var amounts := CategoryAmounts(es);
    AmountsPositive(es);
    var m := Max(amounts);
    var a := amounts[i];
    var H := ChartHeight(height);
    var b := BarAt(width, height, |amounts|, m, i, a);
    BarShape(width, height, |amounts|, m, i, a);
    assert 0.0 < a <= m;
    assert b.height == (a / m) * H;
    FractionOfHeight(a, m, H);
  }

  /** With positive amounts there is at least one category and every category total is positive. */
  lemma {:induction false} AmountsPositive(es: seq<Expense>)
    requires AllPositive(es) && |es| > 0
    ensures |CategoryAmounts(es)| > 0
    ensures forall k :: 0 <= k < |CategoryAmounts(es)| ==> CategoryAmounts(es)[k] > 0.0
  {
    var amounts := CategoryAmounts(es);
    var cats := Categories(es);
    assert es[0].category in cats;
    forall k | 0 <= k < |amounts| ensures amounts[k] > 0.0 {
      assert cats[k] in cats;
      CategoryTotalPositive(es, cats[k]);
    }
  }

  /** Neighbouring bars are one bar width plus the gap apart. */
  lemma {:induction false} BarsEvenlySpaced(width: real, height: real, n: nat, scale: real, i: nat, a: real, b: real)
    requires n > 0 && scale != 0.0
    ensures BarAt(width, height, n, scale, i + 1, b).x - BarAt(width, height, n, scale, i, a).x
            == BarWidth(width, n) + Gap
  {
    var c := BarWidth(width, n) + Gap;
    BarShape(width, height, n, scale, i, a);
    BarShape(width, height, n, scale, i + 1, b);
    assert (i + 1) as real * c == i as real * c + c;
  }

  /** When the plot is not narrower than zero, every bar lies between the left
      padding and the right padding (less one gap). */
  lemma {:induction false} BarsFitHorizontally(width: real, height: real, n: nat, scale: real, i: nat, a: real)
    requires n > 0 && scale != 0.0 && i < n
    requires ChartWidth(width) >= 0.0
    ensures var b := BarAt(width, height, n, scale, i, a);
      PadLeft <= b.x && b.x + b.width <= width - PadRight - Gap
  {
    var b := BarAt(width, height, n, scale, i, a);
    BarShape(width, height, n, scale, i, a);
    SlotEnd(i, n, ChartWidth(width));
  }

  /** Slot `i` of `n` equal slots across a non-negative `total` starts at or after
      zero and ends by `total`. */
  lemma {:induction false} SlotEnd(i: nat, n: nat, total: real)
    requires i < n && total >= 0.0
    ensures 0.0 <= i as real * (total / n as real)
    ensures i as real * (total / n as real) + total / n as real <= total
  {
    var step := total / n as real;
    assert n as real * step == total;
    assert step >= 0.0;
    assert 0.0 <= i as real * step by { MulNonNegative(i as real, step); }
    assert (n - i - 1) as real * step >= 0.0 by { MulNonNegative((n - i - 1) as real, step); }
    assert n as real * step == i as real * step + step + (n - i - 1) as real * step;
  }

  lemma {:induction false} MulNonNegative(x: real, y: real)
    requires x >= 0.0 && y >= 0.0
    ensures x * y >= 0.0
  {
  }

  /** The seven palette colours are pairwise different. */
  lemma {:induction false} PaletteDistinct()
    ensures forall i, j :: 0 <= i < j < |Palette| ==> Palette[i] != Palette[j]
  {
    // The entries already differ in their first hex digit.
    assert Palette[0][1] == '6' && Palette[1][1] == '2' && Palette[2][1] == 'f' && Palette[3][1] == 'e';
    assert Palette[4][1] == '0' && Palette[5][1] == 'a' && Palette[6][1] == '1';
  }

  /** The palette repeats every seven bars and neighbours never share a colour. */
  lemma {:induction false} ColorsCycle(width: real, height: real, n: nat, scale: real, i: nat, a: real, b: real)
    requires n > 0 && scale != 0.0
    ensures BarAt(width, height, n, scale, i + |Palette|, b).color == BarAt(width, height, n, scale, i, a).color
    ensures BarAt(width, height, n, scale, i + 1, b).color != BarAt(width, height, n, scale, i, a).color
  {
    assert (i + 7) % 7 == i % 7;
    var p, q := i % 7, (i + 1) % 7;
    assert p != q;
    PaletteDistinct();
    if p < q {
      assert Palette[p] != Palette[q];
    } else {
      assert Palette[q] != Palette[p];
    }
  }
}
