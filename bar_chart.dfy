/**
 Geometry of the project bar chart (`renderProjectXpGraph`): one bar per
 project record, left to right in input order, each with its name written
 vertically at the bar's centre and its raw amount just above its top.
 */
module BarChart {
  import opened Geometry
  import opened Transactions
  import opened Decimal

  /** The fixed space between bars, and between the outer bars and the edges. */
  const Gap: real := 12.0
  /** Space kept below the baseline. */
  const BottomMargin: real := 40.0
  /** Space kept above and below the bars together. */
  const Margins: real := 80.0
  /** How far the value label sits above the bar top. */
  const ValueOffset: real := 6.0
  /** `rotate(-90 lx ly)`: a quarter turn counter-clockwise. */
  const NameRotation: real := -90.0

  /** An SVG `rotate(degrees cx cy)` transform. */
  datatype Rotation = Rotation(degrees: real, pivot: Point)

  /** The project name: drawn at `anchor`, turned by `rotation`. */
  datatype NameLabel = NameLabel(anchor: Point, rotation: Rotation, text: string)

  /** The amount printed above the bar. */
  datatype ValueLabel = ValueLabel(anchor: Point, text: string)

  /** The rectangle `(x, y, width, height)` and its two labels. */
  datatype Bar = Bar(x: real, y: real, width: real, height: real, name: NameLabel, value: ValueLabel)

  /**
   A JavaScript number as the unguarded height formula can produce it: `0 / 0`
   is NaN. (Infinity cannot arise, since no amount exceeds the maximum.)
   */
  datatype JsNumber = Finite(value: real) | NaN

  /** `baseY = svgH - 40`: the line every bar stands on. */
  function BaseY(svgH: nat): real {
    svgH as real - BottomMargin
  }

  /** `barW = (svgW - gap * (n + 1)) / n`. */
  function BarWidth(svgW: nat, n: nat): real
    requires n > 0
  {
    (svgW as real - Gap * (n + 1) as real) / n as real
  }

  /** `x = gap + i * (barW + gap)`. */
  function BarX(i: nat, barW: real): real {
    Gap + i as real * (barW + Gap)
  }

  /** The height formula exactly as written: `(val / maxVal) * (svgH - 80)`. */
  function HeightAsWritten(val: nat, maxVal: nat, svgH: nat): (h: JsNumber)
    requires val <= maxVal
    ensures h.NaN? <==> maxVal == 0
  {
    if maxVal == 0 then NaN else Finite(val as real / maxVal as real * (svgH as real - Margins))
  }

  /**
   The height formula with the zero guard the exercise chart has: a bar is
   flat when every amount is 0, and otherwise the formula as written.
   */
  function BarHeight(val: nat, maxVal: nat, svgH: nat): (h: real)
    requires val <= maxVal
    ensures maxVal == 0 ==> h == 0.0
    ensures maxVal > 0 ==> HeightAsWritten(val, maxVal, svgH) == Finite(h)
  {
    if maxVal == 0 then 0.0 else val as real / maxVal as real * (svgH as real - Margins)
  }

  /** Bar `i` of the chart for `data` in an `svgW` by `svgH` canvas. */
  function BarAt(data: seq<Transaction>, i: nat, svgW: nat, svgH: nat): Bar
    requires i < |data|
  {
    var barW := BarWidth(svgW, |data|);
    var h := BarHeight(data[i].amount, MaxAmount(data), svgH);
    var x := BarX(i, barW);
    var y := BaseY(svgH) - h;
    var centre := Point(x + barW / 2.0, y + h / 2.0);
    Bar(x, y, barW, h,
        NameLabel(centre, Rotation(NameRotation, centre), data[i].obj.name),
        ValueLabel(Point(x + barW / 2.0, y - ValueOffset), NatToString(data[i].amount)))
  }

  /**
   graphQL.js:121-167: the bars in input order. With no data the source's
   `barW` is not finite, but the loop draws nothing, so the layout is empty.
   */
  method LayoutBars(data: seq<Transaction>, svgW: nat, svgH: nat) returns (bars: seq<Bar>)
    ensures |bars| == |data|
    ensures forall i :: 0 <= i < |data| ==> bars[i] == BarAt(data, i, svgW, svgH)
  {
    bars := [];
    if |data| == 0 {
      return;
    }
    var baseY := svgH as real - BottomMargin;
    var maxVal := MaxAmount(data);
    var barW := (svgW as real - Gap * (|data| + 1) as real) / |data| as real;
    var i := 0;
    while i < |data|
      invariant 0 <= i <= |data|
      invariant |bars| == i
      invariant forall k :: 0 <= k < i ==> bars[k] == BarAt(data, k, svgW, svgH)
    {
      var val := data[i].amount;
      var h := if maxVal == 0 then 0.0 else val as real / maxVal as real * (svgH as real - Margins);
      var x := Gap + i as real * (barW + Gap);
      var y := baseY - h;
      var lx, ly := x + barW / 2.0, y + h / 2.0;
      var name := NameLabel(Point(lx, ly), Rotation(NameRotation, Point(lx, ly)), data[i].obj.name);
      var value := ValueLabel(Point(x + barW / 2.0, y - ValueOffset), NatToString(val));
      bars := bars + [Bar(x, y, barW, h, name, value)];
      i := i + 1;
    }
  }

  /** `n` bars of width BarWidth and `n + 1` gaps fill the whole width. */
  lemma BarWidthFills(svgW: nat, n: nat)
    requires n > 0
    ensures n as real * BarWidth(svgW, n) + Gap * (n + 1) as real == svgW as real
  {
  }

  lemma BarXStep(i: nat, barW: real)
    ensures BarX(i + 1, barW) == BarX(i, barW) + barW + Gap
  {
    assert (i + 1) as real * (barW + Gap) == i as real * (barW + Gap) + (barW + Gap);
  }

  /** The first bar starts one gap in, and each next bar starts one gap after the previous one ends. */
  lemma BarsSpaced(data: seq<Transaction>, i: nat, svgW: nat, svgH: nat)
    requires i + 1 < |data|
    ensures BarAt(data, 0, svgW, svgH).x == Gap
    ensures BarAt(data, i + 1, svgW, svgH).x == BarAt(data, i, svgW, svgH).x + BarAt(data, i, svgW, svgH).width + Gap
    ensures BarAt(data, i + 1, svgW, svgH).width == BarAt(data, i, svgW, svgH).width
  {
    BarXStep(i, BarWidth(svgW, |data|));
  }

  /** A chart with any bars at all starts its first bar one gap in. */
  lemma FirstBarAtGap(data: seq<Transaction>, svgW: nat, svgH: nat)
    requires |data| > 0
    ensures BarAt(data, 0, svgW, svgH).x == Gap
  {
  }

  /** The last bar ends exactly one gap before the right edge. */
  lemma LastBarRightEdge(data: seq<Transaction>, svgW: nat, svgH: nat)
    requires |data| > 0
    ensures var last := BarAt(data, |data| - 1, svgW, svgH);
      last.x + last.width == svgW as real - Gap
  {
    var n := |data|;
    var barW := BarWidth(svgW, n);
    BarWidthFills(svgW, n);
    assert BarX(n - 1, barW) + barW == n as real * barW + Gap * n as real by {
      assert (n - 1) as real * (barW + Gap) == n as real * barW + Gap * n as real - barW - Gap;
    }
  }

  /** With a non-negative width, no bar starts before the first or after the last. */
  lemma BarXBetween(i: nat, n: nat, barW: real)
    requires i < n && barW >= 0.0
    ensures Gap <= BarX(i, barW) <= BarX(n - 1, barW)
  {
    assert 0.0 <= i as real * (barW + Gap) <= (n - 1) as real * (barW + Gap);
  }

  /** When the canvas is wide enough for the gaps, every bar has non-negative width and lies inside it. */
  lemma BarsInsideWidth(data: seq<Transaction>, i: nat, svgW: nat, svgH: nat)
    requires i < |data|
    requires svgW as real >= Gap * (|data| + 1) as real
    ensures var b := BarAt(data, i, svgW, svgH);
      b.width >= 0.0 && Gap <= b.x && b.x + b.width <= svgW as real - Gap
  {
    var n := |data|;
    var barW := BarWidth(svgW, n);
    assert barW >= 0.0 by {
      assert svgW as real - Gap * (n + 1) as real >= 0.0;
    }
    BarXBetween(i, n, barW);
    LastBarRightEdge(data, svgW, svgH);
    var b, last := BarAt(data, i, svgW, svgH), BarAt(data, n - 1, svgW, svgH);
    assert b.x == BarX(i, barW) && b.width == barW;
    assert last.x == BarX(n - 1, barW) && last.width == barW;
  }

  /** A height lies in `[0, svgH - 80]` and reaches the top for the largest amount. */
  lemma BarHeightBounds(val: nat, maxVal: nat, svgH: nat)
    requires val <= maxVal
    requires svgH as real >= Margins
    ensures 0.0 <= BarHeight(val, maxVal, svgH) <= svgH as real - Margins
    ensures 0 < val == maxVal ==> BarHeight(val, maxVal, svgH) == svgH as real - Margins
  {
    if maxVal > 0 {
      var q := val as real / maxVal as real;
      assert 0.0 <= q <= 1.0;
      assert BarHeight(val, maxVal, svgH) == q * (svgH as real - Margins);
      ScaleWithin(q, svgH as real - Margins);
      assert val == maxVal ==> q == 1.0 by {
        assert q * maxVal as real == val as real;
      }
    }
  }

  /**
   Every bar stands on the baseline; its height lies in `[0, svgH - 80]`, so
   its top is at least 40 below the canvas top, and a bar of the largest
   amount reaches exactly 40.
   */
  lemma BarHeightRange(data: seq<Transaction>, i: nat, svgW: nat, svgH: nat)
    requires i < |data|
    requires svgH as real >= Margins
    ensures var b := BarAt(data, i, svgW, svgH);
      b.y + b.height == BaseY(svgH) && 0.0 <= b.height <= svgH as real - Margins && b.y >= 40.0
    ensures 0 < data[i].amount == MaxAmount(data) ==> BarAt(data, i, svgW, svgH).y == 40.0
  {
    BarHeightBounds(data[i].amount, MaxAmount(data), svgH);
  }

  /** Heights are ordered as amounts are, in both directions. */
  lemma BarHeightMonotone(a: nat, b: nat, maxVal: nat, svgH: nat)
    requires a <= maxVal && b <= maxVal && maxVal > 0
    requires svgH as real > Margins
    ensures a <= b <==> BarHeight(a, maxVal, svgH) <= BarHeight(b, maxVal, svgH)
  {
    ScaleMonotone(a as real, b as real, maxVal as real, svgH as real - Margins);
  }

  /** Bars are ordered as their amounts are, in both directions; equal amounts give equal bars. */
  lemma BarHeightsOrdered(data: seq<Transaction>, i: nat, j: nat, svgW: nat, svgH: nat)
    requires i < |data| && j < |data|
    requires MaxAmount(data) > 0 && svgH as real > Margins
    ensures data[i].amount <= data[j].amount <==>
      BarAt(data, i, svgW, svgH).height <= BarAt(data, j, svgW, svgH).height
    ensures data[i].amount == data[j].amount ==>
      BarAt(data, i, svgW, svgH).height == BarAt(data, j, svgW, svgH).height
  {
    BarHeightMonotone(data[i].amount, data[j].amount, MaxAmount(data), svgH);
  }

  /**
   The name is drawn at the bar's centre and turned about that same point;
   the value sits centred 6 above the bar top and reads back as the amount.
   */
  lemma BarLabels(data: seq<Transaction>, i: nat, svgW: nat, svgH: nat)
    requires i < |data|
    ensures var b := BarAt(data, i, svgW, svgH);
      && b.name.anchor == Point(b.x + b.width / 2.0, b.y + b.height / 2.0)
      && b.name.rotation == Rotation(-90.0, b.name.anchor)
      && b.name.text == data[i].obj.name
      && b.value.anchor == Point(b.name.anchor.x, b.y - 6.0)
      && ParseNat(b.value.text) == data[i].amount
  {
    ParseNatToString(data[i].amount);
  }

  /** Amounts 100 and 400 in a 124 by 120 canvas: bars 44 wide at x = 12 and 68, 10 and 40 high, on baseline 80. */
  lemma TwoBarExample(a: Transaction, b: Transaction)
    requires a.amount == 100 && b.amount == 400
    ensures var bars := [BarAt([a, b], 0, 124, 120), BarAt([a, b], 1, 124, 120)];
      && bars[0].x == 12.0 && bars[0].y == 70.0 && bars[0].width == 44.0 && bars[0].height == 10.0
      && bars[1].x == 68.0 && bars[1].y == 40.0 && bars[1].width == 44.0 && bars[1].height == 40.0
      && bars[1].x + bars[1].width == 112.0
  {
    assert MaxAmount([a, b]) == 400;
  }

  /** With the guard, a chart whose amounts are all 0 is a row of flat bars on the baseline. */
  lemma AllZeroBarsFlat(data: seq<Transaction>, i: nat, svgW: nat, svgH: nat)
    requires i < |data|
    requires forall k :: 0 <= k < |data| ==> data[k].amount == 0
    ensures BarAt(data, i, svgW, svgH).height == 0.0 && BarAt(data, i, svgW, svgH).y == BaseY(svgH)
  {
    MaxAmountZero(data);
  }

  /** With every amount 0 the formula as written gives NaN, where the guarded one gives a flat bar. */
  lemma AllZeroBarsAsWritten(a: Transaction, svgW: nat, svgH: nat)
    requires a.amount == 0
    ensures HeightAsWritten(a.amount, MaxAmount([a]), svgH) == NaN
    ensures BarAt([a], 0, svgW, svgH).height == 0.0 && BarAt([a], 0, svgW, svgH).y == BaseY(svgH)
  {
  }
}
