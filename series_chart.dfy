/**
 Geometry of the exercise area/line chart (`renderExerciseXpGraph`): one
 point per exercise record, spread across the width in input order and
 scaled against the largest amount; the same points make the open line, the
 area polygon closed against the baseline, and the hover markers.
 */
module SeriesChart {
  import opened Geometry
  import opened Transactions
  import opened Decimal

  const TopMargin: real := 40.0
  const BottomMargin: real := 40.0

  /** A point marker and the text its tooltip shows on hover. */
  datatype Marker = Marker(center: Point, tooltip: string)

  /** The filled area, the line over it, and the markers. */
  datatype SeriesGeometry = SeriesGeometry(area: seq<Point>, line: seq<Point>, markers: seq<Marker>)

  /** `chartHeight = svgH - topMargin - bottomMargin`. */
  function ChartHeight(svgH: nat): real {
    svgH as real - TopMargin - BottomMargin
  }

  /** `baseY = svgH - bottomMargin`: the line an amount of 0 sits on. */
  function BaseY(svgH: nat): real {
    svgH as real - BottomMargin
  }

  /** `gapX`: the horizontal step between points, 0 when there are fewer than two. */
  function GapX(n: nat, svgW: nat): real {
    if n > 1 then svgW as real / (n - 1) as real else 0.0
  }

  /** `x` of point `i` out of `n`: centred when alone, else `gapX * i`. */
  function PointX(i: nat, n: nat, svgW: nat): real {
    if n == 1 then svgW as real / 2.0 else GapX(n, svgW) * i as real
  }

  /** `y` of an amount: the baseline when every amount is 0, else scaled against the maximum. */
  function PointY(val: nat, maxXP: nat, svgH: nat): real {
    if maxXP == 0 then BaseY(svgH) else BaseY(svgH) - val as real / maxXP as real * ChartHeight(svgH)
  }

  /** Point `i` of the chart for `data`. */
  function SeriesPoint(data: seq<Transaction>, i: nat, svgW: nat, svgH: nat): Point
    requires i < |data|
  {
    Point(PointX(i, |data|, svgW), PointY(data[i].amount, MaxAmount(data), svgH))
  }

  /** `${d.object.name}: ${d.amount} XP`. */
  function Tooltip(d: Transaction): string {
    d.obj.name + ": " + NatToString(d.amount) + " XP"
  }

  /**
   graphQL.js:185-247: the line points, the area polygon built from a second copy
   of them, and the markers, which recompute each point's coordinates.
   */
  method LayoutSeries(data: seq<Transaction>, svgW: nat, svgH: nat) returns (g: SeriesGeometry)
    ensures |g.line| == |data|
    ensures forall i :: 0 <= i < |data| ==> g.line[i] == SeriesPoint(data, i, svgW, svgH)
    ensures |g.area| == |data| + 2
    ensures g.area == [Point(0.0, BaseY(svgH))] + g.line + [Point(svgW as real, BaseY(svgH))]
    ensures |g.markers| == |data|
    ensures forall i :: 0 <= i < |data| ==> g.markers[i] == Marker(g.line[i], Tooltip(data[i]))
  {
    var baseY := BaseY(svgH);
    var n := |data|;
    var maxXP := MaxAmount(data);

    var linePoints: seq<Point> := [];
    var areaPoints: seq<Point> := [];
    var i := 0;
    while i < n
      invariant 0 <= i <= n
      invariant |linePoints| == i && areaPoints == linePoints
      invariant forall k :: 0 <= k < i ==> linePoints[k] == SeriesPoint(data, k, svgW, svgH)
    {
      var p := Point(PointX(i, n, svgW), PointY(data[i].amount, maxXP, svgH));
      linePoints := linePoints + [p];
      areaPoints := areaPoints + [p];
      i := i + 1;
    }
    var area := [Point(0.0, baseY)] + areaPoints + [Point(svgW as real, baseY)];

    var markers: seq<Marker> := [];
    i := 0;
    while i < n
      invariant 0 <= i <= n
      invariant |markers| == i
      invariant forall k :: 0 <= k < i ==> markers[k] == Marker(linePoints[k], Tooltip(data[k]))
    {
      var p := Point(PointX(i, n, svgW), PointY(data[i].amount, maxXP, svgH));
      markers := markers + [Marker(p, Tooltip(data[i]))];
      i := i + 1;
    }
    g := SeriesGeometry(area, linePoints, markers);
  }

  /** A single point is centred horizontally. */
  lemma SinglePointCentred(data: seq<Transaction>, svgW: nat, svgH: nat)
    requires |data| == 1
    ensures SeriesPoint(data, 0, svgW, svgH).x == svgW as real / 2.0
  {
  }

  /**
   With two or more points, the first is at the left edge, the last at the
   right edge, and consecutive points are `svgW / (n - 1)` apart.
   */
  lemma PointsSpreadEvenly(data: seq<Transaction>, i: nat, svgW: nat, svgH: nat)
    requires |data| > 1 && i + 1 < |data|
    ensures SeriesPoint(data, 0, svgW, svgH).x == 0.0
    ensures SeriesPoint(data, |data| - 1, svgW, svgH).x == svgW as real
    ensures SeriesPoint(data, i + 1, svgW, svgH).x - SeriesPoint(data, i, svgW, svgH).x
      == svgW as real / (|data| - 1) as real
  {
    var n := |data|;
    var step := svgW as real / (n - 1) as real;
    assert step * (n - 1) as real == svgW as real;
    assert step * (i + 1) as real == step * i as real + step;
  }

  /** Every point lies within the width of the canvas. */
  lemma PointsInsideWidth(data: seq<Transaction>, i: nat, svgW: nat, svgH: nat)
    requires i < |data|
    ensures 0.0 <= SeriesPoint(data, i, svgW, svgH).x <= svgW as real
  {
    var n := |data|;
    if n > 1 {
      var step := svgW as real / (n - 1) as real;
      assert SeriesPoint(data, i, svgW, svgH).x == step * i as real;
      assert step >= 0.0;
      assert step * (n - 1) as real - step * i as real == step * (n - 1 - i) as real >= 0.0;
      assert step * (n - 1) as real == svgW as real;
    }
  }

  /** All amounts 0: the line lies flat on the baseline. */
  lemma FlatWhenAllZero(data: seq<Transaction>, i: nat, svgW: nat, svgH: nat)
    requires i < |data|
    requires forall k :: 0 <= k < |data| ==> data[k].amount == 0
    ensures SeriesPoint(data, i, svgW, svgH).y == BaseY(svgH)
  {
    MaxAmountZero(data);
  }

  /**
   An amount's height lies between the margins, `[40, svgH - 40]`, and the
   largest amount sits exactly on the top margin.
   */
  lemma PointYBounds(val: nat, maxXP: nat, svgH: nat)
    requires val <= maxXP
    requires svgH as real >= TopMargin + BottomMargin
    ensures TopMargin <= PointY(val, maxXP, svgH) <= BaseY(svgH)
    ensures 0 < val == maxXP ==> PointY(val, maxXP, svgH) == TopMargin
  {
    if maxXP > 0 {
      var q := val as real / maxXP as real;
      assert 0.0 <= q <= 1.0;
      assert PointY(val, maxXP, svgH) == BaseY(svgH) - q * ChartHeight(svgH);
      ScaleWithin(q, ChartHeight(svgH));
      assert val == maxXP ==> q == 1.0 by {
        assert q * maxXP as real == val as real;
      }
    }
  }

  /** Every point lies between the margins; a point of the largest amount touches the top one. */
  lemma PointsInsideHeight(data: seq<Transaction>, i: nat, svgW: nat, svgH: nat)
    requires i < |data|
    requires svgH as real >= TopMargin + BottomMargin
    ensures TopMargin <= SeriesPoint(data, i, svgW, svgH).y <= BaseY(svgH)
    ensures 0 < data[i].amount == MaxAmount(data) ==> SeriesPoint(data, i, svgW, svgH).y == TopMargin
  {
    PointYBounds(data[i].amount, MaxAmount(data), svgH);
  }

  /** A larger amount is drawn higher up, and conversely. */
  lemma PointYMonotone(a: nat, b: nat, maxXP: nat, svgH: nat)
    requires a <= maxXP && b <= maxXP && maxXP > 0
    requires svgH as real > TopMargin + BottomMargin
    ensures a <= b <==> PointY(b, maxXP, svgH) <= PointY(a, maxXP, svgH)
  {
    ScaleMonotone(a as real, b as real, maxXP as real, ChartHeight(svgH));
  }

  /** Points are ordered top to bottom as their amounts are, in both directions. */
  lemma PointsOrdered(data: seq<Transaction>, i: nat, j: nat, svgW: nat, svgH: nat)
    requires i < |data| && j < |data|
    requires MaxAmount(data) > 0 && svgH as real > TopMargin + BottomMargin
    ensures data[i].amount <= data[j].amount <==>
      SeriesPoint(data, j, svgW, svgH).y <= SeriesPoint(data, i, svgW, svgH).y
  {
    PointYMonotone(data[i].amount, data[j].amount, MaxAmount(data), svgH);
  }

  /** Amounts `[0, m, 0]` with `m > 0`: the middle point is on the top margin, the outer two on the baseline. */
  lemma PeakExample(a: Transaction, b: Transaction, c: Transaction, svgW: nat, svgH: nat)
    requires a.amount == 0 && b.amount > 0 && c.amount == 0
    ensures SeriesPoint([a, b, c], 1, svgW, svgH) == Point(svgW as real / 2.0, BaseY(svgH) - ChartHeight(svgH))
    ensures SeriesPoint([a, b, c], 0, svgW, svgH) == Point(0.0, BaseY(svgH))
    ensures SeriesPoint([a, b, c], 2, svgW, svgH) == Point(svgW as real, BaseY(svgH))
  {
    assert MaxAmount([a, b, c]) == b.amount;
    assert b.amount as real / b.amount as real == 1.0;
  }

  /** The tooltip starts with the name, ends with " XP", and the text between reads back as the amount. */
  lemma TooltipReadsBack(d: Transaction)
    ensures var t := Tooltip(d);
      && |t| >= |d.obj.name| + 5
      && t[..|d.obj.name|] == d.obj.name
      && t[|d.obj.name|..|d.obj.name| + 2] == ": "
      && t[|t| - 3..] == " XP"
      && AllDigits(t[|d.obj.name| + 2..|t| - 3])
      && ParseNat(t[|d.obj.name| + 2..|t| - 3]) == d.amount
  {
    var t := Tooltip(d);
    var name, digits := d.obj.name, NatToString(d.amount);
    assert t == name + ": " + digits + " XP";
    assert t[|name| + 2..|t| - 3] == digits;
    ParseNatToString(d.amount);
  }
}
