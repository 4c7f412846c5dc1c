/**
 * What the chart group holds after a rebuild, as a function of the view state, with the ids
 * of the objects forgotten: candle body/wick pairs, the enabled indicator objects, the title
 * label and the timeframe badge, in the order they are added.
 */
module ChartLayout {
  import opened Wrappers
  import opened SceneGraph
  import opened ChartData

  const LabelColor := 0x3377ff
  const MovingAverageColor := 0x00ffff
  const RsiColor := 0xff00ff
  const MacdColor := 0xffff00
  const MovingAverageParticles := 15

  /** `indicators[name]` read as a condition: a flag that was never set reads `undefined`, which is falsy. */
  function Flag(indicators: map<string, bool>, name: string): (on: bool)
    ensures name !in indicators ==> !on
  {
    name in indicators && indicators[name]
  }

  function BodyShape(data: seq<Candle>, i: nat): Shape
    requires i < |data|
  {
    Shape(CandleBody(BodyColor(data[i]), BodyHeight(data[i]), CandleX(i, |data|)), [])
  }

  function WickShape(data: seq<Candle>, i: nat): Shape
    requires i < |data|
  {
    Shape(Wick(WickColor, WickHeight(data[i]), CandleX(i, |data|)), [])
  }

  /** The body/wick pairs the `forEach` adds for the first `k` records. */
  function CandlePairs(data: seq<Candle>, k: nat): seq<Shape>
    requires k <= |data|
  {
    if k == 0 then [] else CandlePairs(data, k - 1) + [BodyShape(data, k - 1), WickShape(data, k - 1)]
  }

  /** The control polygon of an indicator curve: one point per record, at the record's x, with y a fixed linear map of the close. */
  function ControlPoints(data: seq<Candle>, scale: real, offset: real): seq<Point>
  {
    seq(|data|, i requires 0 <= i < |data| => Point(CandleX(i, |data|), data[i].close as real * scale + offset))
  }

  /** `addMovingAverage`: a line, then a cloud of 15 particles along it. */
  function MovingAverageShapes(data: seq<Candle>): seq<Shape>
  {
    [ Shape(Curve(MovingAverage, MovingAverageColor, ControlPoints(data, 0.01, 0.2)), []),
      Shape(CurveParticles(MovingAverageParticles, MovingAverageColor), []) ]
  }

  /** `addRSI`: one line. */
  function RsiShape(data: seq<Candle>): Shape
  {
    Shape(Curve(Rsi, RsiColor, ControlPoints(data, 0.008, -0.3)), [])
  }

  /** `addMACD`: one line. */
  function MacdShape(data: seq<Candle>): Shape
  {
    Shape(Curve(Macd, MacdColor, ControlPoints(data, 0.006, -0.5)), [])
  }

  function IndicatorShapes(data: seq<Candle>, ma: bool, rsi: bool, macd: bool): seq<Shape>
  {
    (if ma then MovingAverageShapes(data) else [])
    + (if rsi then [RsiShape(data)] else [])
    + (if macd then [MacdShape(data)] else [])
  }

  function LabelShape(): Shape
  {
    Shape(Label(LabelColor), [])
  }

  /** A line for up to four boxes, a circle for more. */
  function BoxLayoutFor(i: nat, count: nat): BoxLayout
  {
    if count <= 4 then OnLine(LineX(i, count)) else OnCircle(i, count)
  }

  function BoxShape(timeframe: string, i: nat): Shape
  {
    Shape(BadgeBox(BadgeColor(timeframe), BoxLayoutFor(i, BadgeCount(timeframe))), [])
  }

  /** The boxes `createTimeframeIndicator` adds for `i` = 0 .. k-1. */
  function BoxShapes(timeframe: string, k: nat): seq<Shape>
  {
    if k == 0 then [] else BoxShapes(timeframe, k - 1) + [BoxShape(timeframe, k - 1)]
  }

  function BadgeShape(timeframe: string): Shape
  {
    Shape(Badge(BadgeColor(timeframe)), BoxShapes(timeframe, BadgeCount(timeframe)))
  }

  function ExpectedChart(data: seq<Candle>, ma: bool, rsi: bool, macd: bool, timeframe: string): seq<Shape>
  {
    CandlePairs(data, |data|) + IndicatorShapes(data, ma, rsi, macd) + [LabelShape(), BadgeShape(timeframe)]
  }

  /** The chart group after a rebuild in the given view state; `None` when the timeframe has no data. */
  function ChartFor(timeframe: string, indicators: map<string, bool>): Option<seq<Shape>>
  {
    match TimeframeData(timeframe)
    case None => None
    case Some(data) =>
      Some(ExpectedChart(data, Flag(indicators, "MA"), Flag(indicators, "RSI"), Flag(indicators, "MACD"), timeframe))
  }

  // ---------------------------------------------------------------- lemmas

  /** `ChartFor` in terms of the table lookup it starts with. */
  lemma ChartForData(timeframe: string, indicators: map<string, bool>, data: seq<Candle>)
    ensures TimeframeData(timeframe) == None ==> ChartFor(timeframe, indicators) == None
    ensures TimeframeData(timeframe) == Some(data) ==>
      ChartFor(timeframe, indicators) ==
        Some(ExpectedChart(data, Flag(indicators, "MA"), Flag(indicators, "RSI"), Flag(indicators, "MACD"), timeframe))
  {
  }

  /** The first `k` records give 2k children: record i's body at 2i and its wick at 2i+1. */
  lemma {:induction false} CandlePairAt(data: seq<Candle>, k: nat, i: nat)
    requires i < k <= |data|
    ensures |CandlePairs(data, k)| == 2 * k
    ensures CandlePairs(data, k)[2 * i] == BodyShape(data, i)
    ensures CandlePairs(data, k)[2 * i + 1] == WickShape(data, i)
  {
    if i < k - 1 {
      CandlePairAt(data, k - 1, i);
    } else if k > 1 {
      CandlePairAt(data, k - 1, 0);
    }
  }

  lemma {:induction false} CandlePairsLength(data: seq<Candle>, k: nat)
    requires k <= |data|
    ensures |CandlePairs(data, k)| == 2 * k
  {
    if k > 0 {
      CandlePairsLength(data, k - 1);
    }
  }

  /**
   * A rebuild adds 2n + 2·[MA] + [RSI] + [MACD] + 2 children, n the number of records.
   */
  lemma ChartCount(data: seq<Candle>, ma: bool, rsi: bool, macd: bool, timeframe: string)
    ensures |ExpectedChart(data, ma, rsi, macd, timeframe)|
         == 2 * |data| + (if ma then 2 else 0) + (if rsi then 1 else 0) + (if macd then 1 else 0) + 2
  {
    CandlePairsLength(data, |data|);
  }

  /**
   * Children 2i and 2i+1 are record i's body and wick: the body is green exactly when the
   * close is above the open and red otherwise, |close - open|·0.01 tall; the wick is white and
   * |high - low|·0.01 tall; both stand at x = i·0.5 - n·0.25.
   */
  lemma ChartCandle(data: seq<Candle>, ma: bool, rsi: bool, macd: bool, timeframe: string, i: nat)
    requires i < |data|
    ensures var chart := ExpectedChart(data, ma, rsi, macd, timeframe);
      var c := data[i];
      var x := i as real * 0.5 - |data| as real * 0.25;
      2 * i + 1 < |chart| &&
      chart[2 * i].parts == [] && chart[2 * i + 1].parts == [] &&
      chart[2 * i].prim.CandleBody? &&
      (chart[2 * i].prim.color == 0x00ff88 <==> c.close > c.open) &&
      (chart[2 * i].prim.color == 0xff4466 <==> c.close <= c.open) &&
      chart[2 * i].prim.height == Abs(c.close - c.open) as real * 0.01 &&
      chart[2 * i].prim.x == x &&
      chart[2 * i + 1].prim == Wick(0xffffff, Abs(c.high - c.low) as real * 0.01, x)
  {
    CandlePairAt(data, |data|, i);
  }

  /**
   * After the candles come, in this order: the moving-average line and its particles iff MA,
   * the RSI line iff RSI, the MACD line iff MACD, then the label, then the badge last.
   */
  lemma ChartTail(data: seq<Candle>, ma: bool, rsi: bool, macd: bool, timeframe: string)
    ensures var chart := ExpectedChart(data, ma, rsi, macd, timeframe);
      2 * |data| + 2 <= |chart| &&
      chart[2 * |data|..] ==
        (if ma then [Shape(Curve(MovingAverage, 0x00ffff, ControlPoints(data, 0.01, 0.2)), []),
                     Shape(CurveParticles(15, 0x00ffff), [])] else [])
        + (if rsi then [Shape(Curve(Rsi, 0xff00ff, ControlPoints(data, 0.008, -0.3)), [])] else [])
        + (if macd then [Shape(Curve(Macd, 0xffff00, ControlPoints(data, 0.006, -0.5)), [])] else [])
        + [Shape(Label(0x3377ff), []), BadgeShape(timeframe)]
  {
    CandlePairsLength(data, |data|);
    var pairs := CandlePairs(data, |data|);
    var rest := IndicatorShapes(data, ma, rsi, macd) + [LabelShape(), BadgeShape(timeframe)];
    assert ExpectedChart(data, ma, rsi, macd, timeframe) == pairs + rest;
    assert (pairs + rest)[|pairs|..] == rest;
  }

  /**
   * The shape at position `k` of `chart` is an indicator curve drawn over the candles of
   * `data`: one control point per record, standing at the x of that record's body, and
   * higher exactly where the record's close is higher.
   */
  ghost predicate CurveOver(chart: seq<Shape>, k: nat, data: seq<Candle>)
  {
    k < |chart| && 2 * |data| <= |chart| &&
    (forall i | 0 <= i < |data| :: chart[2 * i].prim.CandleBody?) &&
    chart[k].prim.Curve? && |chart[k].prim.control| == |data| &&
    (forall i | 0 <= i < |data| :: chart[k].prim.control[i].x == chart[2 * i].prim.x) &&
    (forall i, j | 0 <= i < |data| && 0 <= j < |data| ::
      chart[k].prim.control[i].y < chart[k].prim.control[j].y <==> data[i].close < data[j].close)
  }

  /** A positive scale keeps the order of the closes. */
  lemma ScaledOrder(a: int, b: int, scale: real, offset: real)
    requires scale > 0.0
    ensures a as real * scale + offset < b as real * scale + offset <==> a < b
  {
    assert b as real * scale - a as real * scale == (b - a) as real * scale;
    if a < b {
      assert (b - a) as real * scale > 0.0;
    } else {
      assert (b - a) as real * scale <= 0.0;
    }
  }

  /** The control points of a curve with a positive scale follow the candles of `data`. */
  lemma ControlPointsOver(chart: seq<Shape>, k: nat, data: seq<Candle>, ind: Indicator, color: int, scale: real, offset: real)
    requires scale > 0.0 && k < |chart| && 2 * |data| <= |chart|
    requires forall i | 0 <= i < |data| :: chart[2 * i].prim.CandleBody? && chart[2 * i].prim.x == CandleX(i, |data|)
    requires chart[k].prim == Curve(ind, color, ControlPoints(data, scale, offset))
    ensures CurveOver(chart, k, data)
  {
    var control := chart[k].prim.control;
    forall i, j | 0 <= i < |data| && 0 <= j < |data|
      ensures control[i].y < control[j].y <==> data[i].close < data[j].close
    {
      assert control[i].y == data[i].close as real * scale + offset;
      assert control[j].y == data[j].close as real * scale + offset;
      ScaledOrder(data[i].close, data[j].close, scale, offset);
    }
  }

  /** Every candle body of the chart stands at its record's x. */
  lemma BodiesAtX(data: seq<Candle>, ma: bool, rsi: bool, macd: bool, timeframe: string)
    ensures var chart := ExpectedChart(data, ma, rsi, macd, timeframe);
      2 * |data| <= |chart| &&
      forall i | 0 <= i < |data| :: chart[2 * i].prim.CandleBody? && chart[2 * i].prim.x == CandleX(i, |data|)
  {
    CandlePairsLength(data, |data|);
    forall i | 0 <= i < |data|
      ensures var chart := ExpectedChart(data, ma, rsi, macd, timeframe);
        chart[2 * i].prim.CandleBody? && chart[2 * i].prim.x == CandleX(i, |data|)
    {
      ChartCandle(data, ma, rsi, macd, timeframe, i);
    }
  }

  /** Position `m` of the indicator shapes is position 2n + m of the chart. */
  lemma IndicatorAt(data: seq<Candle>, ma: bool, rsi: bool, macd: bool, timeframe: string, m: nat)
    requires m < |IndicatorShapes(data, ma, rsi, macd)|
    ensures var chart := ExpectedChart(data, ma, rsi, macd, timeframe);
      2 * |data| + m < |chart| && chart[2 * |data| + m] == IndicatorShapes(data, ma, rsi, macd)[m]
  {
    CandlePairsLength(data, |data|);
  }

  /**
   * Every indicator curve the flags switch on is drawn over the candles: the moving average
   * right after the candle pairs, then RSI, then MACD, each following the record closes.
   */
  lemma CurvesFollowCandles(data: seq<Candle>, ma: bool, rsi: bool, macd: bool, timeframe: string)
    ensures var chart := ExpectedChart(data, ma, rsi, macd, timeframe);
      var maAt := 2 * |data|;
      var rsiAt := maAt + (if ma then 2 else 0);
      var macdAt := rsiAt + (if rsi then 1 else 0);
      (ma ==> CurveOver(chart, maAt, data)) &&
      (rsi ==> CurveOver(chart, rsiAt, data)) &&
      (macd ==> CurveOver(chart, macdAt, data))
  {
    var chart := ExpectedChart(data, ma, rsi, macd, timeframe);
    var shapes := IndicatorShapes(data, ma, rsi, macd);
    var n := 2 * |data|;
    BodiesAtX(data, ma, rsi, macd, timeframe);
    var rsiOff := if ma then 2 else 0;
    var macdOff := rsiOff + (if rsi then 1 else 0);
    if ma {
      assert shapes[0] == MovingAverageShapes(data)[0];
      IndicatorAt(data, ma, rsi, macd, timeframe, 0);
      ControlPointsOver(chart, n, data, MovingAverage, MovingAverageColor, 0.01, 0.2);
    }
    if rsi {
      assert shapes[rsiOff] == RsiShape(data);
      IndicatorAt(data, ma, rsi, macd, timeframe, rsiOff);
      ControlPointsOver(chart, n + rsiOff, data, Rsi, RsiColor, 0.008, -0.3);
    }
    if macd {
      assert shapes[macdOff] == MacdShape(data);
      IndicatorAt(data, ma, rsi, macd, timeframe, macdOff);
      ControlPointsOver(chart, n + macdOff, data, Macd, MacdColor, 0.006, -0.5);
    }
  }

  lemma {:induction false} BoxShapesAt(timeframe: string, k: nat, i: nat)
    requires i < k
    ensures |BoxShapes(timeframe, k)| == k
    ensures BoxShapes(timeframe, k)[i] == BoxShape(timeframe, i)
  {
    if i < k - 1 {
      BoxShapesAt(timeframe, k - 1, i);
    } else if k > 1 {
      BoxShapesAt(timeframe, k - 1, 0);
    }
  }

  /**
   * The badge is a group of 1 cyan box for 1H, 4 yellow boxes for 4H and 24 magenta boxes for
   * any other key; up to four boxes stand on a line symmetric about 0, more go round a circle.
   */
  lemma BadgeLayout(timeframe: string, i: nat)
    requires i < BadgeCount(timeframe)
    ensures var b := BadgeShape(timeframe);
      var count := if timeframe == "1H" then 1 else if timeframe == "4H" then 4 else 24;
      var color := if timeframe == "1H" then 0x00ffff else if timeframe == "4H" then 0xffff00 else 0xff00ff;
      b.prim == Badge(color) && |b.parts| == count &&
      b.parts[i].parts == [] && b.parts[i].prim.BadgeBox? && b.parts[i].prim.color == color &&
      var x := (i as real - (count as real - 1.0) / 2.0) * 0.12;
      (count <= 4 ==> b.parts[i].prim.layout == OnLine(x)) &&
      (count <= 4 ==> b.parts[count - 1 - i].prim == BadgeBox(color, OnLine(-x))) &&
      (count > 4 ==> b.parts[i].prim.layout == OnCircle(i, count))
  {
    var count := BadgeCount(timeframe);
    BoxShapesAt(timeframe, count, i);
    BoxShapesAt(timeframe, count, count - 1 - i);
    if count <= 4 {
      BadgeLineSymmetric(i, count);
    }
  }

  /** Indicator flags change neither the candle pairs nor the label and badge at the end. */
  lemma IndicatorsKeepCandles(data: seq<Candle>, ma: bool, rsi: bool, macd: bool,
                              ma': bool, rsi': bool, macd': bool, timeframe: string)
    ensures var a := ExpectedChart(data, ma, rsi, macd, timeframe);
      var b := ExpectedChart(data, ma', rsi', macd', timeframe);
      2 * |data| + 2 <= |a| && 2 * |data| + 2 <= |b| &&
      a[..2 * |data|] == b[..2 * |data|] && a[|a| - 2..] == b[|b| - 2..]
  {
    CandlePairsLength(data, |data|);
    var pairs := CandlePairs(data, |data|);
    var end := [LabelShape(), BadgeShape(timeframe)];
    var a := ExpectedChart(data, ma, rsi, macd, timeframe);
    var b := ExpectedChart(data, ma', rsi', macd', timeframe);
    assert a == pairs + IndicatorShapes(data, ma, rsi, macd) + end;
    assert b == pairs + IndicatorShapes(data, ma', rsi', macd') + end;
    assert a[..2 * |data|] == pairs;
    assert b[..2 * |data|] == pairs;
    assert a[|a| - 2..] == end;
    assert b[|b| - 2..] == end;
  }

  /**
   * Setting a flag that is off to true and back to false gives the chart it had; setting a
   * name other than MA, RSI and MACD changes nothing in the chart.
   */
  lemma ToggleRoundTrip(timeframe: string, indicators: map<string, bool>, name: string)
    requires !Flag(indicators, name)
    ensures ChartFor(timeframe, indicators[name := true][name := false]) == ChartFor(timeframe, indicators)
  {
    var after := indicators[name := true][name := false];
    assert Flag(after, "MA") == Flag(indicators, "MA");
    assert Flag(after, "RSI") == Flag(indicators, "RSI");
    assert Flag(after, "MACD") == Flag(indicators, "MACD");
  }

  /**
   * Storing a flag under one name is read back under that name and under no other, and a
   * name never stored reads as off.
   */
  lemma FlagUpdate(indicators: map<string, bool>, stored: string, enabled: bool, name: string)
    ensures Flag(indicators[stored := enabled], stored) == enabled
    ensures name != stored ==> Flag(indicators[stored := enabled], name) == Flag(indicators, name)
    ensures Flag(map[], name) == false
  {
  }

  lemma UnknownIndicator(timeframe: string, indicators: map<string, bool>, name: string, enabled: bool)
    requires name != "MA" && name != "RSI" && name != "MACD"
    ensures ChartFor(timeframe, indicators[name := enabled]) == ChartFor(timeframe, indicators)
  {
    var after := indicators[name := enabled];
    assert Flag(after, "MA") == Flag(indicators, "MA");
    assert Flag(after, "RSI") == Flag(indicators, "RSI");
    assert Flag(after, "MACD") == Flag(indicators, "MACD");
  }

  /**
   * With the 1H data and no indicators the chart is 5 bodies and 5 wicks, the label and a
   * one-box badge.
   */
  lemma HourScenario()
    ensures var chart := ChartFor("1H", map[]).value;
      |chart| == 12 &&
      (forall k | 0 <= k < 5 :: chart[2 * k].prim.CandleBody? && chart[2 * k + 1].prim.Wick?) &&
      chart[10] == Shape(Label(0x3377ff), []) &&
      chart[11].prim == Badge(0x00ffff) && |chart[11].parts| == 1
  {
    var data := HourCandles();
    ChartCount(data, false, false, false, "1H");
    forall k | 0 <= k < 5 ensures ChartFor("1H", map[]).value[2 * k].prim.CandleBody? &&
                                ChartFor("1H", map[]).value[2 * k + 1].prim.Wick? {
      ChartCandle(data, false, false, false, "1H", k);
    }
    ChartTail(data, false, false, false, "1H");
    BadgeLayout("1H", 0);
  }
}
