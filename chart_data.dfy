/**
 * The sample candle table and the formulas that turn one candle record, or a timeframe key,
 * into the colours, sizes and positions of chart objects.
 */
module ChartData {
  import opened Wrappers

  /** One OHLC observation of the sample table; prices are whole numbers, timestamps milliseconds. */
  datatype Candle = Candle(open: int, high: int, low: int, close: int, timestamp: int)

  const BullishColor := 0x00ff88
  const BearishColor := 0xff4466
  const WickColor := 0xffffff

  function HourCandles(): seq<Candle>
  {
    [ Candle(100, 150, 90, 120, 1635724800000),
      Candle(120, 160, 110, 140, 1635728400000),
      Candle(140, 180, 130, 160, 1635732000000),
      Candle(160, 200, 150, 180, 1635735600000),
      Candle(180, 220, 170, 200, 1635739200000) ]
  }

  function FourHourCandles(): seq<Candle>
  {
    [ Candle(100, 170, 90, 150, 1635724800000),
      Candle(150, 200, 140, 170, 1635739200000),
      Candle(170, 220, 160, 190, 1635753600000) ]
  }

  function DayCandles(): seq<Candle>
  {
    [ Candle(100, 200, 90, 180, 1635724800000),
      Candle(180, 250, 170, 210, 1635811200000) ]
  }

  /** `timeframeData[key]`: the table has the keys 1H, 4H and 1D; any other key reads `undefined`. */
  function TimeframeData(key: string): (r: Option<seq<Candle>>)
    ensures r.Some? <==> key == "1H" || key == "4H" || key == "1D"
    ensures r.Some? ==> |r.value| == if key == "1H" then 5 else if key == "4H" then 3 else 2
  {
    if key == "1H" then Some(HourCandles())
    else if key == "4H" then Some(FourHourCandles())
    else if key == "1D" then Some(DayCandles())
    else None
  }

  function Abs(x: int): nat
  {
    if x < 0 then -x else x
  }

  /** Green for a rising candle, red otherwise (an unchanged price counts as falling). */
  function BodyColor(c: Candle): int
  {
    if c.close > c.open then BullishColor else BearishColor
  }

  /** `Math.abs(close - open) * 0.01` */
  function BodyHeight(c: Candle): real
  {
    Abs(c.close - c.open) as real * 0.01
  }

  /** `Math.abs(high - low) * 0.01` */
  function WickHeight(c: Candle): real
  {
    Abs(c.high - c.low) as real * 0.01
  }

  /** x position of the body and wick of record `i` of `n`: `i * 0.5 - n * 0.25`. */
  function CandleX(i: nat, n: nat): real
  {
    i as real * 0.5 - n as real * 0.25
  }

  /** Colour of the timeframe badge: cyan for 1H, yellow for 4H, magenta for every other key. */
  function BadgeColor(timeframe: string): int
  {
    if timeframe == "1H" then 0x00ffff else if timeframe == "4H" then 0xffff00 else 0xff00ff
  }

  /** Number of boxes in the timeframe badge. */
  function BadgeCount(timeframe: string): nat
  {
    if timeframe == "1H" then 1 else if timeframe == "4H" then 4 else 24
  }

  /** Distance between neighbouring badge boxes. */
  function BadgeSpacing(count: nat): real
  {
    if count <= 4 then 0.12 else 0.04
  }

  /** x of box `i` when the boxes are laid out on a line: `(i - (count - 1) / 2) * spacing`. */
  function LineX(i: nat, count: nat): real
  {
    (i as real - (count as real - 1.0) / 2.0) * BadgeSpacing(count)
  }

  // ---------------------------------------------------------------- lemmas

  /** The body colour is green exactly when the close is above the open, red otherwise. */
  lemma ColorRule(c: Candle)
    ensures BodyColor(c) == BullishColor <==> c.close > c.open
    ensures BodyColor(c) == BearishColor <==> c.close <= c.open
  {
  }

  /** Neighbouring candles stand 0.5 apart, and the row is symmetric about x = -0.25. */
  lemma CandleSpacing(i: nat, n: nat)
    ensures CandleX(i + 1, n) - CandleX(i, n) == 0.5
    ensures i < n ==> CandleX(i, n) + CandleX(n - 1 - i, n) == -0.5
  {
  }

  /** Boxes on a line are 0.12 apart and symmetric about x = 0. */
  lemma BadgeLineSymmetric(i: nat, count: nat)
    requires i < count <= 4
    ensures LineX(i, count) == -LineX(count - 1 - i, count)
    ensures i + 1 < count ==> LineX(i + 1, count) - LineX(i, count) == 0.12
  {
  }

  /**
   * Every record of the sample table is a well-formed candle (low <= open, close <= high),
   * so every wick is at least as tall as its body; and every record rises, so with this
   * table every body is green.
   */
  lemma SampleCandles(key: string, i: nat)
    requires TimeframeData(key).Some? && i < |TimeframeData(key).value|
    ensures var c := TimeframeData(key).value[i];
      c.low <= c.open <= c.high && c.low <= c.close <= c.high &&
      BodyHeight(c) <= WickHeight(c) && BodyColor(c) == BullishColor
  {
  }
}
