/**
 * The predictive price chart: the fetched price history with its 20- and
 * 50-point moving averages, followed by one predicted point per day of the
 * horizon, each a fixed factor above or below the previous one.
 */
module Predictive {
  import opened Wrappers
  import opened Statistics

  /** Milliseconds in a day: the spacing of the predicted points. */
  const DayMs: int := 86400000
  /** The daily factor when the short average is above the long one. */
  const RisingTrend: real := 1.002
  /** The daily factor otherwise. */
  const FallingTrend: real := 0.998

  /** One `[timestamp, price]` pair of the fetched history. */
  datatype PricePoint = PricePoint(timestamp: int, price: real)

  /**
   * One point of the chart. A historical point has a price and no prediction;
   * a predicted point has only a timestamp and a prediction.
   */
  datatype ChartPoint = ChartPoint(
    timestamp: int,
    price: Option<real>,
    sma20: Option<real>,
    sma50: Option<real>,
    predicted: Option<real>)

  /** The only failure: a positive horizon over an empty history reads the timestamp of a missing last entry. */
  datatype PredictionError = MissingLastEntry

  /** `Math.pow(x, k)` for a natural exponent. */
  function Pow(x: real, k: nat): real
  {
    if k == 0 then 1.0 else x * Pow(x, k - 1)
  }

  function Prices(history: seq<PricePoint>): seq<real>
  {
    seq(|history|, i requires 0 <= i < |history| => history[i].price)
  }

  /** `s[s.length - 1] || fallback`: a missing last element and a 0 both give the fallback. */
  function LastOr(s: seq<real>, fallback: real): real
  {
    if |s| == 0 || s[|s| - 1] == 0.0 then fallback else s[|s| - 1]
  }

  /** `s[i] || null`: a missing element and a 0 are both absent. */
  function NonZeroAt(s: seq<real>, i: nat): Option<real>
  {
    if i < |s| && s[i] != 0.0 then Some(s[i]) else None
  }

  /** The daily factor of the predictions. */
  function Trend(prices: seq<real>): real
    requires |prices| > 0
  {
    var lastPrice := prices[|prices| - 1];
    if LastOr(MovingAverage(prices, 20), lastPrice) > LastOr(MovingAverage(prices, 50), lastPrice)
    then RisingTrend
    else FallingTrend
  }

  /** Prediction k: the last price grown by the daily factor for k + 1 days. */
  function Predicted(lastPrice: real, trend: real, k: nat): real
  {
    lastPrice * Pow(trend, k + 1)
  }

  /** The historical points, the moving averages taken at the same index (from the head). */
  function HistoricalPoints(history: seq<PricePoint>): seq<ChartPoint>
  {
    var prices := Prices(history);
    var sma20 := MovingAverage(prices, 20);
    var sma50 := MovingAverage(prices, 50);
    seq(|history|, i requires 0 <= i < |history| =>
      ChartPoint(history[i].timestamp, Some(prices[i]), NonZeroAt(sma20, i), NonZeroAt(sma50, i), None))
  }

  /** The `days` predicted points after the last historical one. */
  function PredictedPoints(history: seq<PricePoint>, days: nat): seq<ChartPoint>
    requires |history| > 0
  {
    var prices := Prices(history);
    var last := history[|history| - 1];
    var trend := Trend(prices);
    seq(days, k requires 0 <= k < days =>
      ChartPoint(last.timestamp + (k + 1) * DayMs, None, None, None, Some(Predicted(last.price, trend, k))))
  }

  /** `predictivePrices`: no history gives no points. */
  function PredictivePrices(history: Option<seq<PricePoint>>, days: nat): (r: Result<seq<ChartPoint>, PredictionError>)
    ensures r.Err? <==> history.Some? && |history.value| == 0 && days > 0
    ensures history.None? ==> r == Ok([])
    ensures r.Ok? && history.Some? ==> |r.value| == |history.value| + days
  {
    match history
    case None => Ok([])
    case Some(h) =>
      if |h| == 0 then (if days == 0 then Ok([]) else Err(MissingLastEntry))
      else Ok(HistoricalPoints(h) + PredictedPoints(h, days))
  }

  // ---------------------------------------------------------------------------
  // Properties of the chart
  // ---------------------------------------------------------------------------

  /** The first points repeat the history: its timestamps and prices, and no prediction. */
  lemma HistoryKept(h: seq<PricePoint>, days: nat, i: nat)
    requires |h| > 0 && i < |h|
    ensures PredictivePrices(Some(h), days).Ok?
    ensures var p := PredictivePrices(Some(h), days).value[i];
      p.timestamp == h[i].timestamp && p.price == Some(h[i].price) && p.predicted == None
  {
    assert PredictivePrices(Some(h), days).value[i] == HistoricalPoints(h)[i];
  }

  /** Historical point i as the chart builds it from the history and the two averages. */
  lemma HistoricalPointAt(h: seq<PricePoint>, days: nat, i: nat)
    requires |h| > 0 && i < |h|
    ensures |Prices(h)| == |h|
    ensures PredictivePrices(Some(h), days).Ok? && i < |PredictivePrices(Some(h), days).value|
    ensures PredictivePrices(Some(h), days).value[i] == ChartPoint(h[i].timestamp, Some(h[i].price),
      NonZeroAt(MovingAverage(Prices(h), 20), i), NonZeroAt(MovingAverage(Prices(h), 50), i), None)
  {
    assert PredictivePrices(Some(h), days).value[i] == HistoricalPoints(h)[i];
  }

  /** `sma[i] || null` for a moving average: the mean of the window that starts at i, unless missing or 0. */
  lemma NonZeroAverageAt(prices: seq<real>, period: nat, i: nat)
    requires period >= 1
    ensures NonZeroAt(MovingAverage(prices, period), i)
      == if i + period <= |prices| && Sum(prices[i..i + period]) / period as real != 0.0
         then Some(Sum(prices[i..i + period]) / period as real) else None
  {
    if i < |MovingAverage(prices, period)| {
      MovingAverageAt(prices, period, i);
    }
  }

  /** The 20-point column of historical point i. */
  lemma Sma20At(h: seq<PricePoint>, days: nat, i: nat)
    requires |h| > 0 && i < |h|
    ensures PredictivePrices(Some(h), days).Ok?
    ensures PredictivePrices(Some(h), days).value[i].sma20
      == if i + 20 <= |h| && Sum(Prices(h)[i..i + 20]) / 20.0 != 0.0
         then Some(Sum(Prices(h)[i..i + 20]) / 20.0) else None
  {
    var prices := Prices(h);
    HistoricalPointAt(h, days, i);
    assert PredictivePrices(Some(h), days).value[i].sma20 == NonZeroAt(MovingAverage(prices, 20), i);
    NonZeroAverageAt(prices, 20, i);
    if i + 20 <= |h| {
      var total := Sum(prices[i..i + 20]);
      assert total / 20 as real == total / 20.0;
    }
  }

  /** The 50-point column of historical point i. */
  lemma Sma50At(h: seq<PricePoint>, days: nat, i: nat)
    requires |h| > 0 && i < |h|
    ensures PredictivePrices(Some(h), days).Ok?
    ensures PredictivePrices(Some(h), days).value[i].sma50
      == if i + 50 <= |h| && Sum(Prices(h)[i..i + 50]) / 50.0 != 0.0
         then Some(Sum(Prices(h)[i..i + 50]) / 50.0) else None
  {
    var prices := Prices(h);
    HistoricalPointAt(h, days, i);
    assert PredictivePrices(Some(h), days).value[i].sma50 == NonZeroAt(MovingAverage(prices, 50), i);
    NonZeroAverageAt(prices, 50, i);
    if i + 50 <= |h| {
      var total := Sum(prices[i..i + 50]);
      assert total / 50 as real == total / 50.0;
    }
  }

  /**
   * The 20- and 50-point averages of a historical point are the means of the
   * 20 and 50 prices that START at it, when those exist and the mean is not 0.
   */
  lemma AveragesAlignedToHead(h: seq<PricePoint>, days: nat, i: nat)
    requires |h| > 0 && i < |h|
    ensures PredictivePrices(Some(h), days).Ok?
    ensures var p := PredictivePrices(Some(h), days).value[i];
      p.sma20 == (if i + 20 <= |h| && Sum(Prices(h)[i..i + 20]) / 20.0 != 0.0
                  then Some(Sum(Prices(h)[i..i + 20]) / 20.0) else None)
    ensures var p := PredictivePrices(Some(h), days).value[i];
      p.sma50 == (if i + 50 <= |h| && Sum(Prices(h)[i..i + 50]) / 50.0 != 0.0
                  then Some(Sum(Prices(h)[i..i + 50]) / 50.0) else None)
  {
    Sma20At(h, days, i);
    Sma50At(h, days, i);
  }

  /** Prediction k lies k + 1 days after the last historical point, carrying only its prediction. */
  lemma PredictionTimestamp(h: seq<PricePoint>, days: nat, k: nat)
    requires |h| > 0 && k < days
    ensures PredictivePrices(Some(h), days).Ok?
    ensures var p := PredictivePrices(Some(h), days).value[|h| + k];
      p.timestamp == h[|h| - 1].timestamp + (k + 1) * DayMs &&
      p.price == None && p.sma20 == None && p.sma50 == None && p.predicted.Some?
  {
    assert PredictivePrices(Some(h), days).value[|h| + k] == PredictedPoints(h, days)[k];
  }

  /** Consecutive points after the history are exactly one day apart. */
  lemma PredictionsEvenlySpaced(h: seq<PricePoint>, days: nat, k: nat)
    requires |h| > 0 && k + 1 < days
    ensures PredictivePrices(Some(h), days).Ok?
    ensures var r := PredictivePrices(Some(h), days).value;
      r[|h| + k + 1].timestamp == r[|h| + k].timestamp + DayMs
  {
    PredictionTimestamp(h, days, k);
    PredictionTimestamp(h, days, k + 1);
  }

  /**
   * Prediction k is the last price times the trend to the power k + 1; the
   * trend rises exactly when the last 20-point average (or the last price) is
   * above the last 50-point average (or the last price).
   */
  lemma PredictionValue(h: seq<PricePoint>, days: nat, k: nat)
    requires |h| > 0 && k < days
    ensures PredictivePrices(Some(h), days).Ok?
    ensures PredictivePrices(Some(h), days).value[|h| + k].predicted
         == Some(h[|h| - 1].price * Pow(Trend(Prices(h)), k + 1))
    ensures Trend(Prices(h)) == RisingTrend || Trend(Prices(h)) == FallingTrend
    ensures Trend(Prices(h)) == RisingTrend <==>
      LastOr(MovingAverage(Prices(h), 20), h[|h| - 1].price) > LastOr(MovingAverage(Prices(h), 50), h[|h| - 1].price)
  {
    assert PredictivePrices(Some(h), days).value[|h| + k] == PredictedPoints(h, days)[k];
    assert PredictedPoints(h, days)[k].predicted == Some(Predicted(h[|h| - 1].price, Trend(Prices(h)), k));
    assert Prices(h)[|h| - 1] == h[|h| - 1].price;
    assert Predicted(h[|h| - 1].price, Trend(Prices(h)), k) == h[|h| - 1].price * Pow(Trend(Prices(h)), k + 1);
  }

  /** With fewer than 20 prices both averages are empty, both fall back to the last price, and the trend falls. */
  lemma ShortHistoryFalls(h: seq<PricePoint>)
    requires 0 < |h| < 20
    ensures Trend(Prices(h)) == FallingTrend
  {
    MovingAverageShortSeries(Prices(h), 20);
    MovingAverageShortSeries(Prices(h), 50);
  }

  lemma {:induction false} PowPositive(x: real, k: nat)
    requires 0.0 < x
    ensures 0.0 < Pow(x, k)
  {
    if k > 0 {
      PowPositive(x, k - 1);
      var _ := ProductPositive(x, Pow(x, k - 1));
    }
  }

  /** For a positive base, each power is the previous one scaled by the base: above it when x > 1, below when x < 1. */
  lemma PowStep(x: real, k: nat)
    requires 0.0 < x
    ensures x > 1.0 ==> Pow(x, k) < Pow(x, k + 1)
    ensures x < 1.0 ==> Pow(x, k + 1) < Pow(x, k)
  {
    PowPositive(x, k);
    var p := Pow(x, k);
    assert Pow(x, k + 1) - p == (x - 1.0) * p;
    if x > 1.0 {
      var _ := ProductPositive(x - 1.0, p);
    } else if x < 1.0 {
      var _ := ProductPositive(1.0 - x, p);
    }
  }

  /** For a positive last price, consecutive predictions move in the direction of the factor. */
  lemma PredictedStep(lastPrice: real, trend: real, k: nat)
    requires 0.0 < lastPrice && 0.0 < trend
    ensures trend > 1.0 ==> Predicted(lastPrice, trend, k) < Predicted(lastPrice, trend, k + 1)
    ensures trend < 1.0 ==> Predicted(lastPrice, trend, k + 1) < Predicted(lastPrice, trend, k)
  {
    PowStep(trend, k + 1);
    var a, b := Pow(trend, k + 1), Pow(trend, k + 2);
    assert Predicted(lastPrice, trend, k + 1) - Predicted(lastPrice, trend, k) == lastPrice * (b - a);
    if trend > 1.0 {
      var _ := ProductPositive(lastPrice, b - a);
    } else if trend < 1.0 {
      var _ := ProductPositive(lastPrice, a - b);
    }
  }

  /**
   * For a positive last price the predictions move one way: each is above the
   * previous one when the trend rises and below it when it falls.
   */
  lemma PredictionsMonotone(h: seq<PricePoint>, days: nat, k: nat)
    requires |h| > 0 && k + 1 < days && h[|h| - 1].price > 0.0
    ensures PredictivePrices(Some(h), days).Ok?
    ensures var r := PredictivePrices(Some(h), days).value;
      var trend := Trend(Prices(h));
      r[|h| + k].predicted.Some? && r[|h| + k + 1].predicted.Some? &&
      (trend == RisingTrend ==> r[|h| + k].predicted.value < r[|h| + k + 1].predicted.value) &&
      (trend == FallingTrend ==> r[|h| + k + 1].predicted.value < r[|h| + k].predicted.value)
  {
    PredictionValue(h, days, k);
    PredictionValue(h, days, k + 1);
    PredictedStep(h[|h| - 1].price, Trend(Prices(h)), k);
  }

  /** A single price of 100 and a three-day horizon: 99.8, 99.6004 and 99.4011992, a day apart. */
  lemma ThreeDayExample()
    ensures PredictivePrices(Some([PricePoint(0, 100.0)]), 3) == Ok([
      ChartPoint(0, Some(100.0), None, None, None),
      ChartPoint(DayMs, None, None, None, Some(99.8)),
      ChartPoint(2 * DayMs, None, None, None, Some(99.6004)),
      ChartPoint(3 * DayMs, None, None, None, Some(99.4011992))])
  {
    var h := [PricePoint(0, 100.0)];
    ShortHistoryFalls(h);
    assert Pow(FallingTrend, 1) == 0.998;
    assert Pow(FallingTrend, 2) == 0.996004;
    assert Pow(FallingTrend, 3) == 0.994011992;
    var predicted := PredictedPoints(h, 3);
    assert predicted[0] == ChartPoint(DayMs, None, None, None, Some(99.8));
    assert predicted[1] == ChartPoint(2 * DayMs, None, None, None, Some(99.6004));
    assert predicted[2] == ChartPoint(3 * DayMs, None, None, None, Some(99.4011992));
    MovingAverageShortSeries(Prices(h), 20);
    MovingAverageShortSeries(Prices(h), 50);
    assert HistoricalPoints(h)[0] == ChartPoint(0, Some(100.0), None, None, None);
    assert |predicted| == 3 && |HistoricalPoints(h)| == 1;
    assert PredictivePrices(Some(h), 3).value == HistoricalPoints(h) + predicted;
    assert HistoricalPoints(h) + predicted == [
      ChartPoint(0, Some(100.0), None, None, None),
      ChartPoint(DayMs, None, None, None, Some(99.8)),
      ChartPoint(2 * DayMs, None, None, None, Some(99.6004)),
      ChartPoint(3 * DayMs, None, None, None, Some(99.4011992))];
  }
}
