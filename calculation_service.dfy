/**
 * The indicator arithmetic (src/services/calculationService.js) over exact
 * reals: momentum, moving average, rate of change, the indicator record, and
 * the relative strength index.
 */
module CalculationService {
  import opened Common

  /** An entry of a stock's price history; the close may be null or undefined. */
  datatype HistoryEntry = HistoryEntry(closePrice: Option<real>)

  datatype PricedStock = PricedStock(closePrice: Option<real>, pricesHistory: Option<seq<HistoryEntry>>)

  /** `history[history.length - lag]?.close_price`. */
  function PastClose(history: seq<HistoryEntry>, lag: nat): Option<real>
    requires 0 < lag <= |history|
  {
    history[|history| - lag].closePrice
  }

  /**
   * `calculateMomentum(stock)`: 0 without a truthy close, null without 26
   * entries of history or a truthy close 26 entries back, else the
   * percentage change from that close.
   */
  function Momentum(stock: Option<PricedStock>): (r: Option<real>)
    ensures stock.None? || !NumTruthy(stock.value.closePrice) ==> r == Some(0.0)
    ensures stock.Some? && NumTruthy(stock.value.closePrice) ==>
      (r.None? <==> stock.value.pricesHistory.None? || |stock.value.pricesHistory.value| < 26
                    || !NumTruthy(PastClose(stock.value.pricesHistory.value, 26)))
  {
    if stock.None? || !NumTruthy(stock.value.closePrice) then Some(0.0)
    else
      var close := stock.value.closePrice.value;
      var history := stock.value.pricesHistory;
      if history.None? || |history.value| < 26 then None
      else
        var past := PastClose(history.value, 26);
        if !NumTruthy(past) then None
        else Some(((close / past.value) - 1.0) * 100.0)
  }

  /** `calculateRateOfChange(current, past)`. */
  function RateOfChange(current: Option<real>, past: Option<real>): (r: Option<real>)
    ensures r.None? <==> current.None? || past.None?
    ensures current.Some? && past == Some(0.0) ==> r == Some(0.0)
    ensures current.Some? && past.Some? && past.value != 0.0 ==>
      r.value * past.value == (current.value - past.value) * 100.0
  {
    if current.None? || past.None? then None
    else if past.value == 0.0 then Some(0.0)
    else Some(((current.value - past.value) / past.value) * 100.0)
  }

  /** Where momentum has a value past its first guard, it is the rate of change from the close 26 back. */
  lemma MomentumIsRateOfChange(stock: PricedStock)
    requires NumTruthy(stock.closePrice) && stock.pricesHistory.Some? && |stock.pricesHistory.value| >= 26
    requires NumTruthy(PastClose(stock.pricesHistory.value, 26))
    ensures Momentum(Some(stock)) == RateOfChange(stock.closePrice, PastClose(stock.pricesHistory.value, 26))
  {
    var c, p := stock.closePrice.value, PastClose(stock.pricesHistory.value, 26).value;
    assert p / p == 1.0;
    assert (c / p) - (p / p) == (c - p) / p;
  }

  /** `item.close_price || 0`. */
  function CloseOrZero(e: HistoryEntry): real {
    if NumTruthy(e.closePrice) then e.closePrice.value else 0.0
  }

  /** The sum the `reduce` builds over a window of entries. */
  function WindowSum(window: seq<HistoryEntry>): real {
    if window == [] then 0.0 else WindowSum(window[..|window| - 1]) + CloseOrZero(window[|window| - 1])
  }

  /** `calculateMovingAverage(stock, period)`: the mean of the last `period` closes, missing ones as 0. */
  function MovingAverage(stock: Option<PricedStock>, period: nat): (r: Option<real>)
    requires period > 0
    ensures r.Some? <==> stock.Some? && stock.value.pricesHistory.Some? && |stock.value.pricesHistory.value| >= period
    ensures r.Some? ==>
      var h := stock.value.pricesHistory.value;
      r.value * (period as real) == WindowSum(h[|h| - period..])
  {
    if stock.None? || stock.value.pricesHistory.None? then None
    else
      var h := stock.value.pricesHistory.value;
      if |h| < period then None
      else Some(WindowSum(h[|h| - period..]) / period as real)
  }

  lemma {:induction false} WindowSumBounds(window: seq<HistoryEntry>, lo: real, hi: real)
    requires forall i :: 0 <= i < |window| ==> lo <= CloseOrZero(window[i]) <= hi
    ensures (|window| as real) * lo <= WindowSum(window) <= (|window| as real) * hi
  {
    if window != [] {
      var init := window[..|window| - 1];
      assert forall i :: 0 <= i < |init| ==> init[i] == window[i];
      WindowSumBounds(init, lo, hi);
    }
  }

  /** The moving average lies between the smallest and the largest close of its window. */
  lemma MovingAverageBetween(stock: PricedStock, period: nat, lo: real, hi: real)
    requires period > 0 && stock.pricesHistory.Some? && |stock.pricesHistory.value| >= period
    requires var h := stock.pricesHistory.value;
      forall i :: |h| - period <= i < |h| ==> lo <= CloseOrZero(h[i]) <= hi
    ensures lo <= MovingAverage(Some(stock), period).value <= hi
  {
    var h := stock.pricesHistory.value;
    var w := h[|h| - period..];
    assert forall i :: 0 <= i < |w| ==> w[i] == h[|h| - period + i];
    WindowSumBounds(w, lo, hi);
    QuotientBetween(WindowSum(w), period as real, lo, hi);
  }

  lemma QuotientBetween(sum: real, n: real, lo: real, hi: real)
    requires n > 0.0 && n * lo <= sum <= n * hi
    ensures lo <= sum / n <= hi
  {
    var q := sum / n;
    assert q * n == sum;
  }

  // ---------------------------------------------------------------------
  // The indicator record.

  /** The history-length and close guards of one `momentum_<lag>` entry. */
  predicate HasMomentum(stock: PricedStock, lag: nat)
    requires lag > 0
  {
    NumTruthy(stock.closePrice) && stock.pricesHistory.Some?
    && |stock.pricesHistory.value| >= lag && NumTruthy(PastClose(stock.pricesHistory.value, lag))
  }

  /** The percentage change from the close `lag` entries back: with a positive past close it is
      positive exactly when the price rose, and zero exactly when it did not move. */
  function MomentumValue(stock: PricedStock, lag: nat): (r: real)
    requires lag > 0 && HasMomentum(stock, lag)
    ensures PastClose(stock.pricesHistory.value, lag).value > 0.0 ==>
      (r > 0.0 <==> stock.closePrice.value > PastClose(stock.pricesHistory.value, lag).value) &&
      (r == 0.0 <==> stock.closePrice.value == PastClose(stock.pricesHistory.value, lag).value)
  {
    var c, p := stock.closePrice.value, PastClose(stock.pricesHistory.value, lag).value;
    var v := RateOfChange(stock.closePrice, PastClose(stock.pricesHistory.value, lag)).value;
    if p > 0.0 then SignOfChange(v, c, p); v else v
  }

  lemma SignOfChange(v: real, c: real, p: real)
    requires p > 0.0 && v * p == (c - p) * 100.0
    ensures (v > 0.0 <==> c > p) && (v == 0.0 <==> c == p)
  {
    if v > 0.0 { assert v * p > 0.0; }
    if v < 0.0 { assert v * p < 0.0; }
  }

  predicate HasAverage(stock: PricedStock, period: nat) {
    NumTruthy(stock.closePrice) && stock.pricesHistory.Some? && |stock.pricesHistory.value| >= period
  }

  const IndicatorKeys: set<string> := {"momentum_26", "momentum_29", "momentum_31", "momentum_34", "ma_20", "ma_50"}

  /** `calculateIndicators(stock)`: fills the record key by key. */
  method CalculateIndicators(stock: PricedStock) returns (indicators: map<string, real>)
    ensures indicators.Keys <= IndicatorKeys
    ensures !NumTruthy(stock.closePrice) || stock.pricesHistory.None? ==> indicators == map[]
    ensures "momentum_26" in indicators <==> HasMomentum(stock, 26)
    ensures "momentum_29" in indicators <==> HasMomentum(stock, 29)
    ensures "momentum_31" in indicators <==> HasMomentum(stock, 31)
    ensures "momentum_34" in indicators <==> HasMomentum(stock, 34)
    ensures HasMomentum(stock, 26) ==> indicators["momentum_26"] == MomentumValue(stock, 26)
    ensures HasMomentum(stock, 29) ==> indicators["momentum_29"] == MomentumValue(stock, 29)
    ensures HasMomentum(stock, 31) ==> indicators["momentum_31"] == MomentumValue(stock, 31)
    ensures HasMomentum(stock, 34) ==> indicators["momentum_34"] == MomentumValue(stock, 34)
    ensures "ma_20" in indicators <==> HasAverage(stock, 20)
    ensures "ma_50" in indicators <==> HasAverage(stock, 50)
    ensures HasAverage(stock, 20) ==> indicators["ma_20"] == MovingAverage(Some(stock), 20).value
    ensures HasAverage(stock, 50) ==> indicators["ma_50"] == MovingAverage(Some(stock), 50).value
  {
    indicators := map[];
    if NumTruthy(stock.closePrice) && stock.pricesHistory.Some? {
      var closePrice := stock.closePrice;
      var history := stock.pricesHistory.value;
      if |history| >= 26 {
        var past := PastClose(history, 26);
        if NumTruthy(past) {
          indicators := indicators["momentum_26" := RateOfChange(closePrice, past).value];
        }
      }
      if |history| >= 29 {
        var past := PastClose(history, 29);
        if NumTruthy(past) {
          indicators := indicators["momentum_29" := RateOfChange(closePrice, past).value];
        }
      }
      if |history| >= 31 {
        var past := PastClose(history, 31);
        if NumTruthy(past) {
          indicators := indicators["momentum_31" := RateOfChange(closePrice, past).value];
        }
      }
      if |history| >= 34 {
        var past := PastClose(history, 34);
        if NumTruthy(past) {
          indicators := indicators["momentum_34" := RateOfChange(closePrice, past).value];
        }
      }
      if |history| >= 20 {
        indicators := indicators["ma_20" := MovingAverage(Some(stock), 20).value];
      }
      if |history| >= 50 {
        indicators := indicators["ma_50" := MovingAverage(Some(stock), 50).value];
      }
    }
  }

  // ---------------------------------------------------------------------
  // The relative strength index.

  /** The `i`-th price change counted back from the newest price. */
  function Change(prices: seq<real>, i: nat): real
    requires 1 <= i < |prices|
  {
    prices[|prices| - i] - prices[|prices| - i - 1]
  }

  function Abs(x: real): real {
    if x < 0.0 then -x else x
  }

  /** The gains of the newest `n` changes. */
  function GainSum(prices: seq<real>, n: nat): real
    requires n < |prices|
  {
    if n == 0 then 0.0
    else GainSum(prices, n - 1) + (if Change(prices, n) > 0.0 then Change(prices, n) else 0.0)
  }

  /** The losses of the newest `n` changes, as positive amounts. */
  function LossSum(prices: seq<real>, n: nat): real
    requires n < |prices|
  {
    if n == 0 then 0.0
    else LossSum(prices, n - 1) + (if Change(prices, n) > 0.0 then 0.0 else Abs(Change(prices, n)))
  }

  lemma {:induction false} SumsNonNegative(prices: seq<real>, n: nat)
    requires n < |prices|
    ensures GainSum(prices, n) >= 0.0 && LossSum(prices, n) >= 0.0
  {
    if n > 0 {
      SumsNonNegative(prices, n - 1);
    }
  }

  lemma NonNegativeRatio(gains: real, losses: real, n: real)
    requires gains >= 0.0 && losses >= 0.0 && n > 0.0 && losses / n != 0.0
    ensures gains / n >= 0.0 && losses / n > 0.0 && (gains / n) / (losses / n) >= 0.0
  {
  }

  /** The index the source computes, as a function of the prices and the period. */
  function RsiOf(prices: seq<real>, period: nat): real
    requires period > 0
  {
    if |prices| < period + 1 then 50.0
    else
      SumsNonNegative(prices, period);
      var avgGain := GainSum(prices, period) / period as real;
      var avgLoss := LossSum(prices, period) / period as real;
      if avgLoss == 0.0 then 100.0
      else
        NonNegativeRatio(GainSum(prices, period), LossSum(prices, period), period as real);
        100.0 - (100.0 / (1.0 + avgGain / avgLoss))
  }

  /** The index always lies in [0, 100]. */
  lemma RsiBounded(prices: seq<real>, period: nat)
    requires period > 0
    ensures 0.0 <= RsiOf(prices, period) <= 100.0
  {
    if |prices| >= period + 1 {
      SumsNonNegative(prices, period);
      var n := period as real;
      var avgGain := GainSum(prices, period) / n;
      var avgLoss := LossSum(prices, period) / n;
      if avgLoss != 0.0 {
        assert avgGain >= 0.0 && avgLoss > 0.0;
        var rs := avgGain / avgLoss;
        assert rs >= 0.0;
        assert 1.0 + rs >= 1.0;
        assert 0.0 < 100.0 / (1.0 + rs) <= 100.0;
      }
    }
  }

  /** A window in which no price falls gives 100. */
  lemma {:induction false} NoLossesGive100(prices: seq<real>, period: nat)
    requires period > 0 && |prices| >= period + 1
    requires forall i :: 1 <= i <= period ==> Change(prices, i) > 0.0
    ensures RsiOf(prices, period) == 100.0
  {
    NoLossesSum(prices, period);
  }

  lemma {:induction false} NoLossesSum(prices: seq<real>, n: nat)
    requires n < |prices|
    requires forall i :: 1 <= i <= n ==> Change(prices, i) > 0.0
    ensures LossSum(prices, n) == 0.0
  {
    if n > 0 {
      NoLossesSum(prices, n - 1);
    }
  }

  /** `calculateRSI(prices, period)`. */
  method CalculateRsi(prices: seq<real>, period: nat) returns (rsi: real)
    requires period > 0
    ensures rsi == RsiOf(prices, period)
    ensures |prices| < period + 1 ==> rsi == 50.0
    ensures 0.0 <= rsi <= 100.0
  {
    RsiBounded(prices, period);
    if |prices| < period + 1 {
      return 50.0;
    }
    var gains, losses := 0.0, 0.0;
    for i := 1 to period + 1
      invariant gains == GainSum(prices, i - 1) && losses == LossSum(prices, i - 1)
    {
      var change := prices[|prices| - i] - prices[|prices| - i - 1];
      if change > 0.0 {
        gains := gains + change;
      } else {
        losses := losses + Abs(change);
      }
    }
    var avgGain := gains / period as real;
    var avgLoss := losses / period as real;
    if avgLoss == 0.0 {
      return 100.0;
    }
    SumsNonNegative(prices, period);
    NonNegativeRatio(gains, losses, period as real);
    var rs := avgGain / avgLoss;
    rsi := 100.0 - (100.0 / (1.0 + rs));
  }
}
