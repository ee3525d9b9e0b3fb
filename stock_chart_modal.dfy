/**
 * The chart modal's computations: the `processedData` memo, which copies a
 * price history and annotates it with a 20-bar simple moving average and a
 * 14-period Wilder RSI, and the table of timeframe presets.
 *
 * Prices are `real`s. `parseFloat(x.toFixed(2))` is `Round2`: rounding to
 * the nearest cent, halves away from zero, as `toFixed` does on exact values.
 */
module StockChartModal {
  import opened Wrappers

  // ---------------------------------------------------------------------------
  // Data model
  // ---------------------------------------------------------------------------

  /** One OHLC observation as the history endpoint delivers it. */
  datatype Bar = Bar(date: string, open: real, high: real, low: real, close: real, volume: real)

  /**
   * One entry of `processedData`: the copied bar plus the fields the two
   * passes may add. `avgGain`/`avgLoss` are the RSI recurrence's carried state.
   */
  datatype AnnotatedBar = AnnotatedBar(
    bar: Bar,
    sma: Option<real>,
    rsi: Option<real>,
    avgGain: Option<real>,
    avgLoss: Option<real>)

  /** The carried pair of Wilder averages. */
  datatype Averages = Averages(gain: real, loss: real)

  const SmaWindow: nat := 20
  const RsiPeriod: nat := 14

  /** The shallow copy `{ ...item }`: every input field, no indicator yet. */
  function Copy(b: Bar): AnnotatedBar
  {
    AnnotatedBar(b, None, None, None, None)
  }

  /** `data` with null read as the empty history. */
  function Rows(data: Option<seq<Bar>>): seq<Bar>
  {
    data.GetOr([])
  }

  // ---------------------------------------------------------------------------
  // Rounding to cents
  // ---------------------------------------------------------------------------

  function HalfUpCents(x: real): (r: real)
    ensures r * 100.0 == (x * 100.0 + 0.5).Floor as real
  {
    (x * 100.0 + 0.5).Floor as real / 100.0
  }

  /** `parseFloat(x.toFixed(2))`: the magnitude is rounded half up, the sign kept. */
  function Round2(x: real): (r: real)
    ensures (r * 100.0).Floor as real == r * 100.0
    ensures x >= 0.0 ==> r >= 0.0
    ensures x <= 0.0 ==> r <= 0.0
  {
    if x >= 0.0 then
      var n := (x * 100.0 + 0.5).Floor;
      assert n >= 0 && (n as real).Floor == n;
      HalfUpCents(x)
    else
      var n := (-x * 100.0 + 0.5).Floor;
      assert n >= 0 && ((-n) as real).Floor == -n;
      -HalfUpCents(-x)
  }

  /** Rounding moves a value by at most half a cent. */
  lemma Round2Error(x: real)
    ensures -0.005 <= Round2(x) - x <= 0.005
  {
    var y := if x >= 0.0 then x else -x;
    var f := (y * 100.0 + 0.5).Floor;
    assert y * 100.0 + 0.5 - 1.0 < f as real <= y * 100.0 + 0.5;
  }

  /** Rounding never reverses the order of two values. */
  lemma Round2Monotone(x: real, y: real)
    requires x <= y
    ensures Round2(x) <= Round2(y)
  {
    if x >= 0.0 {
      assert (x * 100.0 + 0.5).Floor <= (y * 100.0 + 0.5).Floor;
    } else if y < 0.0 {
      assert (-y * 100.0 + 0.5).Floor <= (-x * 100.0 + 0.5).Floor;
    } else {
      assert (-x * 100.0 + 0.5).Floor >= 0;
      assert (y * 100.0 + 0.5).Floor >= 0;
    }
  }

  // ---------------------------------------------------------------------------
  // SMA(20): reference definition
  // ---------------------------------------------------------------------------

  /** The sum of the closes of `d[lo..hi]`. */
  function CloseSum(d: seq<Bar>, lo: nat, hi: nat): real
    requires lo <= hi <= |d|
    decreases hi
  {
    if lo == hi then 0.0 else CloseSum(d, lo, hi - 1) + d[hi - 1].close
  }

  /** The same sum taken from the left: the window's oldest close can be removed first. */
  lemma {:induction false} CloseSumFromLeft(d: seq<Bar>, lo: nat, hi: nat)
    requires lo < hi <= |d|
    ensures CloseSum(d, lo, hi) == d[lo].close + CloseSum(d, lo + 1, hi)
    decreases hi
  {
    if lo + 1 < hi {
      CloseSumFromLeft(d, lo, hi - 1);
    }
  }

  /** The SMA the memo attaches to bar `i`: absent before a full window. */
  function SmaAt(d: seq<Bar>, i: nat): Option<real>
    requires i < |d|
  {
    if i >= SmaWindow - 1 then Some(Round2(CloseSum(d, i + 1 - SmaWindow, i + 1) / SmaWindow as real))
    else None
  }

  // ---------------------------------------------------------------------------
  // RSI(14): reference definition
  // ---------------------------------------------------------------------------

  /** The previous close, or the current one when the previous is 0 (`prev || cur`). */
  function PrevClose(d: seq<Bar>, i: nat): (r: real)
    requires 1 <= i < |d|
    ensures r == d[i - 1].close || r == d[i].close
    ensures r == 0.0 <==> d[i - 1].close == 0.0 && d[i].close == 0.0
  {
    if d[i - 1].close == 0.0 then d[i].close else d[i - 1].close
  }

  /** The step's change; a previous close of 0 makes it 0. */
  function Change(d: seq<Bar>, i: nat): (r: real)
    requires 1 <= i < |d|
    ensures d[i - 1].close != 0.0 ==> r == d[i].close - d[i - 1].close
    ensures d[i - 1].close == 0.0 ==> r == 0.0
  {
    d[i].close - PrevClose(d, i)
  }

  /** The upward part of a change. */
  function Gain(change: real): (r: real)
    ensures r >= 0.0 && r >= change
    ensures r > 0.0 <==> change > 0.0
  {
    if change > 0.0 then change else 0.0
  }

  /** The downward part of a change, as a magnitude. */
  function Loss(change: real): (r: real)
    ensures r >= 0.0 && r >= -change
    ensures r > 0.0 <==> change < 0.0
  {
    if change < 0.0 then -change else 0.0
  }

  /** Each step's gain and loss are non-negative, never both positive, and their difference is the change. */
  lemma GainLossSplit(d: seq<Bar>, i: nat)
    requires 1 <= i < |d|
    ensures Gain(Change(d, i)) >= 0.0 && Loss(Change(d, i)) >= 0.0
    ensures Gain(Change(d, i)) == 0.0 || Loss(Change(d, i)) == 0.0
    ensures Gain(Change(d, i)) - Loss(Change(d, i)) == Change(d, i)
    ensures d[i - 1].close == 0.0 ==> Gain(Change(d, i)) == 0.0 && Loss(Change(d, i)) == 0.0
  {
  }

  /** The gains of steps 1..hi. */
  function GainSum(d: seq<Bar>, hi: nat): (r: real)
    requires hi < |d|
    ensures r >= 0.0
  {
    if hi == 0 then 0.0 else GainSum(d, hi - 1) + Gain(Change(d, hi))
  }

  /** The losses of steps 1..hi. */
  function LossSum(d: seq<Bar>, hi: nat): (r: real)
    requires hi < |d|
    ensures r >= 0.0
  {
    if hi == 0 then 0.0 else LossSum(d, hi - 1) + Loss(Change(d, hi))
  }

  /**
   * The averages carried at bar `i`: the mean of the first 14 gains and losses
   * at i == 14, Wilder's smoothing of the previous averages after that.
   */
  function Smoothed(d: seq<Bar>, i: nat): (a: Averages)
    requires RsiPeriod <= i < |d|
    ensures a.gain >= 0.0 && a.loss >= 0.0
    decreases i
  {
    if i == RsiPeriod then
      Averages(GainSum(d, RsiPeriod) / RsiPeriod as real, LossSum(d, RsiPeriod) / RsiPeriod as real)
    else
      var prev := Smoothed(d, i - 1);
      Averages((prev.gain * (RsiPeriod - 1) as real + Gain(Change(d, i))) / RsiPeriod as real,
               (prev.loss * (RsiPeriod - 1) as real + Loss(Change(d, i))) / RsiPeriod as real)
  }

  /** One smoothing step, as the pass computes it from the previous averages and this step's change. */
  lemma SmoothedStep(d: seq<Bar>, i: nat, prev: Averages, gain: real, loss: real)
    requires RsiPeriod < i < |d|
    requires prev == Smoothed(d, i - 1)
    requires gain == Gain(Change(d, i)) && loss == Loss(Change(d, i))
    ensures Smoothed(d, i) == Averages((prev.gain * (RsiPeriod - 1) as real + gain) / RsiPeriod as real,
                                       (prev.loss * (RsiPeriod - 1) as real + loss) / RsiPeriod as real)
  {
  }

  /** The relative strength: a zero average loss is replaced by 1 in the ratio only. */
  function RelativeStrength(a: Averages): real
    requires a.gain >= 0.0 && a.loss >= 0.0
  {
    a.gain / (if a.loss == 0.0 then 1.0 else a.loss)
  }

  /** The RSI before rounding. */
  function Rsi(a: Averages): real
    requires a.gain >= 0.0 && a.loss >= 0.0
  {
    100.0 - 100.0 / (1.0 + RelativeStrength(a))
  }

  /** The unrounded RSI lies in [0, 100) and is 0 exactly when the average gain is 0. */
  lemma RsiRange(a: Averages)
    requires a.gain >= 0.0 && a.loss >= 0.0
    ensures 0.0 <= Rsi(a) < 100.0
    ensures Rsi(a) == 0.0 <==> a.gain == 0.0
  {
    var rs := RelativeStrength(a);
    var den := if a.loss == 0.0 then 1.0 else a.loss;
    assert den > 0.0 && rs * den == a.gain;
    assert rs >= 0.0;
    assert rs == 0.0 <==> a.gain == 0.0;
    var q := 100.0 / (1.0 + rs);
    assert q * (1.0 + rs) == 100.0;
    assert 0.0 < q <= 100.0;
    assert q == 100.0 <==> rs == 0.0;
  }

  /** The rounded RSI the memo stores lies in [0, 100]. */
  lemma RoundedRsiRange(a: Averages)
    requires a.gain >= 0.0 && a.loss >= 0.0
    ensures 0.0 <= Round2(Rsi(a)) <= 100.0
  {
    RsiRange(a);
    Round2Monotone(0.0, Rsi(a));
    Round2Monotone(Rsi(a), 100.0);
    assert Round2(0.0) == 0.0 by {
      assert (0.0 * 100.0 + 0.5).Floor == 0;
    }
    assert Round2(100.0) == 100.0 by {
      assert (100.0 * 100.0 + 0.5).Floor == 10000;
    }
  }

  /** What the RSI pass writes into an entry that carries the averages `a`. */
  function WithRsi(e: AnnotatedBar, a: Averages): AnnotatedBar
    requires a.gain >= 0.0 && a.loss >= 0.0
  {
    e.(rsi := Some(Round2(Rsi(a))), avgGain := Some(a.gain), avgLoss := Some(a.loss))
  }

  // ---------------------------------------------------------------------------
  // The memo
  // ---------------------------------------------------------------------------

  /**
   * The SMA pass: a running sum over the closes; from bar 19 on, the rounded
   * window mean is written and the close leaving the window is subtracted.
   */
  method AddSma(results: array<AnnotatedBar>, ghost d: seq<Bar>)
    requires results.Length == |d|
    requires forall k :: 0 <= k < |d| ==> results[k].bar == d[k]
    modifies results
    ensures forall k :: 0 <= k < |d| ==>
      results[k] == if k >= SmaWindow - 1 then old(results[k]).(sma := SmaAt(d, k)) else old(results[k])
  {
    var sum := 0.0;
    var i := 0;
    while i < results.Length
      invariant 0 <= i <= results.Length
      invariant sum == CloseSum(d, if i >= SmaWindow - 1 then i - (SmaWindow - 1) else 0, i)
      invariant forall k :: 0 <= k < |d| ==>
        results[k] == if SmaWindow - 1 <= k < i then old(results[k]).(sma := SmaAt(d, k)) else old(results[k])
    {
      sum := sum + results[i].bar.close;
      if i >= SmaWindow - 1 {
        results[i] := results[i].(sma := Some(Round2(sum / SmaWindow as real)));
        CloseSumFromLeft(d, i - (SmaWindow - 1), i + 1);
        sum := sum - results[i - (SmaWindow - 1)].bar.close;
      }
      i := i + 1;
    }
  }

  /** Lines shared by the seed and the smoothing step: the ratio, the rounded RSI and the stored averages. */
  method StoreRsi(results: array<AnnotatedBar>, i: nat, avgGain: real, avgLoss: real)
    requires i < results.Length
    requires avgGain >= 0.0 && avgLoss >= 0.0
    modifies results
    ensures results[i] == WithRsi(old(results[i]), Averages(avgGain, avgLoss))
    ensures forall k :: 0 <= k < results.Length && k != i ==> results[k] == old(results[k])
  {
    var rs := avgGain / (if avgLoss == 0.0 then 1.0 else avgLoss);
    results[i] := results[i].(rsi := Some(Round2(100.0 - 100.0 / (1.0 + rs))),
                              avgGain := Some(avgGain), avgLoss := Some(avgLoss));
  }

  /**
   * The RSI pass: gains and losses of steps 1..14 are summed and averaged at
   * bar 14; every later bar smooths the averages it reads back from the
   * previous entry (`|| 0` when absent, which the pass never meets).
   */
  method AddRsi(results: array<AnnotatedBar>, ghost d: seq<Bar>)
    requires results.Length == |d|
    requires forall k :: 0 <= k < |d| ==> results[k].bar == d[k]
    modifies results
    ensures forall k :: 0 <= k < |d| ==>
      results[k] == if k >= RsiPeriod then WithRsi(old(results[k]), Smoothed(d, k)) else old(results[k])
  {
    ghost var orig := results[..];
    var gains, losses := 0.0, 0.0;
    var i := 1;
    while i < results.Length
      invariant 1 <= i && (i <= results.Length || results.Length == 0)
      invariant i <= RsiPeriod + 1 && i <= |d| ==> gains == GainSum(d, i - 1) && losses == LossSum(d, i - 1)
      invariant forall k {:trigger results[k]} :: 0 <= k < |d| ==> results[k].bar == d[k]
      invariant forall k {:trigger results[k]} :: 0 <= k < |d| ==>
        results[k] == if RsiPeriod <= k < i then WithRsi(orig[k], Smoothed(d, k)) else orig[k]
    {
      var prev := results[i - 1].bar.close;
      var change := results[i].bar.close - (if prev == 0.0 then results[i].bar.close else prev);
      var gain := if change > 0.0 then change else 0.0;
      var loss := if change < 0.0 then -change else 0.0;
      assert gain == Gain(Change(d, i)) && loss == Loss(Change(d, i));
      if i <= RsiPeriod {
        gains := gains + gain;
        losses := losses + loss;
        if i == RsiPeriod {
          var avgGain := gains / RsiPeriod as real;
          var avgLoss := losses / RsiPeriod as real;
          assert Averages(avgGain, avgLoss) == Smoothed(d, i);
          StoreRsi(results, i, avgGain, avgLoss);
          assert results[i] == WithRsi(orig[i], Smoothed(d, i));
        }
      } else {
        ghost var carried := Smoothed(d, i - 1);
        assert results[i - 1].avgGain == Some(carried.gain) && results[i - 1].avgLoss == Some(carried.loss) by {
          assert results[i - 1] == WithRsi(orig[i - 1], carried);
        }
        var prevAvgGain := results[i - 1].avgGain.GetOr(0.0);
        var prevAvgLoss := results[i - 1].avgLoss.GetOr(0.0);
        var avgGain := (prevAvgGain * (RsiPeriod - 1) as real + gain) / RsiPeriod as real;
        var avgLoss := (prevAvgLoss * (RsiPeriod - 1) as real + loss) / RsiPeriod as real;
        assert Averages(avgGain, avgLoss) == Smoothed(d, i) by {
          SmoothedStep(d, i, carried, gain, loss);
        }
        StoreRsi(results, i, avgGain, avgLoss);
      }
      i := i + 1;
    }
  }

  /**
   * `processedData`: null or empty data gives no rows; otherwise a fresh copy
   * of every bar, with `sma` from bar 19 on when SMA is shown and the series
   * has at least 20 bars, and `rsi`/`avgGain`/`avgLoss` from bar 14 on when
   * RSI is shown and the series has more than 14 bars. Each indicator depends
   * on its own flag only.
   */
  method ProcessedData(data: Option<seq<Bar>>, showSma: bool, showRsi: bool) returns (results: seq<AnnotatedBar>)
    ensures |results| == |Rows(data)|
    ensures forall i :: 0 <= i < |results| ==> results[i].bar == Rows(data)[i]
    ensures forall i :: 0 <= i < |results| ==>
      (results[i].sma.Some? <==> showSma && |results| >= SmaWindow && i >= SmaWindow - 1)
    ensures forall i :: 0 <= i < |results| && results[i].sma.Some? ==>
      results[i].sma == SmaAt(Rows(data), i)
    ensures forall i :: 0 <= i < |results| ==>
      (results[i].rsi.Some? <==> showRsi && |results| > RsiPeriod && i >= RsiPeriod)
    ensures forall i :: 0 <= i < |results| ==>
      (results[i].avgGain.Some? <==> results[i].rsi.Some?) && (results[i].avgLoss.Some? <==> results[i].rsi.Some?)
    ensures forall i :: 0 <= i < |results| && results[i].rsi.Some? ==>
      && results[i].avgGain == Some(Smoothed(Rows(data), i).gain)
      && results[i].avgLoss == Some(Smoothed(Rows(data), i).loss)
      && results[i].rsi == Some(Round2(Rsi(Smoothed(Rows(data), i))))
      && 0.0 <= results[i].rsi.value <= 100.0
  {
    if data.None? || |data.value| == 0 {
      return [];
    }
    var d := data.value;
    var a := new AnnotatedBar[|d|](k requires 0 <= k < |d| => Copy(d[k]));
    if showSma && a.Length >= SmaWindow {
      AddSma(a, d);
    }
    if showRsi && a.Length > RsiPeriod {
      AddRsi(a, d);
    }
    results := a[..];
    forall i | 0 <= i < |results| && results[i].rsi.Some?
      ensures 0.0 <= results[i].rsi.value <= 100.0
    {
      RoundedRsiRange(Smoothed(d, i));
    }
  }

  // ---------------------------------------------------------------------------
  // Worked examples
  // ---------------------------------------------------------------------------

  /** The sum of the first `k` closes of the series 1, 2, 3, ... is k(k+1)/2. */
  lemma {:induction false} CountingSum(d: seq<Bar>, k: nat)
    requires k <= |d|
    requires forall i :: 0 <= i < |d| ==> d[i].close == (i + 1) as real
    ensures 2.0 * CloseSum(d, 0, k) == (k * (k + 1)) as real
  {
    if k > 0 {
      CountingSum(d, k - 1);
      assert d[k - 1].close == k as real;
      assert k * (k + 1) == (k - 1) * k + 2 * k;
    }
  }

  /** Closes 1..20 give no SMA on bars 0..18 and 10.50 on bar 19. */
  lemma SmaOfOneToTwenty(d: seq<Bar>)
    requires |d| == 20
    requires forall i :: 0 <= i < |d| ==> d[i].close == (i + 1) as real
    ensures forall i :: 0 <= i < 19 ==> SmaAt(d, i).None?
    ensures SmaAt(d, 19) == Some(10.5)
  {
    CountingSum(d, 20);
    assert (10.5 * 100.0 + 0.5).Floor == 1050;
  }

  /** On a series that rises by 1 from 1, the first k gains sum to k and the losses to 0. */
  lemma {:induction false} RisingSums(d: seq<Bar>, k: nat)
    requires k < |d|
    requires forall i :: 0 <= i < |d| ==> d[i].close == (i + 1) as real
    ensures GainSum(d, k) == k as real && LossSum(d, k) == 0.0
  {
    if k > 0 {
      RisingSums(d, k - 1);
      assert Change(d, k) == 1.0;
    }
  }

  /**
   * A strictly rising series does not saturate the RSI at 100: with no losses
   * the ratio divides by 1, so closes 1..15 give RSI 50 at bar 14.
   */
  lemma RisingSeedRsiIsFifty(d: seq<Bar>)
    requires |d| == 15
    requires forall i :: 0 <= i < |d| ==> d[i].close == (i + 1) as real
    ensures Smoothed(d, 14) == Averages(1.0, 0.0)
    ensures Round2(Rsi(Smoothed(d, 14))) == 50.0
  {
    RisingSums(d, 14);
    assert Smoothed(d, 14) == Averages(1.0, 0.0);
    assert Rsi(Averages(1.0, 0.0)) == 50.0;
    assert (50.0 * 100.0 + 0.5).Floor == 5000;
  }

  // ---------------------------------------------------------------------------
  // Timeframe presets
  // ---------------------------------------------------------------------------

  datatype Interval = OneMinute | FiveMinute | OneDay

  /** A preset button: its label, the bar interval and the look-back in days. */
  datatype Timeframe = Timeframe(name: string, interval: Interval, days: nat)

  const Timeframes: seq<Timeframe> := [
    Timeframe("1D", OneMinute, 1),
    Timeframe("5D", FiveMinute, 5),
    Timeframe("1M", OneDay, 30),
    Timeframe("6M", OneDay, 180),
    Timeframe("1Y", OneDay, 365),
    Timeframe("ALL", OneDay, 1825)
  ]

  /** Labels are distinct, look-backs grow along the row, and only 1D and 5D use minute bars. */
  lemma TimeframeTable()
    ensures forall i, j :: 0 <= i < j < |Timeframes| ==> Timeframes[i].name != Timeframes[j].name
    ensures forall i, j :: 0 <= i < j < |Timeframes| ==> Timeframes[i].days < Timeframes[j].days
    ensures forall i :: 0 <= i < |Timeframes| ==> (Timeframes[i].interval == OneDay <==> i >= 2)
  {
  }

  /** The callback arguments of `handleIntervalClick`. */
  datatype TimeframeChange = TimeframeChange(interval: Interval, days: nat)

  /**
   * Clicking a preset reports its interval and its days; for a preset of the
   * table that is at least one day, and daily bars exactly from 30 days on.
   */
  function IntervalClick(tf: Timeframe): (c: TimeframeChange)
    ensures c.interval == tf.interval && c.days == tf.days
    ensures tf in Timeframes ==> c.days >= 1 && (c.interval == OneDay <==> c.days >= 30)
  {
    TimeframeChange(tf.interval, tf.days)
  }
}
