/**
 * The technical-indicator engine of src/indicators/indicators.py: EMA, MACD,
 * RSI, ATR and Bollinger Bands over a chronological price window, each with the
 * sentinel the source returns for a window that is too short.
 *
 * Prices are `real`, so the seed-then-recurrence arithmetic is exact; Python's
 * `round(...)` on the returned values is not modelled. Each loop of the source
 * is a method proved equal to a specification function defined "from the
 * back" (the series of a prefix, extended by one step), and the properties
 * promised by the source are lemmas about those functions.
 */
module Indicators {
  import opened Common

  // ---------------------------------------------------------------------------
  // EMA (calculate_ema)
  // ---------------------------------------------------------------------------

  /** The smoothing factor 2/(period+1). */
  function Multiplier(period: nat): real
    requires period >= 1
  {
    2.0 / ((period + 1) as real)
  }

  /** One EMA step: `prev + (price - prev) * multiplier`, as the source writes it. */
  function EmaNext(prev: real, price: real, multiplier: real): real
  {
    (price - prev) * multiplier + prev
  }

  /** The EMA series: empty when the input is shorter than the period, otherwise
      seeded with the mean of the first `period` prices and extended by
      `prev + (price - prev) * 2/(period+1)` for every later price. */
  function Ema(prices: seq<real>, period: nat): (r: seq<real>)
    requires period >= 1
    ensures |r| == if |prices| < period then 0 else |prices| - period + 1
    ensures |prices| >= period ==> r[0] == Sum(prices[..period]) / (period as real)
    decreases |prices|
  {
    if |prices| < period then []
    else if |prices| == period then
      assert prices[..period] == prices;
      [Sum(prices) / (period as real)]
    else
      var prev := Ema(prices[..|prices| - 1], period);
      var last := prev[|prev| - 1];
      assert prices[..|prices| - 1][..period] == prices[..period];
      prev + [EmaNext(last, prices[|prices| - 1], Multiplier(period))]
  }

  function Last(s: seq<real>): real
    requires |s| > 0
  {
    s[|s| - 1]
  }

  /** calculate_ema (src/indicators/indicators.py:12-31). */
  method CalculateEma(prices: seq<real>, period: nat) returns (ema: seq<real>)
    requires period >= 1
    ensures ema == Ema(prices, period)
  {
    if |prices| < period {
      return [];
    }
    var multiplier := Multiplier(period);
    var sma := Sum(prices[..period]) / (period as real);
    ema := [sma];
    var i := period;
    assert prices[..period] == prices[..i];
    while i < |prices|
      invariant period <= i <= |prices|
      invariant ema == Ema(prices[..i], period)
    {
      var price := prices[i];
      var emaValue := EmaNext(ema[|ema| - 1], price, multiplier);
      EmaSnoc(prices, period, i);
      ema := ema + [emaValue];
      i := i + 1;
    }
    assert prices[..|prices|] == prices;
  }

  /** One more price extends the EMA of a prefix by one recurrence step. */
  lemma EmaSnoc(prices: seq<real>, period: nat, i: nat)
    requires period >= 1 && period <= i < |prices|
    ensures Ema(prices[..i + 1], period)
         == Ema(prices[..i], period) + [EmaNext(Last(Ema(prices[..i], period)), prices[i], Multiplier(period))]
  {
    assert prices[..i + 1][..i] == prices[..i];
  }

  /** Every EMA value after the seed is the recurrence applied to its predecessor
      and the price `period - 1 + j` it belongs to. */
  lemma {:induction false} EmaRecurrence(prices: seq<real>, period: nat, j: nat)
    requires period >= 1 && |prices| >= period
    requires 1 <= j < |prices| - period + 1
    ensures Ema(prices, period)[j] == EmaNext(Ema(prices, period)[j - 1], prices[period - 1 + j], Multiplier(period))
    decreases |prices|
  {
    var n := |prices|;
    var init := prices[..n - 1];
    if j < n - period {
      EmaRecurrence(init, period, j);
      assert init[period - 1 + j] == prices[period - 1 + j];
    }
  }

  /** The EMA of a prefix is a prefix of the EMA. */
  lemma {:induction false} EmaPrefix(prices: seq<real>, period: nat, m: nat)
    requires period >= 1 && period <= m <= |prices|
    ensures Ema(prices[..m], period) == Ema(prices, period)[..m - period + 1]
    decreases |prices| - m
  {
    if m < |prices| {
      var init := prices[..|prices| - 1];
      EmaPrefix(init, period, m);
      assert init[..m] == prices[..m];
    } else {
      assert prices[..m] == prices;
    }
  }

  /** For a constant price series every EMA value equals that constant. */
  lemma {:induction false} EmaOfConstant(prices: seq<real>, period: nat, c: real)
    requires period >= 1
    requires forall i :: 0 <= i < |prices| ==> prices[i] == c
    ensures forall j :: 0 <= j < |Ema(prices, period)| ==> Ema(prices, period)[j] == c
    decreases |prices|
  {
    if |prices| == period {
      SumConstant(prices, c);
      assert prices[..period] == prices;
    } else if |prices| > period {
      var init := prices[..|prices| - 1];
      EmaOfConstant(init, period, c);
      var prev := Ema(init, period);
      assert Ema(prices, period) == prev + [EmaNext(prev[|prev| - 1], c, Multiplier(period))];
      assert EmaNext(c, c, Multiplier(period)) == c;
    }
  }

  // ---------------------------------------------------------------------------
  // MACD (calculate_macd)
  // ---------------------------------------------------------------------------

  datatype Trend = Bullish | Bearish | Neutral

  datatype Macd = Macd(macd: real, signal: real, histogram: real, trend: Trend)

  /** The all-zero, neutral value returned for a short window. */
  const MacdSentinel := Macd(0.0, 0.0, 0.0, Neutral)

  /** The trend rule: bullish when histogram and MACD are both positive, bearish
      when both are negative, neutral otherwise. */
  function TrendOf(histogram: real, macd: real): (t: Trend)
    ensures t == Bullish <==> histogram > 0.0 && macd > 0.0
    ensures t == Bearish <==> histogram < 0.0 && macd < 0.0
    ensures t == Neutral <==> !(histogram > 0.0 && macd > 0.0) && !(histogram < 0.0 && macd < 0.0)
  {
    if histogram > 0.0 && macd > 0.0 then Bullish
    else if histogram < 0.0 && macd < 0.0 then Bearish
    else Neutral
  }

  /** Python's `s[k]`, where a negative `k` counts from the end. */
  function PyIndex(s: seq<real>, k: int): real
    requires -|s| <= k < |s|
  {
    if k >= 0 then s[k] else s[|s| + k]
  }

  /** The first `k` steps of the loop that builds `macd_line`: entry `i` of the
      slow series is paired with the fast series at `i + offset`, taken as a
      Python index, and skipped when that index is past the end. */
  function MacdLine(emaFast: seq<real>, emaSlow: seq<real>, offset: int, k: nat): seq<real>
    requires k <= |emaSlow|
    requires -|emaFast| <= offset
  {
    if k == 0 then []
    else
      var prev := MacdLine(emaFast, emaSlow, offset, k - 1);
      var fastIdx := (k - 1) + offset;
      if fastIdx < |emaFast| then prev + [PyIndex(emaFast, fastIdx) - emaSlow[k - 1]] else prev
  }

  /** The `macd_line` calculate_macd builds for a window of at least `slow`
      prices, with `fast_idx = i + (fast_period - slow_period)`. */
  function MacdLineOf(prices: seq<real>, fast: nat, slow: nat): seq<real>
    requires fast >= 1 && slow >= 1 && |prices| >= slow
  {
    var emaFast := Ema(prices, fast);
    var emaSlow := Ema(prices, slow);
    MacdLine(emaFast, emaSlow, fast - slow, |emaSlow|)
  }

  /** The MACD value reported from a MACD line: its last entry, the last entry of
      its EMA, their difference and the trend rule. */
  function MacdFromLine(line: seq<real>, signal: nat): Macd
    requires signal >= 1
  {
    if |line| < signal then MacdSentinel
    else
      var signalLine := Ema(line, signal);
      var m := Last(line);
      var s := Last(signalLine);
      Macd(m, s, m - s, TrendOf(m - s, m))
  }

  /** The value calculate_macd returns. */
  function MacdOf(prices: seq<real>, fast: nat, slow: nat, signal: nat): Macd
    requires fast >= 1 && slow >= 1 && signal >= 1
  {
    if |prices| < slow + signal then MacdSentinel
    else MacdFromLine(MacdLineOf(prices, fast, slow), signal)
  }

  /** calculate_macd (src/indicators/indicators.py:34-83). The index guard that
      Python needs (`fast_idx >= -len(ema_fast)`) always holds after the length
      check at line 42, so the negative-index case never raises. */
  method CalculateMacd(prices: seq<real>, fast: nat, slow: nat, signal: nat) returns (r: Macd)
    requires fast >= 1 && slow >= 1 && signal >= 1
    ensures r == MacdOf(prices, fast, slow, signal)
    ensures |prices| < slow + signal ==> r == MacdSentinel
    ensures r.histogram == r.macd - r.signal
  {
    if |prices| < slow + signal {
      return MacdSentinel;
    }
    var emaFast := CalculateEma(prices, fast);
    var emaSlow := CalculateEma(prices, slow);
    var macdLine := BuildMacdLine(emaFast, emaSlow, fast - slow);
    if |macdLine| < signal {
      return MacdSentinel;
    }
    var signalLine := CalculateEma(macdLine, signal);
    if |signalLine| > 0 {
      var macdValue := macdLine[|macdLine| - 1];
      var signalValue := signalLine[|signalLine| - 1];
      var histogram := macdValue - signalValue;
      var trend: Trend;
      if histogram > 0.0 && macdValue > 0.0 {
        trend := Bullish;
      } else if histogram < 0.0 && macdValue < 0.0 {
        trend := Bearish;
      } else {
        trend := Neutral;
      }
      return Macd(macdValue, signalValue, histogram, trend);
    }
    return MacdSentinel;
  }

  /** The loop of calculate_macd that builds `macd_line` (indicators.py:47-54). */
  method BuildMacdLine(emaFast: seq<real>, emaSlow: seq<real>, offset: int) returns (macdLine: seq<real>)
    requires -|emaFast| <= offset
    ensures macdLine == MacdLine(emaFast, emaSlow, offset, |emaSlow|)
  {
    macdLine := [];
    var i := 0;
    while i < |emaSlow|
      invariant 0 <= i <= |emaSlow|
      invariant macdLine == MacdLine(emaFast, emaSlow, offset, i)
    {
      var fastIdx := i + offset;
      if fastIdx < |emaFast| {
        macdLine := macdLine + [PyIndex(emaFast, fastIdx) - emaSlow[i]];
      }
      i := i + 1;
    }
  }

  /** When no fast index runs past the end, the loop keeps every slow entry and
      entry `i` is `ema_fast[i + offset] - ema_slow[i]` with Python indexing. */
  lemma {:induction false} MacdLineEntries(emaFast: seq<real>, emaSlow: seq<real>, offset: int, k: nat)
    requires k <= |emaSlow| && -|emaFast| <= offset
    requires |emaSlow| + offset <= |emaFast|
    ensures |MacdLine(emaFast, emaSlow, offset, k)| == k
    ensures forall i :: 0 <= i < k ==>
      MacdLine(emaFast, emaSlow, offset, k)[i] == PyIndex(emaFast, i + offset) - emaSlow[i]
  {
    if k > 0 {
      MacdLineEntries(emaFast, emaSlow, offset, k - 1);
    }
  }

  /** The MACD line as built: with `fast < slow` it has one entry per slow-EMA
      value, and entry `i` uses the fast EMA at Python index `i + fast - slow`,
      which for `i < slow - fast` is negative and wraps to position
      `len(ema_slow) + i`. */
  lemma MacdLineAsWritten(prices: seq<real>, fast: nat, slow: nat)
    requires 1 <= fast < slow && |prices| >= slow
    ensures var emaFast, emaSlow := Ema(prices, fast), Ema(prices, slow);
      var line := MacdLineOf(prices, fast, slow);
      && |line| == |emaSlow|
      && forall i :: 0 <= i < |emaSlow| ==>
           line[i] == (if i + fast < slow then emaFast[|emaSlow| + i] else emaFast[i + fast - slow]) - emaSlow[i]
  {
    var emaFast, emaSlow := Ema(prices, fast), Ema(prices, slow);
    MacdLineEntries(emaFast, emaSlow, fast - slow, |emaSlow|);
  }

  /** With `fast <= slow` the MACD line has one entry per slow-EMA value, so it
      always reaches the signal period and the second sentinel (line 57) is never
      returned: the reported MACD is the last entry of the line and the signal
      the last entry of its EMA. */
  lemma MacdReportsLastEntry(prices: seq<real>, fast: nat, slow: nat, signal: nat)
    requires 1 <= fast <= slow && signal >= 1 && |prices| >= slow + signal
    ensures |MacdLineOf(prices, fast, slow)| == |prices| - slow + 1
    ensures var line := MacdLineOf(prices, fast, slow);
      var r := MacdOf(prices, fast, slow, signal);
      && r.macd == line[|line| - 1]
      && r.signal == Last(Ema(line, signal))
      && r.histogram == r.macd - r.signal
  {
    var emaFast, emaSlow := Ema(prices, fast), Ema(prices, slow);
    MacdLineEntries(emaFast, emaSlow, fast - slow, |emaSlow|);
  }

  /** The standard MACD line: the fast EMA minus the slow EMA of the same price
      window, so each slow-EMA value is paired with `ema_fast[i + slow - fast]`. */
  function AlignedMacdLine(prices: seq<real>, fast: nat, slow: nat): (line: seq<real>)
    requires 1 <= fast <= slow && |prices| >= slow
    ensures |line| == |prices| - slow + 1
    ensures forall i :: 0 <= i < |line| ==> line[i] == Ema(prices, fast)[i + slow - fast] - Ema(prices, slow)[i]
  {
    var emaFast, emaSlow := Ema(prices, fast), Ema(prices, slow);
    seq(|emaSlow|, i requires 0 <= i < |emaSlow| => emaFast[i + slow - fast] - emaSlow[i])
  }

  /** Entry `i` of the aligned line is the fast EMA minus the slow EMA of the
      same price window `prices[..slow + i]`. */
  lemma AlignedMacdPairsSameWindow(prices: seq<real>, fast: nat, slow: nat, i: nat)
    requires 1 <= fast <= slow && |prices| >= slow && i < |prices| - slow + 1
    ensures AlignedMacdLine(prices, fast, slow)[i]
         == Last(Ema(prices[..slow + i], fast)) - Last(Ema(prices[..slow + i], slow))
  {
    var m := slow + i;
    var line := AlignedMacdLine(prices, fast, slow);
    assert line[i] == Ema(prices, fast)[m - fast] - Ema(prices, slow)[m - slow];
    LastEmaOfPrefix(prices, fast, m);
    LastEmaOfPrefix(prices, slow, m);
  }

  /** The last EMA value of the first `m` prices is EMA entry `m - period`. */
  lemma LastEmaOfPrefix(prices: seq<real>, period: nat, m: nat)
    requires period >= 1 && period <= m <= |prices|
    ensures Last(Ema(prices[..m], period)) == Ema(prices, period)[m - period]
  {
    EmaPrefix(prices, period, m);
  }

  /** The alignment as written pairs a slow EMA with a fast EMA of a different
      window. On the rising window [0, 0, 3] with periods 1/2/1 the fast EMA ends
      above the slow one (3 > 2), the aligned line is [0, 1], but the line built
      is [3, -2] and the reported MACD is -2. */
  lemma MacdMisalignedExample()
    ensures MacdLineOf([0.0, 0.0, 3.0], 1, 2) == [3.0, -2.0]
    ensures AlignedMacdLine([0.0, 0.0, 3.0], 1, 2) == [0.0, 1.0]
    ensures MacdOf([0.0, 0.0, 3.0], 1, 2, 1).macd == -2.0
  {
    var p := [0.0, 0.0, 3.0];
    assert p[..1] == [0.0] && p[..2] == [0.0, 0.0];
    assert Sum([0.0]) == 0.0;
    assert Sum([0.0, 0.0]) == 0.0 by { assert [0.0, 0.0][..1] == [0.0]; }
    assert Ema(p[..1], 1) == [0.0];
    assert Ema(p[..2], 1) == [0.0, 0.0];
    assert Ema(p, 1) == [0.0, 0.0, 3.0];
    assert Ema(p[..2], 2) == [0.0];
    assert Ema(p, 2) == [0.0, 2.0];
    var line := MacdLineOf(p, 1, 2);
    assert MacdLine(Ema(p, 1), Ema(p, 2), -1, 1) == [3.0];
    assert line == [3.0, -2.0];
  }

  // ---------------------------------------------------------------------------
  // Wilder smoothing, shared by RSI and ATR
  // ---------------------------------------------------------------------------

  /** After `k` samples: the mean of the first `period`, then
      `avg = (avg * (period - 1) + x) / period` for each later sample. */
  function Wilder(xs: seq<real>, period: nat, k: nat): real
    requires period >= 1 && period <= k <= |xs|
    decreases k
  {
    if k == period then Sum(xs[..period]) / (period as real)
    else WilderNext(Wilder(xs, period, k - 1), xs[k - 1], period)
  }

  /** One smoothing step `(avg * (period - 1) + x) / period`. */
  function WilderNext(avg: real, x: real, period: nat): real
    requires period >= 1
  {
    (avg * ((period - 1) as real) + x) / (period as real)
  }

  lemma WilderNextNonNegative(avg: real, x: real, period: nat)
    requires period >= 1 && avg >= 0.0 && x >= 0.0
    ensures WilderNext(avg, x, period) >= 0.0
  {
    assert avg * ((period - 1) as real) >= 0.0;
  }

  lemma {:induction false} WilderNonNegative(xs: seq<real>, period: nat, k: nat)
    requires period >= 1 && period <= k <= |xs|
    requires forall i :: 0 <= i < |xs| ==> xs[i] >= 0.0
    ensures Wilder(xs, period, k) >= 0.0
    decreases k
  {
    if k == period {
      SumNonNegative(xs[..period]);
    } else {
      WilderNonNegative(xs, period, k - 1);
      WilderNextNonNegative(Wilder(xs, period, k - 1), xs[k - 1], period);
    }
  }

  lemma {:induction false} WilderOfZeros(xs: seq<real>, period: nat, k: nat)
    requires period >= 1 && period <= k <= |xs|
    requires forall i :: 0 <= i < |xs| ==> xs[i] == 0.0
    ensures Wilder(xs, period, k) == 0.0
    decreases k
  {
    if k == period {
      SumAllZero(xs[..period]);
    } else {
      WilderOfZeros(xs, period, k - 1);
    }
  }

  // ---------------------------------------------------------------------------
  // RSI (calculate_rsi)
  // ---------------------------------------------------------------------------

  function Deltas(prices: seq<real>): (d: seq<real>)
    ensures |d| == if |prices| == 0 then 0 else |prices| - 1
  {
    if |prices| == 0 then []
    else seq(|prices| - 1, i requires 0 <= i < |prices| - 1 => prices[i + 1] - prices[i])
  }

  function Gains(d: seq<real>): (g: seq<real>)
    ensures |g| == |d|
    ensures forall i :: 0 <= i < |g| ==> g[i] >= 0.0
  {
    seq(|d|, i requires 0 <= i < |d| => if d[i] > 0.0 then d[i] else 0.0)
  }

  function Losses(d: seq<real>): (l: seq<real>)
    ensures |l| == |d|
    ensures forall i :: 0 <= i < |l| ==> l[i] >= 0.0
  {
    seq(|d|, i requires 0 <= i < |d| => if d[i] < 0.0 then -d[i] else 0.0)
  }

  /** 100 when there were no losses, otherwise `100 - 100 / (1 + gain/loss)`. */
  function RsiValue(avgGain: real, avgLoss: real): real
    requires avgGain >= 0.0 && avgLoss >= 0.0
  {
    if avgLoss == 0.0 then 100.0 else 100.0 - 100.0 / (1.0 + avgGain / avgLoss)
  }

  /** The value calculate_rsi returns (before rounding). */
  function Rsi(prices: seq<real>, period: nat): real
    requires period >= 1
  {
    if |prices| < period + 1 then 50.0
    else
      var d := Deltas(prices);
      WilderNonNegative(Gains(d), period, |d|);
      WilderNonNegative(Losses(d), period, |d|);
      RsiValue(Wilder(Gains(d), period, |d|), Wilder(Losses(d), period, |d|))
  }

  /** calculate_rsi (src/indicators/indicators.py:86-114). */
  method CalculateRsi(prices: seq<real>, period: nat) returns (rsi: real)
    requires period >= 1
    ensures rsi == Rsi(prices, period)
  {
    if |prices| < period + 1 {
      return 50.0;
    }
    var deltas := Deltas(prices);
    var gains := Gains(deltas);
    var losses := Losses(deltas);
    var avgGain := Sum(gains[..period]) / (period as real);
    var avgLoss := Sum(losses[..period]) / (period as real);
    var i := period;
    while i < |gains|
      invariant period <= i <= |gains|
      invariant avgGain == Wilder(gains, period, i)
      invariant avgLoss == Wilder(losses, period, i)
    {
      avgGain := WilderNext(avgGain, gains[i], period);
      avgLoss := WilderNext(avgLoss, losses[i], period);
      i := i + 1;
    }
    if avgLoss == 0.0 {
      return 100.0;
    }
    WilderNonNegative(gains, period, |gains|);
    WilderNonNegative(losses, period, |losses|);
    var rs := avgGain / avgLoss;
    assert rs >= 0.0;
    rsi := 100.0 - 100.0 / (1.0 + rs);
  }

  /** RSI is the neutral 50 for a short window and otherwise lies in [0, 100]. */
  lemma RsiBounds(prices: seq<real>, period: nat)
    requires period >= 1
    ensures |prices| < period + 1 ==> Rsi(prices, period) == 50.0
    ensures 0.0 <= Rsi(prices, period) <= 100.0
  {
    if |prices| >= period + 1 {
      var d := Deltas(prices);
      WilderNonNegative(Gains(d), period, |d|);
      WilderNonNegative(Losses(d), period, |d|);
      var g, l := Wilder(Gains(d), period, |d|), Wilder(Losses(d), period, |d|);
      if l != 0.0 {
        assert g / l >= 0.0;
        assert 100.0 / (1.0 + g / l) <= 100.0;
      }
    }
  }

  /** For a strictly increasing series of at least `period + 1` prices there are
      no losses, so RSI is exactly 100. */
  lemma RsiOfIncreasing(prices: seq<real>, period: nat)
    requires period >= 1 && |prices| >= period + 1
    requires forall i :: 0 < i < |prices| ==> prices[i - 1] < prices[i]
    ensures Rsi(prices, period) == 100.0
  {
    var d := Deltas(prices);
    assert forall i :: 0 <= i < |d| ==> d[i] > 0.0 by {
      forall i | 0 <= i < |d| ensures d[i] > 0.0 {
        assert prices[i] < prices[i + 1];
      }
    }
    WilderOfZeros(Losses(d), period, |d|);
  }

  // ---------------------------------------------------------------------------
  // ATR (calculate_atr)
  // ---------------------------------------------------------------------------

  function Max3(a: real, b: real, c: real): real
  {
    if a >= b && a >= c then a else if b >= c then b else c
  }

  /** The true range of a bar given the previous close. */
  function TrueRange(high: real, low: real, prevClose: real): (tr: real)
    ensures tr >= high - low && tr >= Abs(high - prevClose) && tr >= Abs(low - prevClose)
    ensures tr == high - low || tr == Abs(high - prevClose) || tr == Abs(low - prevClose)
  {
    Max3(high - low, Abs(high - prevClose), Abs(low - prevClose))
  }

  /** The loop over `range(1, len(close_prices))` reads the high and low lists at
      every index of the close list, so they must be at least as long. */
  predicate AtrIndexable(high: seq<real>, low: seq<real>, close: seq<real>)
  {
    |close| <= 1 || (|high| >= |close| && |low| >= |close|)
  }

  function TrueRanges(high: seq<real>, low: seq<real>, close: seq<real>): (trs: seq<real>)
    requires AtrIndexable(high, low, close)
    ensures |trs| == if |close| == 0 then 0 else |close| - 1
    ensures forall i :: 0 <= i < |trs| ==> trs[i] == TrueRange(high[i + 1], low[i + 1], close[i])
  {
    if |close| == 0 then []
    else seq(|close| - 1, i requires 0 <= i < |close| - 1 => TrueRange(high[i + 1], low[i + 1], close[i]))
  }

  /** The value calculate_atr returns (before rounding). */
  function Atr(high: seq<real>, low: seq<real>, close: seq<real>, period: nat): real
    requires period >= 1
    requires |high| < period + 1 || AtrIndexable(high, low, close)
  {
    if |high| < period + 1 then 0.0
    else
      var trs := TrueRanges(high, low, close);
      if |trs| < period then 0.0 else Wilder(trs, period, |trs|)
  }

  /** calculate_atr (src/indicators/indicators.py:117-145). */
  method CalculateAtr(high: seq<real>, low: seq<real>, close: seq<real>, period: nat) returns (atr: real)
    requires period >= 1
    requires |high| < period + 1 || AtrIndexable(high, low, close)
    ensures atr == Atr(high, low, close, period)
  {
    if |high| < period + 1 {
      return 0.0;
    }
    var trueRanges := BuildTrueRanges(high, low, close);
    if |trueRanges| < period {
      return 0.0;
    }
    atr := WilderAverage(trueRanges, period);
  }

  /** The seeded smoothing loop of calculate_atr (src/indicators/indicators.py:139-143). */
  method WilderAverage(xs: seq<real>, period: nat) returns (avg: real)
    requires period >= 1 && period <= |xs|
    ensures avg == Wilder(xs, period, |xs|)
  {
    avg := Sum(xs[..period]) / (period as real);
    var j := period;
    while j < |xs|
      invariant period <= j <= |xs|
      invariant avg == Wilder(xs, period, j)
    {
      avg := WilderNext(avg, xs[j], period);
      j := j + 1;
    }
  }

  /** The loop of calculate_atr that collects the true ranges
      (src/indicators/indicators.py:127-133). */
  method BuildTrueRanges(high: seq<real>, low: seq<real>, close: seq<real>) returns (trueRanges: seq<real>)
    requires AtrIndexable(high, low, close)
    ensures trueRanges == TrueRanges(high, low, close)
  {
    trueRanges := [];
    var i := 1;
    while i < |close|
      invariant 1 <= i <= if |close| == 0 then 1 else |close|
      invariant trueRanges == TrueRanges(high, low, close)[..i - 1]
    {
      var highLow := high[i] - low[i];
      var highClose := Abs(high[i] - close[i - 1]);
      var lowClose := Abs(low[i] - close[i - 1]);
      var trueRange := Max3(highLow, highClose, lowClose);
      trueRanges := trueRanges + [trueRange];
      i := i + 1;
    }
  }

  /** ATR is 0 for a short window and is never negative, because every true
      range is at least an absolute value. */
  lemma AtrNonNegative(high: seq<real>, low: seq<real>, close: seq<real>, period: nat)
    requires period >= 1
    requires |high| < period + 1 || AtrIndexable(high, low, close)
    ensures |high| < period + 1 ==> Atr(high, low, close, period) == 0.0
    ensures Atr(high, low, close, period) >= 0.0
  {
    if |high| >= period + 1 {
      var trs := TrueRanges(high, low, close);
      if |trs| >= period {
        WilderNonNegative(trs, period, |trs|);
      }
    }
  }

  // ---------------------------------------------------------------------------
  // Bollinger Bands (calculate_bollinger_bands)
  // ---------------------------------------------------------------------------

  datatype BandPosition = AboveUpper | BelowLower | AboveMiddle | BelowMiddle | BandNeutral

  datatype Bollinger = Bollinger(upper: real, middle: real, lower: real, width: real,
                                 position: BandPosition, currentPrice: Option<real>)

  const BollingerSentinel := Bollinger(0.0, 0.0, 0.0, 0.0, BandNeutral, None)

  function Window(prices: seq<real>, period: nat): (w: seq<real>)
    requires period <= |prices|
    ensures |w| == period
  {
    prices[|prices| - period..]
  }

  function Square(x: real): (y: real)
    ensures y >= 0.0
  {
    if x >= 0.0 then x * x else (-x) * (-x)
  }

  function SquaredDeviations(w: seq<real>, mean: real): (sq: seq<real>)
    ensures |sq| == |w|
    ensures forall i :: 0 <= i < |sq| ==> sq[i] >= 0.0
  {
    seq(|w|, i requires 0 <= i < |w| => Square(w[i] - mean))
  }

  /** The population variance of the last `period` prices. */
  function Variance(prices: seq<real>, period: nat): real
    requires 1 <= period <= |prices|
  {
    var w := Window(prices, period);
    Sum(SquaredDeviations(w, Sum(w) / (period as real))) / (period as real)
  }

  /** The position rule, checked in the source's priority order. */
  function PositionOf(price: real, upper: real, middle: real, lower: real): BandPosition
  {
    if price > upper then AboveUpper
    else if price < lower then BelowLower
    else if price > middle then AboveMiddle
    else BelowMiddle
  }

  /** calculate_bollinger_bands (src/indicators/indicators.py:148-190). The square
      root `variance ** 0.5` is the parameter `sqrt`. */
  function BollingerBands(prices: seq<real>, period: nat, stdDev: real, sqrt: real -> real): (b: Bollinger)
    requires period >= 1
    ensures |prices| < period ==> b == BollingerSentinel
    ensures |prices| >= period ==>
      && b.middle == Sum(Window(prices, period)) / (period as real)
      && b.upper == b.middle + stdDev * sqrt(Variance(prices, period))
      && b.lower == b.middle - stdDev * sqrt(Variance(prices, period))
      && b.width == (if b.middle > 0.0 then ((b.upper - b.lower) / b.middle) * 100.0 else 0.0)
      && b.currentPrice == Some(prices[|prices| - 1])
      && (b.position == AboveUpper <==> prices[|prices| - 1] > b.upper)
      && (b.position == BelowLower <==> !(prices[|prices| - 1] > b.upper) && prices[|prices| - 1] < b.lower)
      && (b.position == AboveMiddle <==>
            !(prices[|prices| - 1] > b.upper) && !(prices[|prices| - 1] < b.lower) && prices[|prices| - 1] > b.middle)
      && (b.position == BelowMiddle <==>
            !(prices[|prices| - 1] > b.upper) && !(prices[|prices| - 1] < b.lower) && !(prices[|prices| - 1] > b.middle))
  {
    if |prices| < period then BollingerSentinel
    else
      var middle := Sum(Window(prices, period)) / (period as real);
      var std := sqrt(Variance(prices, period));
      var upper := middle + stdDev * std;
      var lower := middle - stdDev * std;
      var width := if middle > 0.0 then ((upper - lower) / middle) * 100.0 else 0.0;
      var current := prices[|prices| - 1];
      Bollinger(upper, middle, lower, width, PositionOf(current, upper, middle, lower), Some(current))
  }

  lemma VarianceNonNegative(prices: seq<real>, period: nat)
    requires 1 <= period <= |prices|
    ensures Variance(prices, period) >= 0.0
  {
    var w := Window(prices, period);
    SumNonNegative(SquaredDeviations(w, Sum(w) / (period as real)));
  }

  /** With a non-negative band multiplier and a square root that is non-negative
      on non-negative arguments, `lower <= middle <= upper`. */
  lemma BandsOrdered(prices: seq<real>, period: nat, stdDev: real, sqrt: real -> real)
    requires 1 <= period <= |prices| && stdDev >= 0.0
    requires forall v :: v >= 0.0 ==> sqrt(v) >= 0.0
    ensures var b := BollingerBands(prices, period, stdDev, sqrt);
      b.lower <= b.middle <= b.upper
  {
    VarianceNonNegative(prices, period);
    var s := sqrt(Variance(prices, period));
    assert s >= 0.0;
    assert stdDev * s >= 0.0;
  }

  // ---------------------------------------------------------------------------
  // calculate_all_indicators
  // ---------------------------------------------------------------------------

  /** One row `(open_time, open, high, low, close, volume)` of the window. */
  datatype Kline = Kline(openTime: int, open: real, high: real, low: real, close: real, volume: real)

  /** The result dictionary; `None` stands for the empty dictionary `{}` of the
      short-window sentinel. */
  datatype IndicatorSet = IndicatorSet(ema12: real, ema26: real, macd: Option<Macd>, rsi: real,
                                       atr: real, bollinger: Option<Bollinger>, available: bool)

  const IndicatorsUnavailable := IndicatorSet(0.0, 0.0, None, 50.0, 0.0, None, false)

  function Closes(klines: seq<Kline>): (s: seq<real>)
    ensures |s| == |klines| && forall i :: 0 <= i < |s| ==> s[i] == klines[i].close
  {
    seq(|klines|, i requires 0 <= i < |klines| => klines[i].close)
  }

  function Highs(klines: seq<Kline>): (s: seq<real>)
    ensures |s| == |klines| && forall i :: 0 <= i < |s| ==> s[i] == klines[i].high
  {
    seq(|klines|, i requires 0 <= i < |klines| => klines[i].high)
  }

  function Lows(klines: seq<Kline>): (s: seq<real>)
    ensures |s| == |klines| && forall i :: 0 <= i < |s| ==> s[i] == klines[i].low
  {
    seq(|klines|, i requires 0 <= i < |klines| => klines[i].low)
  }

  /** calculate_all_indicators (src/indicators/indicators.py:193-229), with the
      default periods EMA 12/26, MACD 12/26/9, RSI 14, ATR 14, Bollinger 20/2.0. */
  method CalculateAllIndicators(klines: seq<Kline>, sqrt: real -> real) returns (r: IndicatorSet)
    ensures |klines| < 26 ==> r == IndicatorsUnavailable
    ensures |klines| >= 26 ==>
      var closes := Closes(klines);
      && r.available
      && r.ema12 == Last(Ema(closes, 12))
      && r.ema26 == Last(Ema(closes, 26))
      && r.macd == Some(MacdOf(closes, 12, 26, 9))
      && r.rsi == Rsi(closes, 14)
      && r.atr == Atr(Highs(klines), Lows(klines), closes, 14)
      && r.bollinger == Some(BollingerBands(closes, 20, 2.0, sqrt))
  {
    if |klines| < 26 {
      return IndicatorsUnavailable;
    }
    var closePrices := Closes(klines);
    var highPrices := Highs(klines);
    var lowPrices := Lows(klines);
    var ema12 := CalculateEma(closePrices, 12);
    var ema26 := CalculateEma(closePrices, 26);
    var macd := CalculateMacd(closePrices, 12, 26, 9);
    var rsi := CalculateRsi(closePrices, 14);
    var atr := CalculateAtr(highPrices, lowPrices, closePrices, 14);
    var bollinger := BollingerBands(closePrices, 20, 2.0, sqrt);
    r := IndicatorSet(
      if |ema12| > 0 then ema12[|ema12| - 1] else 0.0,
      if |ema26| > 0 then ema26[|ema26| - 1] else 0.0,
      Some(macd), rsi, atr, Some(bollinger), true);
  }

  /** A window of at least 26 candles is always available, and its RSI and ATR
      are in range: RSI in [0, 100], ATR >= 0. */
  lemma AllIndicatorsInRange(klines: seq<Kline>)
    requires |klines| >= 26
    ensures 0.0 <= Rsi(Closes(klines), 14) <= 100.0
    ensures Atr(Highs(klines), Lows(klines), Closes(klines), 14) >= 0.0
  {
    RsiBounds(Closes(klines), 14);
    AtrNonNegative(Highs(klines), Lows(klines), Closes(klines), 14);
  }
}
