/**
 * The store of binance_collector.py: one append-only table per stream
 * (trades, order-book snapshots, klines, 24-hour tickers) and one method per
 * message kind, plus the historical-kline backfill run by the constructor.
 *
 * A decoded websocket message or REST response is a parameter; a field that is
 * missing or does not convert (a `KeyError` or `ValueError` caught by the
 * handler's `try`) is `None`. Wall-clock timestamps are parameters too. The
 * SQLite tables are sequences of rows in insertion order.
 */
module BinanceCollector {
  import opened Common

  // ---------------------------------------------------------------------------
  // Rows
  // ---------------------------------------------------------------------------

  datatype TradeRow = TradeRow(
    symbol: string, timestamp: int, price: real, quantity: real,
    isBuyerMaker: int, tradeId: int)

  datatype OrderBookRow = OrderBookRow(
    symbol: string, timestamp: int, bids: seq<Level>, asks: seq<Level>)

  datatype KlineRow = KlineRow(
    symbol: string, interval: string, openTime: int,
    open: real, high: real, low: real, close: real, volume: real,
    closeTime: int, quoteVolume: real, tradesCount: int,
    takerBuyVolume: real, takerBuyQuoteVolume: real)

  datatype TickerRow = TickerRow(
    symbol: string, timestamp: int,
    priceChange: real, priceChangePercent: real, weightedAvgPrice: real,
    lastPrice: real, volume: real, quoteVolume: real)

  // ---------------------------------------------------------------------------
  // Trades (aggTrade stream)
  // ---------------------------------------------------------------------------

  /** The keys of an aggregated-trade message: `T` time, `p` price, `q` quantity,
      `m` buyer-is-maker, `a` aggregate id, `t` trade id. */
  datatype TradeMessage = TradeMessage(
    T: Option<int>, p: Option<real>, q: Option<real>, m: Option<bool>,
    a: Option<int>, t: Option<int>)

  /** `data.get('a', data.get('t', 0))` */
  function TradeIdOf(msg: TradeMessage): (id: int)
    ensures msg.a.Some? ==> id == msg.a.value
    ensures msg.a.None? && msg.t.Some? ==> id == msg.t.value
    ensures msg.a.None? && msg.t.None? ==> id == 0
  {
    if msg.a.Some? then msg.a.value else msg.t.GetOr(0)
  }

  /** The row inserted for a trade message (binance_collector.py:183-197): none
      when `T`, `p`, `q` or `m` is missing or does not convert; the maker flag
      is 1 exactly when `m` is true. */
  function TradeRowOf(symbol: string, msg: TradeMessage): (r: Option<TradeRow>)
    ensures r.Some? <==> msg.T.Some? && msg.p.Some? && msg.q.Some? && msg.m.Some?
    ensures r.Some? ==>
      && r.value.symbol == symbol
      && r.value.timestamp == msg.T.value
      && r.value.price == msg.p.value
      && r.value.quantity == msg.q.value
      && (r.value.isBuyerMaker == 1 <==> msg.m.value)
      && (r.value.isBuyerMaker == 0 <==> !msg.m.value)
      && r.value.tradeId == TradeIdOf(msg)
  {
    if msg.T.Some? && msg.p.Some? && msg.q.Some? && msg.m.Some? then
      Some(TradeRow(symbol, msg.T.value, msg.p.value, msg.q.value,
                    if msg.m.value then 1 else 0, TradeIdOf(msg)))
    else None
  }

  // ---------------------------------------------------------------------------
  // Order book (depth stream)
  // ---------------------------------------------------------------------------

  /** The `bids` and `asks` keys of a depth message; a missing key reads as []. */
  datatype DepthMessage = DepthMessage(bids: Option<seq<Level>>, asks: Option<seq<Level>>)

  /** Python's `s[:n]`. */
  function Take<T>(s: seq<T>, n: nat): (r: seq<T>)
    ensures |r| == if |s| < n then |s| else n
    ensures forall i :: 0 <= i < |r| ==> r[i] == s[i]
  {
    if |s| <= n then s else s[..n]
  }

  /** The snapshot inserted for a depth message (binance_collector.py:226-241):
      none when either side is empty or missing; otherwise the first (at most)
      20 levels of each side, in the order received. */
  function OrderBookRowOf(symbol: string, nowMs: int, msg: DepthMessage): (r: Option<OrderBookRow>)
    ensures var bids, asks := msg.bids.GetOr([]), msg.asks.GetOr([]);
      && (r.None? <==> |bids| == 0 || |asks| == 0)
      && (r.Some? ==>
            && r.value.symbol == symbol && r.value.timestamp == nowMs
            && |r.value.bids| == (if |bids| < 20 then |bids| else 20)
            && |r.value.asks| == (if |asks| < 20 then |asks| else 20)
            && (forall i :: 0 <= i < |r.value.bids| ==> r.value.bids[i] == bids[i])
            && (forall i :: 0 <= i < |r.value.asks| ==> r.value.asks[i] == asks[i]))
  {
    var bids := msg.bids.GetOr([]);
    var asks := msg.asks.GetOr([]);
    if |bids| == 0 || |asks| == 0 then None
    else Some(OrderBookRow(symbol, nowMs, Take(bids, 20), Take(asks, 20)))
  }

  // ---------------------------------------------------------------------------
  // Klines (kline stream and REST backfill)
  // ---------------------------------------------------------------------------

  /** The converted fields of one kline: open time, OHLCV, close time, quote
      volume, trade count and the two taker-buy volumes. */
  datatype KlineFields = KlineFields(
    openTime: int, open: real, high: real, low: real, close: real, volume: real,
    closeTime: int, quoteVolume: real, tradesCount: int,
    takerBuyVolume: real, takerBuyQuoteVolume: real)

  function KlineRowOf(symbol: string, interval: string, k: KlineFields): KlineRow
  {
    KlineRow(symbol, interval, k.openTime, k.open, k.high, k.low, k.close, k.volume,
             k.closeTime, k.quoteVolume, k.tradesCount, k.takerBuyVolume, k.takerBuyQuoteVolume)
  }

  /** The `k` object of a kline message: its `x` (closed) flag and the other
      fields, `None` when one of them is missing or does not convert. */
  datatype KlineMessage = KlineMessage(closed: Option<bool>, fields: Option<KlineFields>)

  /** The row inserted for a kline message (binance_collector.py:275-288): only a
      closed kline whose fields all convert is stored, tagged with the
      stream's interval. */
  function KlineMessageRow(symbol: string, interval: string, msg: KlineMessage): (r: Option<KlineRow>)
    ensures r.Some? <==> msg.closed == Some(true) && msg.fields.Some?
    ensures r.Some? ==> r.value == KlineRowOf(symbol, interval, msg.fields.value)
  {
    if msg.closed == Some(true) && msg.fields.Some? then
      Some(KlineRowOf(symbol, interval, msg.fields.value))
    else None
  }

  /** Klines are stored with a plain INSERT: storing the same closed kline twice
      leaves two identical rows with the same (symbol, interval, open time). */
  lemma KlineInsertIsNotUpsert(table: seq<KlineRow>, symbol: string, interval: string, msg: KlineMessage)
    requires msg.closed == Some(true) && msg.fields.Some?
    ensures var once := table + AsSeq(KlineMessageRow(symbol, interval, msg));
      var twice := once + AsSeq(KlineMessageRow(symbol, interval, msg));
      && |twice| == |table| + 2
      && twice[|table|] == twice[|table| + 1]
      && twice[|table| + 1].openTime == msg.fields.value.openTime
      && twice[|table| + 1].interval == interval
  {
  }

  /** The intervals backfilled, in order, and the number of klines requested
      for each (binance_collector.py:114-123). */
  const Intervals: seq<string> := ["1m", "5m", "15m", "30m", "1h", "4h", "1d"]

  function Limit(interval: string): (n: nat)
    ensures interval == "1d" ==> n == 365
    ensures interval != "1d" ==> n == 500
  {
    if interval == "1d" then 365 else 500
  }

  /** A REST response for one interval: the request may fail, the status may
      differ from 200, the body may not be JSON; each kline of the list is
      `None` when one of its fields does not convert. */
  datatype KlinesResponse =
    | RequestFailed
    | KlinesReply(status: int, body: Option<seq<Option<KlineFields>>>)

  /** The rows the insert loop writes for the klines of one response: it stops
      at the first kline that does not convert, keeping those before it. */
  function BackfillRows(symbol: string, interval: string, ks: seq<Option<KlineFields>>): seq<KlineRow>
    decreases |ks|
  {
    if |ks| == 0 || ks[0].None? then []
    else [KlineRowOf(symbol, interval, ks[0].value)] + BackfillRows(symbol, interval, ks[1..])
  }

  /** When every kline converts, the table grows by exactly their number, each
      row tagged with the interval, in the order received
      (binance_collector.py:141-166). */
  lemma {:induction false} BackfillAllConverted(symbol: string, interval: string, ks: seq<Option<KlineFields>>)
    requires forall i :: 0 <= i < |ks| ==> ks[i].Some?
    ensures |BackfillRows(symbol, interval, ks)| == |ks|
    ensures forall i :: 0 <= i < |ks| ==>
      BackfillRows(symbol, interval, ks)[i] == KlineRowOf(symbol, interval, ks[i].value)
  {
    if |ks| > 0 {
      BackfillAllConverted(symbol, interval, ks[1..]);
      var rows := BackfillRows(symbol, interval, ks);
      forall i | 0 <= i < |ks|
        ensures rows[i] == KlineRowOf(symbol, interval, ks[i].value)
      {
        if i > 0 {
          assert ks[1..][i - 1] == ks[i];
        }
      }
    }
  }

  /** Every backfilled row is tagged with the symbol and the interval. */
  lemma {:induction false} BackfillRowsTagged(symbol: string, interval: string, ks: seq<Option<KlineFields>>)
    ensures |BackfillRows(symbol, interval, ks)| <= |ks|
    ensures forall r :: r in BackfillRows(symbol, interval, ks) ==>
      r.symbol == symbol && r.interval == interval
  {
    if |ks| > 0 && ks[0].Some? {
      BackfillRowsTagged(symbol, interval, ks[1..]);
    }
  }

  /** The rows one interval contributes: none unless the response has status
      200 and a JSON body (binance_collector.py:136-175). */
  function IntervalRows(symbol: string, interval: string, response: KlinesResponse): (rows: seq<KlineRow>)
    ensures !(response.KlinesReply? && response.status == 200 && response.body.Some?) ==> rows == []
    ensures response.KlinesReply? && response.status == 200 && response.body.Some? ==>
      rows == BackfillRows(symbol, interval, response.body.value)
  {
    match response
    case RequestFailed => []
    case KlinesReply(status, body) =>
      if status == 200 && body.Some? then BackfillRows(symbol, interval, body.value) else []
  }

  /** The rows backfilled for a list of intervals, each fetched with its limit. */
  function BackfillAll(symbol: string, fetch: (string, nat) -> KlinesResponse, intervals: seq<string>): seq<KlineRow>
  {
    if |intervals| == 0 then []
    else
      var interval := intervals[|intervals| - 1];
      BackfillAll(symbol, fetch, intervals[..|intervals| - 1])
      + IntervalRows(symbol, interval, fetch(interval, Limit(interval)))
  }

  lemma BackfillAllStep(symbol: string, fetch: (string, nat) -> KlinesResponse, intervals: seq<string>, n: nat)
    requires n < |intervals|
    ensures BackfillAll(symbol, fetch, intervals[..n + 1])
            == BackfillAll(symbol, fetch, intervals[..n])
               + IntervalRows(symbol, intervals[n], fetch(intervals[n], Limit(intervals[n])))
  {
    assert intervals[..n + 1][..n] == intervals[..n];
  }

  /** A failing interval is skipped and the loop carries on: whatever its
      position, the rows of the intervals before and after it are exactly what
      they would have been without it. An interval fails when the request
      raised, the status is not 200 or the body is not JSON; all of these give
      no rows. */
  lemma {:induction false} BackfillSkipsFailedInterval(
    symbol: string, fetch: (string, nat) -> KlinesResponse,
    left: seq<string>, failed: string, right: seq<string>)
    requires IntervalRows(symbol, failed, fetch(failed, Limit(failed))) == []
    ensures BackfillAll(symbol, fetch, left + [failed] + right)
            == BackfillAll(symbol, fetch, left) + BackfillAll(symbol, fetch, right)
  {
    BackfillAllAppend(symbol, fetch, left + [failed], right);
    assert (left + [failed])[..|left|] == left;
  }

  /** Rows of the left interval list come before the rows of the right one. */
  lemma {:induction false} BackfillAllAppend(
    symbol: string, fetch: (string, nat) -> KlinesResponse, left: seq<string>, right: seq<string>)
    ensures BackfillAll(symbol, fetch, left + right)
            == BackfillAll(symbol, fetch, left) + BackfillAll(symbol, fetch, right)
  {
    if |right| == 0 {
      assert left + right == left;
    } else {
      var front := right[..|right| - 1];
      var last := right[|right| - 1];
      var lastRows := IntervalRows(symbol, last, fetch(last, Limit(last)));
      assert (left + right)[..|left + right| - 1] == left + front;
      assert (left + right)[|left + right| - 1] == last;
      BackfillAllAppend(symbol, fetch, left, front);
      assert BackfillAll(symbol, fetch, left + right) == BackfillAll(symbol, fetch, left + front) + lastRows;
      assert BackfillAll(symbol, fetch, right) == BackfillAll(symbol, fetch, front) + lastRows;
      AppendAssoc(BackfillAll(symbol, fetch, left), BackfillAll(symbol, fetch, front), lastRows);
    }
  }


  // ---------------------------------------------------------------------------
  // 24-hour ticker (REST poll)
  // ---------------------------------------------------------------------------

  datatype TickerFields = TickerFields(
    priceChange: real, priceChangePercent: real, weightedAvgPrice: real,
    lastPrice: real, volume: real, quoteVolume: real)

  datatype TickerResponse =
    | TickerRequestFailed
    | TickerReply(status: int, body: Option<TickerFields>)

  /** The row inserted for one poll (binance_collector.py:318-339): one row on
      status 200 with a body that converts, none otherwise. */
  function TickerRowOf(symbol: string, nowMs: int, response: TickerResponse): (r: Option<TickerRow>)
    ensures r.Some? <==> response.TickerReply? && response.status == 200 && response.body.Some?
    ensures r.Some? ==>
      && r.value.symbol == symbol && r.value.timestamp == nowMs
      && r.value.priceChange == response.body.value.priceChange
      && r.value.priceChangePercent == response.body.value.priceChangePercent
      && r.value.weightedAvgPrice == response.body.value.weightedAvgPrice
      && r.value.lastPrice == response.body.value.lastPrice
      && r.value.volume == response.body.value.volume
      && r.value.quoteVolume == response.body.value.quoteVolume
  {
    match response
    case TickerRequestFailed => None
    case TickerReply(status, body) =>
      if status == 200 && body.Some? then
        var d := body.value;
        Some(TickerRow(symbol, nowMs, d.priceChange, d.priceChangePercent, d.weightedAvgPrice,
                       d.lastPrice, d.volume, d.quoteVolume))
      else None
  }

  // ---------------------------------------------------------------------------
  // The store
  // ---------------------------------------------------------------------------

  /** BinanceDataCollector with its four tables. */
  class BinanceStore {
    const symbol: string
    var trades: seq<TradeRow>
    var orderbook: seq<OrderBookRow>
    var klines: seq<KlineRow>
    var ticker: seq<TickerRow>

    /** Every row in every table carries the collector's symbol. */
    predicate Valid()
      reads this
    {
      && (forall i :: 0 <= i < |trades| ==> trades[i].symbol == symbol)
      && (forall i :: 0 <= i < |orderbook| ==> orderbook[i].symbol == symbol)
      && (forall i :: 0 <= i < |klines| ==> klines[i].symbol == symbol)
      && (forall i :: 0 <= i < |ticker| ==> ticker[i].symbol == symbol)
    }

    /** __init__ (binance_collector.py:11-16): the symbol is lower-cased, the
        tables start empty, and the backfill runs once. */
    constructor (symbol: string, fetch: (string, nat) -> KlinesResponse)
      ensures this.symbol == Lower(symbol)
      ensures trades == [] && orderbook == [] && ticker == []
      ensures klines == BackfillAll(this.symbol, fetch, Intervals)
      ensures Valid()
    {
      this.symbol := Lower(symbol);
      trades := [];
      orderbook := [];
      klines := [];
      ticker := [];
      new;
      FetchHistoricalKlines(fetch);
    }

    /** fetch_historical_klines (binance_collector.py:110-177): the fixed
        interval list, each with its limit. */
    method FetchHistoricalKlines(fetch: (string, nat) -> KlinesResponse)
      requires Valid()
      modifies this
      ensures klines == old(klines) + BackfillAll(symbol, fetch, Intervals)
      ensures trades == old(trades) && orderbook == old(orderbook) && ticker == old(ticker)
      ensures Valid()
    {
      BackfillIntervals(fetch, Intervals);
    }

    /** The loop over the intervals (binance_collector.py:127-175): for each
        interval in order, the rows of its response are appended; the other
        tables are untouched. */
    method BackfillIntervals(fetch: (string, nat) -> KlinesResponse, intervals: seq<string>)
      requires Valid()
      modifies this
      ensures klines == old(klines) + BackfillAll(symbol, fetch, intervals)
      ensures trades == old(trades) && orderbook == old(orderbook) && ticker == old(ticker)
      ensures Valid()
    {
      for n := 0 to |intervals|
        invariant klines == old(klines) + BackfillAll(symbol, fetch, intervals[..n])
        invariant trades == old(trades) && orderbook == old(orderbook) && ticker == old(ticker)
        invariant Valid()
      {
        var interval := intervals[n];
        var response := fetch(interval, Limit(interval));
        BackfillAllStep(symbol, fetch, intervals, n);
        ghost var done := BackfillAll(symbol, fetch, intervals[..n]);
        ghost var rows := IntervalRows(symbol, interval, response);
        BackfillInterval(interval, response);
        AppendAssoc(old(klines), done, rows);
      }
      assert intervals[..|intervals|] == intervals;
    }

    /** The body of the loop for one interval (binance_collector.py:128-175):
        the klines of a successful response are inserted, anything else is
        skipped. */
    method BackfillInterval(interval: string, response: KlinesResponse)
      requires Valid()
      modifies this
      ensures klines == old(klines) + IntervalRows(symbol, interval, response)
      ensures trades == old(trades) && orderbook == old(orderbook) && ticker == old(ticker)
      ensures Valid()
    {
      if response.KlinesReply? && response.status == 200 && response.body.Some? {
        InsertKlines(interval, response.body.value);
      }
    }

    /** The insert loop over the klines of one response: it stops at the first
        kline that does not convert. */
    method InsertKlines(interval: string, ks: seq<Option<KlineFields>>)
      requires Valid()
      modifies this
      ensures klines == old(klines) + BackfillRows(symbol, interval, ks)
      ensures trades == old(trades) && orderbook == old(orderbook) && ticker == old(ticker)
      ensures Valid()
    {
      var count := 0;
      while count < |ks| && ks[count].Some?
        invariant 0 <= count <= |ks|
        invariant klines + BackfillRows(symbol, interval, ks[count..])
                  == old(klines) + BackfillRows(symbol, interval, ks)
        invariant trades == old(trades) && orderbook == old(orderbook) && ticker == old(ticker)
        invariant Valid()
      {
        var row := KlineRowOf(symbol, interval, ks[count].value);
        assert ks[count..][1..] == ks[count + 1..];
        klines := klines + [row];
        count := count + 1;
      }
    }

    /** on_message of collect_trades (binance_collector.py:181-201). */
    method OnTradeMessage(msg: TradeMessage)
      requires Valid()
      modifies this
      ensures trades == old(trades) + AsSeq(TradeRowOf(symbol, msg))
      ensures orderbook == old(orderbook) && klines == old(klines) && ticker == old(ticker)
      ensures Valid()
    {
      var row := TradeRowOf(symbol, msg);
      if row.Some? {
        trades := trades + [row.value];
      }
    }

    /** on_message of collect_orderbook (binance_collector.py:222-251). */
    method OnDepthMessage(msg: DepthMessage, nowMs: int)
      requires Valid()
      modifies this
      ensures orderbook == old(orderbook) + AsSeq(OrderBookRowOf(symbol, nowMs, msg))
      ensures trades == old(trades) && klines == old(klines) && ticker == old(ticker)
      ensures Valid()
    {
      var bids := msg.bids.GetOr([]);
      var asks := msg.asks.GetOr([]);
      if |bids| == 0 || |asks| == 0 {
        return;
      }
      orderbook := orderbook + [OrderBookRow(symbol, nowMs, Take(bids, 20), Take(asks, 20))];
    }

    /** on_message of collect_klines(interval) (binance_collector.py:272-291). */
    method OnKlineMessage(interval: string, msg: KlineMessage)
      requires Valid()
      modifies this
      ensures klines == old(klines) + AsSeq(KlineMessageRow(symbol, interval, msg))
      ensures trades == old(trades) && orderbook == old(orderbook) && ticker == old(ticker)
      ensures Valid()
    {
      if msg.closed == Some(true) {
        if msg.fields.Some? {
          klines := klines + [KlineRowOf(symbol, interval, msg.fields.value)];
        }
      }
    }

    /** One iteration of the collect_ticker_24h loop (binance_collector.py:315-342). */
    method PollTicker(response: TickerResponse, nowMs: int)
      requires Valid()
      modifies this
      ensures ticker == old(ticker) + AsSeq(TickerRowOf(symbol, nowMs, response))
      ensures trades == old(trades) && orderbook == old(orderbook) && klines == old(klines)
      ensures Valid()
    {
      var row := TickerRowOf(symbol, nowMs, response);
      if row.Some? {
        ticker := ticker + [row.value];
      }
    }
  }
}
