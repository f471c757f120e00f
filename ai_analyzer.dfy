/**
 * The rule engines of src/analyzers/ai_analyzer.py: the derived market figures
 * of get_recent_data (price trend, order-book ratio, buy/sell ratio, funding
 * rate), the sentiment signals of analyze_with_lm_studio and the score-based
 * fallback signal of generate_simple_signal.
 *
 * The SQL queries are not modelled: their results (the latest order-book row,
 * the aggregate trade volumes, the recent closes newest first, the latest
 * funding-rate row) are parameters, with `None` for a query that found no row.
 */
module AiAnalyzer {
  import opened Common

  datatype PriceTrend = Rising | Falling | Stable

  /** The figures of the `data` dictionary that the rule engines read. */
  datatype MarketData = MarketData(
    avgPrice: real,
    tradeCount: int,
    buySellRatio: real,
    orderbookRatio: real,
    priceTrend: PriceTrend,
    priceChange24h: real,
    volume24h: real,
    netFlow: real)

  // ---------------------------------------------------------------------------
  // get_recent_data
  // ---------------------------------------------------------------------------

  /** The price trend over the recent 1m closes, ordered newest first: rising
      above +0.5%, falling below -0.5% of the oldest close, stable otherwise or
      with fewer than two closes (src/analyzers/ai_analyzer.py:181-188). */
  function PriceTrendOf(recentCloses: seq<real>): (t: PriceTrend)
    ensures |recentCloses| < 2 ==> t == Stable
    ensures |recentCloses| >= 2 ==>
      var latest, older := recentCloses[0], recentCloses[|recentCloses| - 1];
      && (t == Rising <==> latest > older * 1.005)
      && (t == Falling <==> !(latest > older * 1.005) && latest < older * 0.995)
  {
    if |recentCloses| >= 2 then
      var latest := recentCloses[0];
      var older := recentCloses[|recentCloses| - 1];
      if latest > older * 1.005 then Rising
      else if latest < older * 0.995 then Falling
      else Stable
    else Stable
  }

  /** For a non-negative oldest close the two thresholds cannot both be passed,
      so `falling` is exactly "below -0.5%", and `stable` exactly "within the
      band". */
  lemma PriceTrendBands(recentCloses: seq<real>)
    requires |recentCloses| >= 2 && recentCloses[|recentCloses| - 1] >= 0.0
    ensures var latest, older := recentCloses[0], recentCloses[|recentCloses| - 1];
      && (PriceTrendOf(recentCloses) == Falling <==> latest < older * 0.995)
      && (PriceTrendOf(recentCloses) == Stable <==> older * 0.995 <= latest <= older * 1.005)
  {
  }

  /** The latest stored order-book row: its two JSON columns either parse to
      ladders or raise inside the `try`. */
  datatype StoredBook = Unparsable | Parsed(bids: seq<Level>, asks: seq<Level>)

  function Sizes(levels: seq<Level>): (s: seq<real>)
    ensures |s| == |levels| && forall i :: 0 <= i < |s| ==> s[i] == levels[i].size
  {
    seq(|levels|, i requires 0 <= i < |levels| => levels[i].size)
  }

  /** Total bid size over total ask size; 1.0 when there is no recent snapshot,
      when it does not parse, or when the ask total is not positive
      (src/analyzers/ai_analyzer.py:83-92). */
  function OrderbookRatio(latest: Option<StoredBook>): (r: real)
    ensures latest.None? || latest == Some(Unparsable) ==> r == 1.0
    ensures latest.Some? && latest.value.Parsed? ==>
      var bidTotal, askTotal := Sum(Sizes(latest.value.bids)), Sum(Sizes(latest.value.asks));
      r == if askTotal > 0.0 then bidTotal / askTotal else 1.0
  {
    match latest
    case None => 1.0
    case Some(Unparsable) => 1.0
    case Some(Parsed(bids, asks)) =>
      var totalBidVol := Sum(Sizes(bids));
      var totalAskVol := Sum(Sizes(asks));
      if totalAskVol > 0.0 then totalBidVol / totalAskVol else 1.0
  }

  /** With non-negative sizes the ratio is never negative, and it is 1.0 for a
      book whose bid total equals a positive ask total. */
  lemma OrderbookRatioNonNegative(bids: seq<Level>, asks: seq<Level>)
    requires forall i :: 0 <= i < |bids| ==> bids[i].size >= 0.0
    ensures OrderbookRatio(Some(Parsed(bids, asks))) >= 0.0
    ensures Sum(Sizes(asks)) > 0.0 && Sum(Sizes(bids)) == Sum(Sizes(asks)) ==>
      OrderbookRatio(Some(Parsed(bids, asks))) == 1.0
  {
    SumNonNegative(Sizes(bids));
  }

  /** `buy / sell` when the sell volume aggregate is present and positive, else 0
      (src/analyzers/ai_analyzer.py:196). An empty trade window makes SQL's SUM
      NULL, which is `None` here. */
  function BuySellRatio(buyVolume: real, sellVolume: Option<real>): (r: real)
    ensures sellVolume.Some? && sellVolume.value > 0.0 ==> r * sellVolume.value == buyVolume
    ensures !(sellVolume.Some? && sellVolume.value > 0.0) ==> r == 0.0
  {
    if sellVolume.Some? && sellVolume.value > 0.0 then buyVolume / sellVolume.value else 0.0
  }

  /** The latest funding rate in percent, 0 without a row
      (src/analyzers/ai_analyzer.py:213). */
  function FundingRatePercent(latest: Option<real>): (r: real)
    ensures latest.Some? ==> r == latest.value * 100.0
    ensures latest.None? ==> r == 0.0
  {
    match latest
    case Some(rate) => rate * 100.0
    case None => 0.0
  }

  // ---------------------------------------------------------------------------
  // analyze_with_lm_studio: sentiment signals
  // ---------------------------------------------------------------------------

  datatype Sentiment =
    | StrongBuying | HeavySelling
    | BookBidsThick | BookAsksThick
    | ExchangeOutflow | ExchangeInflow

  /** Which of the three dimensions (buy/sell, order book, net flow) a signal
      belongs to. */
  function SentimentDimension(s: Sentiment): nat
  {
    match s
    case StrongBuying | HeavySelling => 0
    case BookBidsThick | BookAsksThick => 1
    case ExchangeOutflow | ExchangeInflow => 2
  }

  /** The signal of one dimension: at most one, chosen by its two thresholds. */
  function BuySellSentiment(ratio: real): (s: seq<Sentiment>)
    ensures |s| <= 1 && forall x :: x in s ==> SentimentDimension(x) == 0
    ensures StrongBuying in s <==> ratio > 1.2
    ensures HeavySelling in s <==> ratio < 0.8
  {
    if ratio > 1.2 then [StrongBuying] else if ratio < 0.8 then [HeavySelling] else []
  }

  function BookSentiment(ratio: real): (s: seq<Sentiment>)
    ensures |s| <= 1 && forall x :: x in s ==> SentimentDimension(x) == 1
    ensures BookBidsThick in s <==> ratio > 1.3
    ensures BookAsksThick in s <==> ratio < 0.7
  {
    if ratio > 1.3 then [BookBidsThick] else if ratio < 0.7 then [BookAsksThick] else []
  }

  function FlowSentiment(netFlow: real): (s: seq<Sentiment>)
    ensures |s| <= 1 && forall x :: x in s ==> SentimentDimension(x) == 2
    ensures ExchangeOutflow in s <==> netFlow > 100.0
    ensures ExchangeInflow in s <==> netFlow < -100.0
  {
    if netFlow > 100.0 then [ExchangeOutflow] else if netFlow < -100.0 then [ExchangeInflow] else []
  }

  /** The sentiment signals: at most one per dimension, in dimension order;
      SentimentSignalsListed shows each is present exactly when its threshold
      is passed. */
  function SentimentOf(data: MarketData): (signals: seq<Sentiment>)
    ensures signals == BuySellSentiment(data.buySellRatio) + BookSentiment(data.orderbookRatio)
                       + FlowSentiment(data.netFlow)
    ensures |signals| <= 3
    ensures forall i, j :: 0 <= i < j < |signals| ==>
      SentimentDimension(signals[i]) < SentimentDimension(signals[j])
  {
    var buySell := BuySellSentiment(data.buySellRatio);
    var book := BookSentiment(data.orderbookRatio);
    var flow := FlowSentiment(data.netFlow);
    AppendPart(buySell, book, SentimentDimension, 1);
    AppendPart(buySell + book, flow, SentimentDimension, 2);
    buySell + book + flow
  }

  /** The appends of analyze_with_lm_studio (src/analyzers/ai_analyzer.py:259-273). */
  method SentimentSignals(data: MarketData) returns (signals: seq<Sentiment>)
    ensures signals == SentimentOf(data)
  {
    signals := [];
    if data.buySellRatio > 1.2 {
      signals := signals + [StrongBuying];
    } else if data.buySellRatio < 0.8 {
      signals := signals + [HeavySelling];
    }
    assert signals == BuySellSentiment(data.buySellRatio);
    if data.orderbookRatio > 1.3 {
      signals := signals + [BookBidsThick];
    } else if data.orderbookRatio < 0.7 {
      signals := signals + [BookAsksThick];
    }
    assert signals == BuySellSentiment(data.buySellRatio) + BookSentiment(data.orderbookRatio);
    if data.netFlow > 100.0 {
      signals := signals + [ExchangeOutflow];
    } else if data.netFlow < -100.0 {
      signals := signals + [ExchangeInflow];
    }
  }

  /** Each sentiment signal is present exactly when its threshold is passed. */
  lemma SentimentSignalsListed(data: MarketData)
    ensures var signals := SentimentOf(data);
      && (StrongBuying in signals <==> data.buySellRatio > 1.2)
      && (HeavySelling in signals <==> data.buySellRatio < 0.8)
      && (BookBidsThick in signals <==> data.orderbookRatio > 1.3)
      && (BookAsksThick in signals <==> data.orderbookRatio < 0.7)
      && (ExchangeOutflow in signals <==> data.netFlow > 100.0)
      && (ExchangeInflow in signals <==> data.netFlow < -100.0)
  {
    MemberOfParts(BuySellSentiment(data.buySellRatio), BookSentiment(data.orderbookRatio),
                  FlowSentiment(data.netFlow), [], SentimentDimension);
  }

  /** Appending a part of at most one element, of dimension `k`, after
      elements of strictly increasing dimensions below `k` keeps the
      dimensions strictly increasing; an element is in the whole exactly when
      it is in one of the two pieces. */
  lemma AppendPart<T>(front: seq<T>, part: seq<T>, dim: T -> nat, k: nat)
    requires forall i, j :: 0 <= i < j < |front| ==> dim(front[i]) < dim(front[j])
    requires forall x :: x in front ==> dim(x) < k
    requires |part| <= 1 && forall x :: x in part ==> dim(x) == k
    ensures forall i, j :: 0 <= i < j < |front + part| ==>
      dim((front + part)[i]) < dim((front + part)[j])
    ensures forall x :: x in front + part ==> dim(x) <= k
  {
    forall i, j | 0 <= i < j < |front + part|
      ensures dim((front + part)[i]) < dim((front + part)[j])
    {
      if j >= |front| {
        assert front[i] in front;
        assert (front + part)[j] == part[j - |front|];
      }
    }
  }

  /** In a concatenation of parts of dimensions 0 to 3, an element of
      dimension `k` is in the whole exactly when it is in part `k`. */
  lemma MemberOfParts<T>(a: seq<T>, b: seq<T>, c: seq<T>, d: seq<T>, dim: T -> nat)
    requires forall y :: y in a ==> dim(y) == 0
    requires forall y :: y in b ==> dim(y) == 1
    requires forall y :: y in c ==> dim(y) == 2
    requires forall y :: y in d ==> dim(y) == 3
    ensures forall x :: dim(x) == 0 ==> (x in a + b + c + d <==> x in a)
    ensures forall x :: dim(x) == 1 ==> (x in a + b + c + d <==> x in b)
    ensures forall x :: dim(x) == 2 ==> (x in a + b + c + d <==> x in c)
    ensures forall x :: dim(x) == 3 ==> (x in a + b + c + d <==> x in d)
  {
  }

  // ---------------------------------------------------------------------------
  // generate_simple_signal
  // ---------------------------------------------------------------------------

  /** The score ladders; the order-book and trend ladders are shared with the
      multi-symbol comparison. */
  function SignalBuySellTerm(ratio: real): int
  {
    if ratio > 1.3 then 2 else if ratio < 0.7 then -2 else 0
  }

  function OrderbookTerm(ratio: real): int
  {
    if ratio > 1.3 then 1 else if ratio < 0.7 then -1 else 0
  }

  function NetFlowTerm(netFlow: real): int
  {
    if netFlow > 100.0 then 2 else if netFlow < -100.0 then -2 else 0
  }

  function TrendTerm(trend: PriceTrend): int
  {
    match trend
    case Rising => 1
    case Falling => -1
    case Stable => 0
  }

  datatype Action = Buy | Sell | Hold

  /** The reasons listed under the signal; the net-flow reasons carry the
      amount the message prints. */
  datatype Reason =
    | BuyersStrong | SellersPressing
    | BookBidsHeavy | BookAsksHeavy
    | LargeOutflow(amount: real) | LargeInflow(amount: real)
    | TrendUp | TrendDown

  function ReasonDimension(r: Reason): nat
  {
    match r
    case BuyersStrong | SellersPressing => 0
    case BookBidsHeavy | BookAsksHeavy => 1
    case LargeOutflow(_) | LargeInflow(_) => 2
    case TrendUp | TrendDown => 3
  }

  datatype SimpleSignal = SimpleSignal(action: Action, score: int, reasons: seq<Reason>)

  function Indicator(b: bool): nat { if b then 1 else 0 }

  /** How many of the four ladder terms are nonzero. */
  function NonZeroTerms(data: MarketData): nat
  {
    Indicator(SignalBuySellTerm(data.buySellRatio) != 0) + Indicator(OrderbookTerm(data.orderbookRatio) != 0)
    + Indicator(NetFlowTerm(data.netFlow) != 0) + Indicator(TrendTerm(data.priceTrend) != 0)
  }

  /** The reason of one ladder: present exactly when the term is nonzero. */
  function BuySellReason(ratio: real): (s: seq<Reason>)
    ensures |s| == Indicator(SignalBuySellTerm(ratio) != 0)
    ensures forall x :: x in s ==> ReasonDimension(x) == 0
    ensures BuyersStrong in s <==> ratio > 1.3
    ensures SellersPressing in s <==> ratio < 0.7
  {
    if ratio > 1.3 then [BuyersStrong] else if ratio < 0.7 then [SellersPressing] else []
  }

  function OrderbookReason(ratio: real): (s: seq<Reason>)
    ensures |s| == Indicator(OrderbookTerm(ratio) != 0)
    ensures forall x :: x in s ==> ReasonDimension(x) == 1
    ensures BookBidsHeavy in s <==> ratio > 1.3
    ensures BookAsksHeavy in s <==> ratio < 0.7
  {
    if ratio > 1.3 then [BookBidsHeavy] else if ratio < 0.7 then [BookAsksHeavy] else []
  }

  function NetFlowReason(netFlow: real): (s: seq<Reason>)
    ensures |s| == Indicator(NetFlowTerm(netFlow) != 0)
    ensures forall x :: x in s ==> ReasonDimension(x) == 2
    ensures LargeOutflow(netFlow) in s <==> netFlow > 100.0
    ensures LargeInflow(Abs(netFlow)) in s <==> netFlow < -100.0
  {
    if netFlow > 100.0 then [LargeOutflow(netFlow)]
    else if netFlow < -100.0 then [LargeInflow(Abs(netFlow))]
    else []
  }

  function TrendReason(trend: PriceTrend): (s: seq<Reason>)
    ensures |s| == Indicator(TrendTerm(trend) != 0)
    ensures forall x :: x in s ==> ReasonDimension(x) == 3
    ensures TrendUp in s <==> trend == Rising
    ensures TrendDown in s <==> trend == Falling
  {
    match trend
    case Rising => [TrendUp]
    case Falling => [TrendDown]
    case Stable => []
  }

  /** Buy at a score of 3 or more, sell at -3 or less, hold in between. */
  function ActionOf(score: int): (a: Action)
    ensures a == Buy <==> score >= 3
    ensures a == Sell <==> score <= -3
    ensures a == Hold <==> -3 < score < 3
  {
    if score >= 3 then Buy else if score <= -3 then Sell else Hold
  }

  /** The signal generate_simple_signal computes: the score is the sum of the
      four ladders and lies in [-6, 6]; buy at 3 or more, sell at -3 or less,
      otherwise hold; the reasons are those of the four ladders in the order
      they are read. */
  function SimpleSignalOf(data: MarketData): (out: SimpleSignal)
    ensures out.score == SignalBuySellTerm(data.buySellRatio) + OrderbookTerm(data.orderbookRatio)
                       + NetFlowTerm(data.netFlow) + TrendTerm(data.priceTrend)
    ensures -6 <= out.score <= 6
    ensures out.action == Buy <==> out.score >= 3
    ensures out.action == Sell <==> out.score <= -3
    ensures out.action == Hold <==> -3 < out.score < 3
    ensures out.reasons == BuySellReason(data.buySellRatio) + OrderbookReason(data.orderbookRatio)
                         + NetFlowReason(data.netFlow) + TrendReason(data.priceTrend)
  {
    var score := SignalBuySellTerm(data.buySellRatio) + OrderbookTerm(data.orderbookRatio)
                 + NetFlowTerm(data.netFlow) + TrendTerm(data.priceTrend);
    var reasons := BuySellReason(data.buySellRatio) + OrderbookReason(data.orderbookRatio)
                   + NetFlowReason(data.netFlow) + TrendReason(data.priceTrend);
    SimpleSignal(ActionOf(score), score, reasons)
  }

  /** generate_simple_signal (src/analyzers/ai_analyzer.py:439-482): the score
      and the reasons built by sequential ifs. */
  method GenerateSimpleSignal(data: MarketData) returns (out: SimpleSignal)
    ensures out == SimpleSignalOf(data)
  {
    var score := 0;
    var reasons: seq<Reason> := [];

    if data.buySellRatio > 1.3 {
      score := score + 2;
      reasons := reasons + [BuyersStrong];
    } else if data.buySellRatio < 0.7 {
      score := score - 2;
      reasons := reasons + [SellersPressing];
    }
    assert score == SignalBuySellTerm(data.buySellRatio);
    assert reasons == BuySellReason(data.buySellRatio);

    if data.orderbookRatio > 1.3 {
      score := score + 1;
      reasons := reasons + [BookBidsHeavy];
    } else if data.orderbookRatio < 0.7 {
      score := score - 1;
      reasons := reasons + [BookAsksHeavy];
    }
    assert reasons == BuySellReason(data.buySellRatio) + OrderbookReason(data.orderbookRatio);

    if data.netFlow > 100.0 {
      score := score + 2;
      reasons := reasons + [LargeOutflow(data.netFlow)];
    } else if data.netFlow < -100.0 {
      score := score - 2;
      reasons := reasons + [LargeInflow(Abs(data.netFlow))];
    }
    assert reasons == BuySellReason(data.buySellRatio) + OrderbookReason(data.orderbookRatio)
                      + NetFlowReason(data.netFlow);

    if data.priceTrend == Rising {
      score := score + 1;
      reasons := reasons + [TrendUp];
    } else if data.priceTrend == Falling {
      score := score - 1;
      reasons := reasons + [TrendDown];
    }

    var action: Action;
    if score >= 3 {
      action := Buy;
    } else if score <= -3 {
      action := Sell;
    } else {
      action := Hold;
    }
    out := SimpleSignal(action, score, reasons);
  }

  /** One reason per ladder term that moved the score, none for a term that
      stayed at zero, in the order the ladders are read. */
  lemma SimpleSignalReasonsOrdered(data: MarketData)
    ensures var reasons := SimpleSignalOf(data).reasons;
      && |reasons| == NonZeroTerms(data)
      && forall i, j :: 0 <= i < j < |reasons| ==>
           ReasonDimension(reasons[i]) < ReasonDimension(reasons[j])
  {
    var buySell := BuySellReason(data.buySellRatio);
    var book := OrderbookReason(data.orderbookRatio);
    var flow := NetFlowReason(data.netFlow);
    var trend := TrendReason(data.priceTrend);
    AppendPart(buySell, book, ReasonDimension, 1);
    AppendPart(buySell + book, flow, ReasonDimension, 2);
    AppendPart(buySell + book + flow, trend, ReasonDimension, 3);
  }

  /** The buy/sell and order-book reasons are listed exactly when their
      thresholds are passed. */
  lemma SimpleSignalMarketReasons(data: MarketData)
    ensures var reasons := SimpleSignalOf(data).reasons;
      && (BuyersStrong in reasons <==> data.buySellRatio > 1.3)
      && (SellersPressing in reasons <==> data.buySellRatio < 0.7)
      && (BookBidsHeavy in reasons <==> data.orderbookRatio > 1.3)
      && (BookAsksHeavy in reasons <==> data.orderbookRatio < 0.7)
  {
    MemberOfParts(BuySellReason(data.buySellRatio), OrderbookReason(data.orderbookRatio),
                  NetFlowReason(data.netFlow), TrendReason(data.priceTrend), ReasonDimension);
  }

  /** The net-flow and trend reasons are listed exactly when their thresholds
      are passed. */
  lemma SimpleSignalFlowTrendReasons(data: MarketData)
    ensures var reasons := SimpleSignalOf(data).reasons;
      && (LargeOutflow(data.netFlow) in reasons <==> data.netFlow > 100.0)
      && (LargeInflow(Abs(data.netFlow)) in reasons <==> data.netFlow < -100.0)
      && (TrendUp in reasons <==> data.priceTrend == Rising)
      && (TrendDown in reasons <==> data.priceTrend == Falling)
  {
    MemberOfParts(BuySellReason(data.buySellRatio), OrderbookReason(data.orderbookRatio),
                  NetFlowReason(data.netFlow), TrendReason(data.priceTrend), ReasonDimension);
  }
}
