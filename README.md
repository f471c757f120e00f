# Crypto market-data collector and analyzer: a Dafny model

This project models the computational core of a cryptocurrency market-data
collector and analyzer written in Python. It has five parts:

- **Indicators**: the technical-indicator engine. It computes EMA, MACD, RSI,
  ATR and Bollinger Bands over a chronological price window, and returns a
  fixed sentinel when the window is too short. Prices are `real`, so the
  recurrences are exact. Each loop of the source is a method proved equal to
  a specification function. The properties the source promises are lemmas
  about those functions: lengths, seeds, constant series, bounds, orderings
  and the trend rule.
- **AiAnalyzer**: the small rule engines of the single-symbol analyzer. These
  are the price-trend rule, the order-book and buy/sell ratios with their
  defaults, the funding rate in percent, the sentiment signals, and the
  score-based fallback signal with its reasons.
- **MultiAnalyzer**: the multi-symbol comparison. It scores each available
  symbol, sorts stably by descending score, and partitions the result into
  bullish, neutral and bearish classes.
- **BinanceCollector**: the market-data store as a class with one sequence
  per table. It has one method per message kind (trade, depth, kline, ticker
  poll) and the historical-kline backfill that its constructor runs.
- **OnchainCollector**: the Ethereum block monitor as a class with its four
  tables. It covers the large-transfer and exchange-flow classification of a
  transaction, the block and gas rows of a block, the `INSERT OR IGNORE`
  unique keys, and the `last_block` / `consecutive_errors` cursor of the
  polling loop.

`Common` holds the shared vocabulary: an `Option` type, sums of reals, and
ASCII lower-casing.

Network results are parameters. These are websocket messages, REST
responses, blocks, receipts and chain heights, with an explicit value for a
failure. Wall-clock timestamps are parameters too. Database tables are
sequences of rows in insertion order.

## Model

| member | source | states |
|---|---|---|
| Indicators.Ema | src/indicators/indicators.py:16-29 | the EMA series is empty when the input is shorter than the period; otherwise it has `len(prices) - period + 1` values and starts with the mean of the first `period` prices |
| Indicators.CalculateEma | src/indicators/indicators.py:12-31 | the loop returns exactly the EMA series |
| Indicators.EmaRecurrence | src/indicators/indicators.py:27-29 | every value after the seed is `prev + (price - prev) * 2/(period+1)`, applied to the price it belongs to |
| Indicators.EmaSnoc | src/indicators/indicators.py:27-29 | one more price extends the EMA of a prefix by exactly one recurrence step |
| Indicators.EmaPrefix | src/indicators/indicators.py:16-29 | the EMA of a prefix of the prices is a prefix of the EMA |
| Indicators.EmaOfConstant | src/indicators/indicators.py:20-29 | for a constant price series every EMA value equals that constant |
| Indicators.TrendOf | src/indicators/indicators.py:69-74 | bullish iff histogram > 0 and MACD > 0; bearish iff both < 0; neutral otherwise, so exactly one holds |
| Indicators.CalculateMacd | src/indicators/indicators.py:34-83 | returns the MACD value of the specification; the all-zero neutral sentinel for fewer than `slow + signal` prices; histogram = MACD - signal |
| Indicators.BuildMacdLine | src/indicators/indicators.py:50-54 | the loop builds the MACD line: the slow entry `i` paired with the fast entry at Python index `i + offset`, skipped when that index is past the end |
| Indicators.MacdLineEntries | src/indicators/indicators.py:51-54 | when no fast index runs past the end, the line has one entry per slow value and entry `i` is `ema_fast[i + offset] - ema_slow[i]` with negative-index wraparound |
| Indicators.MacdLineAsWritten | src/indicators/indicators.py:46-54 | with `fast < slow` the line has `len(ema_slow)` entries, and entry `i` uses fast position `len(ema_slow) + i` when `i + fast < slow`, else `i + fast - slow` |
| Indicators.MacdReportsLastEntry | src/indicators/indicators.py:56-66 | with `fast <= slow` and a long enough window, the second sentinel is never returned; MACD is the last line entry, the signal is the last EMA of the line, histogram is their difference |
| Indicators.AlignedMacdLine | src/indicators/indicators.py:49-54 | the corrected line: one entry per slow value, entry `i` being `ema_fast[i + slow - fast] - ema_slow[i]` |
| Indicators.AlignedMacdPairsSameWindow | src/indicators/indicators.py:49-54 | entry `i` of the corrected line is the fast EMA minus the slow EMA of the same price window `prices[:slow + i]` |
| Indicators.MacdMisalignedExample | src/indicators/indicators.py:52 | on the prices [0, 0, 3] with periods 1/2/1, the line built is [3, -2] where the aligned line is [0, 1], and the reported MACD is -2 |
| Indicators.WilderNonNegative | src/indicators/indicators.py:100-106 | the seeded and smoothed average of non-negative samples is non-negative |
| Indicators.WilderOfZeros | src/indicators/indicators.py:100-106 | the seeded and smoothed average of all-zero samples is zero |
| Indicators.Deltas | src/indicators/indicators.py:94 | one price change per consecutive pair |
| Indicators.Gains | src/indicators/indicators.py:96 | one non-negative gain per change |
| Indicators.Losses | src/indicators/indicators.py:97 | one non-negative loss per change |
| Indicators.CalculateRsi | src/indicators/indicators.py:86-114 | the loop returns the RSI of the specification: 50 for a short window, 100 without losses, else `100 - 100/(1 + gain/loss)` of the Wilder averages |
| Indicators.RsiBounds | src/indicators/indicators.py:90-112 | RSI is 50 for fewer than `period + 1` prices and always lies in [0, 100] |
| Indicators.RsiOfIncreasing | src/indicators/indicators.py:96-109 | a strictly increasing series of at least `period + 1` prices has RSI exactly 100 |
| Indicators.TrueRange | src/indicators/indicators.py:129-132 | the true range is the largest of high-low, abs(high-prev close) and abs(low-prev close), and equals one of them |
| Indicators.TrueRanges | src/indicators/indicators.py:127-133 | one true range per close after the first, from that bar's high/low and the previous close |
| Indicators.BuildTrueRanges | src/indicators/indicators.py:127-133 | the loop collects exactly the true ranges, one per close after the first |
| Indicators.WilderAverage | src/indicators/indicators.py:139-143 | the seeded smoothing loop returns the Wilder average of the samples |
| Indicators.CalculateAtr | src/indicators/indicators.py:117-145 | the loops return the ATR of the specification: 0 for a short window or too few true ranges, else the Wilder average of the true ranges |
| Indicators.AtrNonNegative | src/indicators/indicators.py:124-143 | ATR is 0 for fewer than `period + 1` highs and is never negative |
| Indicators.BollingerBands | src/indicators/indicators.py:148-190 | sentinel for a short window; otherwise middle is the mean of the last `period` prices, upper/lower are middle ± std_dev · sqrt(variance), the width and current price are set, and the position is exactly the first of above-upper, below-lower, above-middle, below-middle that applies |
| Indicators.VarianceNonNegative | src/indicators/indicators.py:162 | the population variance of the window is non-negative |
| Indicators.BandsOrdered | src/indicators/indicators.py:159-167 | with a non-negative multiplier and a non-negative square root, lower <= middle <= upper |
| Indicators.Closes | src/indicators/indicators.py:210 | the close prices are column 4 of each kline, in order |
| Indicators.Highs | src/indicators/indicators.py:211 | the high prices are column 2 of each kline, in order |
| Indicators.Lows | src/indicators/indicators.py:212 | the low prices are column 3 of each kline, in order |
| Indicators.CalculateAllIndicators | src/indicators/indicators.py:193-229 | under 26 klines: unavailable, EMA 0, RSI 50, ATR 0, empty MACD and bands; otherwise available, with the last EMA(12) and EMA(26) of the closes, MACD 12/26/9, RSI 14, ATR 14 and Bollinger 20/2 |
| Indicators.AllIndicatorsInRange | src/indicators/indicators.py:198-229 | for at least 26 klines the reported RSI is in [0, 100] and the ATR is non-negative |
| AiAnalyzer.PriceTrendOf | src/analyzers/ai_analyzer.py:181-188 | stable with fewer than two closes; otherwise rising iff latest > older · 1.005, falling iff not rising and latest < older · 0.995 |
| AiAnalyzer.PriceTrendBands | src/analyzers/ai_analyzer.py:181-188 | for a non-negative oldest close, falling iff latest < older · 0.995 and stable iff latest is within the band |
| AiAnalyzer.OrderbookRatio | src/analyzers/ai_analyzer.py:83-92 | total bid size over total ask size; 1.0 without a snapshot, on a parse failure, or when the ask total is not positive |
| AiAnalyzer.OrderbookRatioNonNegative | src/analyzers/ai_analyzer.py:88-90 | with non-negative bid sizes the ratio is never negative, and it is 1.0 when the bid total equals a positive ask total |
| AiAnalyzer.BuySellRatio | src/analyzers/ai_analyzer.py:196 | buy/sell when the sell volume is present and positive (ratio · sell = buy), else 0 |
| AiAnalyzer.FundingRatePercent | src/analyzers/ai_analyzer.py:213 | the stored rate times 100, or 0 without a row |
| AiAnalyzer.BuySellSentiment | src/analyzers/ai_analyzer.py:260-263 | at most one buy/sell signal: strong buying iff ratio > 1.2, heavy selling iff ratio < 0.8 |
| AiAnalyzer.BookSentiment | src/analyzers/ai_analyzer.py:265-268 | at most one order-book signal: bids thick iff ratio > 1.3, asks thick iff ratio < 0.7 |
| AiAnalyzer.FlowSentiment | src/analyzers/ai_analyzer.py:270-273 | at most one net-flow signal: outflow iff net flow > 100, inflow iff net flow < -100 |
| AiAnalyzer.SentimentOf | src/analyzers/ai_analyzer.py:259-273 | the signals are the three dimensions' signals in order: at most three, at most one per dimension, in dimension order |
| AiAnalyzer.SentimentSignals | src/analyzers/ai_analyzer.py:259-273 | the appends build exactly the sentiment signals of the specification |
| AiAnalyzer.SentimentSignalsListed | src/analyzers/ai_analyzer.py:259-273 | each of the six signals is listed iff its threshold is passed |
| AiAnalyzer.BuySellReason | src/analyzers/ai_analyzer.py:445-450 | one reason iff the buy/sell term is nonzero: buyers strong iff ratio > 1.3, sellers pressing iff ratio < 0.7 |
| AiAnalyzer.OrderbookReason | src/analyzers/ai_analyzer.py:453-458 | one reason iff the order-book term is nonzero: bids heavy iff ratio > 1.3, asks heavy iff ratio < 0.7 |
| AiAnalyzer.NetFlowReason | src/analyzers/ai_analyzer.py:461-466 | one reason iff the net-flow term is nonzero: outflow with the amount iff net flow > 100, inflow with its absolute value iff net flow < -100 |
| AiAnalyzer.TrendReason | src/analyzers/ai_analyzer.py:469-474 | one reason iff the trend term is nonzero: up iff rising, down iff falling |
| AiAnalyzer.ActionOf | src/analyzers/ai_analyzer.py:477-482 | buy iff score >= 3, sell iff score <= -3, hold iff in between |
| AiAnalyzer.SimpleSignalOf | src/analyzers/ai_analyzer.py:441-482 | the score is the sum of the four ladder terms and lies in [-6, 6]; buy/sell/hold by the thresholds; the reasons are the four ladders' reasons in order |
| AiAnalyzer.GenerateSimpleSignal | src/analyzers/ai_analyzer.py:439-482 | the sequential ifs compute exactly the signal of the specification |
| AiAnalyzer.SimpleSignalReasonsOrdered | src/analyzers/ai_analyzer.py:445-474 | the number of reasons equals the number of nonzero terms, and they come in ladder order |
| AiAnalyzer.SimpleSignalMarketReasons | src/analyzers/ai_analyzer.py:445-458 | each buy/sell and order-book reason is listed iff its threshold is passed |
| AiAnalyzer.SimpleSignalFlowTrendReasons | src/analyzers/ai_analyzer.py:461-474 | each net-flow and trend reason is listed iff its threshold is passed |
| MultiAnalyzer.CompareBuySellTerm | src/analyzers/multi_analyzer.py:107-114 | the buy/sell term is 2, 1, 0, -1 or -2 exactly on the bands > 1.3, (1.1, 1.3], [0.9, 1.1], [0.7, 0.9), < 0.7 |
| MultiAnalyzer.PriceChangeTerm | src/analyzers/multi_analyzer.py:129-136 | the 24-hour change term is 2, 1, 0, -1 or -2 exactly on the bands > 5, (2, 5], [-2, 2], [-5, -2), < -5 |
| MultiAnalyzer.SymbolScore | src/analyzers/multi_analyzer.py:104-136 | the score lies in [-6, 6]; it is 6 iff all four ladders are at their top, -6 iff all are at their bottom |
| MultiAnalyzer.ScoreSymbol | src/analyzers/multi_analyzer.py:104-136 | the score updates compute exactly the symbol score |
| MultiAnalyzer.CollectedCount | src/analyzers/multi_analyzer.py:96-98 | unavailable results are skipped: one entry per available result |
| MultiAnalyzer.CollectedMembers | src/analyzers/multi_analyzer.py:96-147 | every available result contributes its scored entry, and every entry comes from an available result |
| MultiAnalyzer.Insert | src/analyzers/multi_analyzer.py:150 | insertion into the sorted prefix adds exactly one element |
| MultiAnalyzer.SortByScore | src/analyzers/multi_analyzer.py:150 | the sort keeps the length |
| MultiAnalyzer.InsertSorted | src/analyzers/multi_analyzer.py:150 | insertion keeps the order by non-increasing score and adds exactly the new element |
| MultiAnalyzer.InsertMultiset | src/analyzers/multi_analyzer.py:150 | insertion adds the new element to the multiset and nothing else |
| MultiAnalyzer.InsertWithScore | src/analyzers/multi_analyzer.py:150 | insertion keeps the entries of each score in their order |
| MultiAnalyzer.SortByScoreSorted | src/analyzers/multi_analyzer.py:150 | the sorted comparison has non-increasing scores |
| MultiAnalyzer.SortByScorePermutation | src/analyzers/multi_analyzer.py:150 | the sorted comparison is a permutation of its input |
| MultiAnalyzer.SortByScoreStable | src/analyzers/multi_analyzer.py:150 | entries of equal score keep their original order |
| MultiAnalyzer.CompareSymbols | src/analyzers/multi_analyzer.py:88-166 | the comparison is the stable descending sort of the collected entries, one per available result |
| MultiAnalyzer.Bullish | src/analyzers/multi_analyzer.py:179 | the bullish class is no longer than the comparison |
| MultiAnalyzer.Neutral | src/analyzers/multi_analyzer.py:180 | the neutral class is no longer than the comparison |
| MultiAnalyzer.Bearish | src/analyzers/multi_analyzer.py:181 | the bearish class is no longer than the comparison |
| MultiAnalyzer.ClassMembers | src/analyzers/multi_analyzer.py:179-181 | each class holds exactly the entries of its band: >= 3, (-2, 3), <= -2 |
| MultiAnalyzer.PortfolioAdvice | src/analyzers/multi_analyzer.py:168-215 | no advice iff the comparison is empty; otherwise the three classes, the first two bullish entries to focus on, a heavy/medium allocation iff there are at least two bullish entries, the bearish entries to avoid, and wait-and-see iff there is neither a bullish nor a bearish entry |
| MultiAnalyzer.PartitionCovers | src/analyzers/multi_analyzer.py:179-181 | the three classes are disjoint and together hold every entry, counted with multiplicity |
| MultiAnalyzer.PartitionCoversStep | src/analyzers/multi_analyzer.py:179-181 | one more entry lands in exactly one class |
| MultiAnalyzer.AllBullish | src/analyzers/multi_analyzer.py:179-181 | a comparison of scores >= 3 is all bullish, with empty neutral and bearish classes |
| MultiAnalyzer.NoneBearish | src/analyzers/multi_analyzer.py:181 | a comparison of scores > -2 has no bearish entry |
| MultiAnalyzer.SortedPartitionIsSplit | src/analyzers/multi_analyzer.py:150-181 | on the sorted comparison the classes are consecutive: bullish, then neutral, then bearish |
| MultiAnalyzer.SortedClassesSorted | src/analyzers/multi_analyzer.py:150-181 | each class keeps the descending order of the sorted comparison |
| MultiAnalyzer.AdviceOfComparison | src/analyzers/multi_analyzer.py:88-215 | after compare_symbols there is advice iff some result was available, and the comparison is the three classes in order, each sorted |
| BinanceCollector.TradeIdOf | binance_collector.py:196 | the trade id is `a` if present, else `t` if present, else 0 |
| BinanceCollector.TradeRowOf | binance_collector.py:183-197 | a row iff `T`, `p`, `q` and `m` all convert; it carries the symbol, time, price, quantity, the maker flag (1 iff `m`) and the trade id |
| BinanceCollector.OrderBookRowOf | binance_collector.py:226-241 | nothing iff bids or asks are empty or missing; otherwise the first (at most) 20 levels of each side, in received order |
| BinanceCollector.KlineMessageRow | binance_collector.py:275-288 | a row iff the kline is closed and its fields convert, tagged with the stream's interval |
| BinanceCollector.KlineInsertIsNotUpsert | binance_collector.py:279-288 | storing the same closed kline twice leaves two identical rows with the same open time and interval |
| BinanceCollector.Limit | binance_collector.py:115-123 | 365 klines for `1d`, 500 for every other interval |
| BinanceCollector.BackfillAllConverted | binance_collector.py:141-166 | when every kline converts, one row per kline, in received order, tagged with the interval |
| BinanceCollector.BackfillRowsTagged | binance_collector.py:145-164 | no more rows than klines, each tagged with the symbol and interval |
| BinanceCollector.IntervalRows | binance_collector.py:136-175 | no rows unless the response has status 200 and a JSON body; otherwise the rows of its klines |
| BinanceCollector.BackfillAllStep | binance_collector.py:127-175 | one more interval appends that interval's rows after the earlier ones |
| BinanceCollector.BackfillSkipsFailedInterval | binance_collector.py:138-175 | an interval that yields no rows (request raised, non-200 status or a body that is not JSON) adds nothing wherever it sits in the list, and the intervals before and after it contribute exactly their own rows |
| BinanceCollector.BackfillAllAppend | binance_collector.py:127-175 | the rows of earlier intervals come before the rows of later ones |
| BinanceCollector.TickerRowOf | binance_collector.py:318-339 | a row iff status 200 with a converting body; it carries the symbol, time and every converted field |
| BinanceCollector.BinanceStore.constructor | binance_collector.py:11-16 | the symbol is lower-cased, trades/order book/ticker start empty, and the klines are the backfill of the fixed intervals |
| BinanceCollector.BinanceStore.FetchHistoricalKlines | binance_collector.py:110-177 | appends the backfill rows of the seven intervals; other tables unchanged |
| BinanceCollector.BinanceStore.BackfillIntervals | binance_collector.py:127-175 | appends, interval by interval, the rows of each response; other tables unchanged |
| BinanceCollector.BinanceStore.BackfillInterval | binance_collector.py:128-175 | appends the rows of one response, nothing for a failed one; other tables unchanged |
| BinanceCollector.BinanceStore.InsertKlines | binance_collector.py:141-166 | appends the rows of the klines up to the first that does not convert; other tables unchanged |
| BinanceCollector.BinanceStore.OnTradeMessage | binance_collector.py:181-201 | appends the trade row, if any, to the trades table; other tables unchanged |
| BinanceCollector.BinanceStore.OnDepthMessage | binance_collector.py:222-251 | appends the snapshot, if any, to the order-book table; other tables unchanged |
| BinanceCollector.BinanceStore.OnKlineMessage | binance_collector.py:272-291 | appends the closed kline's row, if any; other tables unchanged |
| BinanceCollector.BinanceStore.PollTicker | binance_collector.py:315-342 | appends the ticker row, if any; other tables unchanged |
| OnchainCollector.InsertLargeTransferUnique | src/collectors/onchain_collector.py:63 | the insert adds the row iff its hash is new, keeps hashes unique, and afterwards the hash is present |
| OnchainCollector.InsertBlockRowUnique | src/collectors/onchain_collector.py:100 | the insert adds the row iff its block number is new, keeps block numbers unique, and afterwards the number is present |
| OnchainCollector.FlowRows | src/collectors/onchain_collector.py:248-265 | at most one flow row per exchange |
| OnchainCollector.FlowRowsMembers | src/collectors/onchain_collector.py:248-265 | a row is written iff some exchange of the table contributes it |
| OnchainCollector.ExchangeFlowRows | src/collectors/onchain_collector.py:244-265 | inflow for each exchange whose wallet is the recipient, outflow for each other exchange whose wallet is the sender, each with the ETH amount and hash, compared in lower case; no other rows |
| OnchainCollector.TxAppliedLargeTransfers | src/collectors/onchain_collector.py:214-240 | a zero-value transaction writes nothing; gas and block tables are untouched; hashes stay unique; the hash is present afterwards iff it was before or the value exceeds 50 ETH; a new large transfer is appended |
| OnchainCollector.TxAppliedExchangeFlow | src/collectors/onchain_collector.py:236-265 | flow rows are appended only with a recipient; a contract creation writes no flow rows and its transfer row names "Contract Creation" |
| OnchainCollector.TxsAppliedKeepsValid | src/collectors/onchain_collector.py:202-206 | processing the transactions of a block keeps hashes unique and leaves gas and block tables unchanged |
| OnchainCollector.GasTotalZero | src/collectors/onchain_collector.py:182-185 | the gas total is 0 iff no transaction has a present, non-zero gas price |
| OnchainCollector.AverageGasOfBlock | src/collectors/onchain_collector.py:182-194 | the stored average is non-negative, times 10^9 times the transaction count it is the total in wei, and it is 0 iff no transaction has a gas price |
| OnchainCollector.BlockAppliedTables | src/collectors/onchain_collector.py:155-208 | block numbers stay unique and the fetched block is recorded; a failed fetch or an escaping error writes nothing; an empty block adds only its block row; otherwise one gas row is appended |
| OnchainCollector.AfterError | src/collectors/onchain_collector.py:134-153 | an error keeps the cursor's block, raises the count by one, and resets it to 0 once it reaches 5, so it stays below 5 |
| OnchainCollector.CatchUpCursor | src/collectors/onchain_collector.py:128-141 | the cursor never moves back nor past the chain height; every block it passes returned from process_block; stopping short means the next block raised; a full catch-up clears the error count; the count stays below 5; unique keys hold |
| OnchainCollector.FetchFailedAdvances | src/collectors/onchain_collector.py:129-133 | a block whose fetch fails advances the cursor and writes no row |
| OnchainCollector.RunInvariant | src/collectors/onchain_collector.py:121-153 | at the top of every poll the error count is below 5, the cursor has not moved back, and unique keys hold |
| OnchainCollector.RunMonotone | src/collectors/onchain_collector.py:124-153 | later polls never move the cursor back |
| OnchainCollector.TotalGasPrice | src/collectors/onchain_collector.py:182-185 | the loop sums the present, non-zero gas prices; the total is 0 iff there is none |
| OnchainCollector.OnchainStore.constructor | src/collectors/onchain_collector.py:37-52 | the tables start empty and the exchange table is the fixed list of 14 wallets |
| OnchainCollector.OnchainStore.ProcessTransaction | src/collectors/onchain_collector.py:210-265 | the tables become what the transaction specification writes; unique keys hold |
| OnchainCollector.OnchainStore.RecordFlows | src/collectors/onchain_collector.py:248-265 | the loop appends the flow rows of the exchange table in order; other tables unchanged |
| OnchainCollector.OnchainStore.RecordFlow | src/collectors/onchain_collector.py:249-265 | one exchange: inflow if it is the recipient, else outflow if it is the sender, else nothing |
| OnchainCollector.OnchainStore.ProcessBlock | src/collectors/onchain_collector.py:155-208 | reports an escaping error exactly when one occurs; the tables become what the block specification writes; unique keys hold |
| OnchainCollector.OnchainStore.ProcessTransactions | src/collectors/onchain_collector.py:202-206 | the transactions are processed in order; unique keys hold |
| OnchainCollector.OnchainStore.CatchUpBlocks | src/collectors/onchain_collector.py:128-141 | tables and cursor after the inner loop are the catch-up of the specification |
| OnchainCollector.OnchainStore.MonitorBlocks | src/collectors/onchain_collector.py:110-153 | returns at once, writing nothing, when the start height cannot be read; otherwise the tables and cursor are the run of the given polls from `height - 1` with no errors |

## Left out

- Network I/O is not modelled: websocket sessions and their reconnects, REST requests, and web3 RPC. Their results are parameters.
- Threads, the lock, sleeps and wall-clock time are not modelled. Timestamps are parameters.
- SQL semantics are not modelled. Tables are sequences of rows that start empty; persistence across runs, schema migrations and the commit points are left out.
- Floating point is replaced by exact `real` arithmetic. `round(...)`, `float(...)` of web3's `from_wei` are not modelled.
- Indicators.BollingerBands: the square root `variance ** 0.5` is an abstract function parameter, so the bands are stated in terms of it.
- Common.Lower: lower-cases ASCII letters only. Python's `str.lower` also folds non-ASCII letters, which Ethereum addresses and Binance symbols do not contain.
- Indicators.CalculateAtr: requires the high and low lists to be at least as long as the closes. The source raises `IndexError` otherwise, and no caller passes such lists.
- Indicators.Ema: requires a period of at least 1, as do the other indicators; the source divides by the period.
- Indicators.CalculateAllIndicators: the `{}` result for a missing MACD or Bollinger dictionary is `None`. The default periods are fixed, as in the call sites.
- AiAnalyzer.GenerateSimpleSignal: returns the action, score and reasons, not the formatted text. The net-flow reasons carry the amount but not the `:.0f` formatting or the symbol name.
- The prompt building and the LLM call of `analyze_with_lm_studio` are text and network; only its sentiment signals are modelled.
- The SQL queries of `get_recent_data` are not modelled; their results are parameters of the rule engines.
- MultiAnalyzer.SortByScore: models `list.sort(key=score, reverse=True)` as a pure stable insertion sort applied to the collected list, not as an in-place sort.
- The printed tables of compare_symbols and generate_portfolio_advice are not modelled; the advice is returned as a value instead.
- `analyze_all_symbols` and the other methods of the multi-symbol analyzer are SQL, printing and network; they are not part of this model.
- BinanceCollector.BinanceStore.InsertKlines: a kline that fails to convert ends the insert loop with earlier rows kept. The uncommitted transaction that SQLite commits later is not modelled.
- The printed order-book ratio of `collect_orderbook` is output only and is not modelled.
- OnchainCollector.OnchainStore.ProcessBlock: an error that escapes process_block (`Raised`) is modelled as writing nothing. The source may have written the block row or the gas row into the uncommitted transaction before the error.
- OnchainCollector.OnchainStore.ProcessTransactions: an exception inside one transaction, which the source catches and logs, is not modelled. Each transaction is processed fully.
- OnchainCollector.OnchainStore.MonitorBlocks: the `while True` loop runs over a finite sequence of polls. A poll is the chain height read, or `None` when that read fails. The outcome of each block is a function of the poll number and block number.
- `get_exchange_balances` and the Etherscan key are output-only and network; they are not part of this model.
- The source on candles: an upsert by `(symbol, interval, open_time)` would be expected for candles, but the code issues a plain `INSERT`. The model follows the code (BinanceCollector.KlineInsertIsNotUpsert).

## Findings

| source | as written | input that shows it | evidently intended | confidence | as-written member | corrected member |
|---|---|---|---|---|---|---|
| src/indicators/indicators.py:52 | `fast_idx = i + (fast_period - slow_period)` counts the fast EMA from its start. The fast EMA starts `slow - fast` prices earlier than the slow one, so this pairs each slow EMA with a fast EMA of an earlier window. For `i < slow - fast` the index is negative and wraps to the end of the fast series. | prices [0, 0, 3] with fast 1, slow 2, signal 1: the line built is [3, -2] and the reported MACD is -2, while the aligned line, which pairs EMAs of the same window, is [0, 1]. | `fast_idx = i + (slow_period - fast_period)`: each slow EMA minus the fast EMA of the same window | not executed | Indicators.MacdMisalignedExample | Indicators.AlignedMacdPairsSameWindow |

CalculateMacd and CalculateAllIndicators keep the alignment as written, because that is what the program reports. Indicators.AlignedMacdLine is the corrected line, and Indicators.AlignedMacdPairsSameWindow proves that it pairs EMAs of the same window.
