/**
 * The multi-symbol comparison of src/analyzers/multi_analyzer.py: the
 * per-symbol score of compare_symbols, the stable descending sort of the
 * comparison, and the bullish / neutral / bearish partition of
 * generate_portfolio_advice.
 *
 * The `results` dictionary is a sequence of (symbol, result) pairs in the
 * dictionary's insertion order, which is the order Python iterates it in.
 */
module MultiAnalyzer {
  import opened Common
  import opened AiAnalyzer

  /** One value of the `results` dictionary: either not available, or the
      market data of the symbol and its display name. */
  datatype SymbolResult = Unavailable | Available(data: MarketData, symbolName: string)

  /** One dictionary appended to `comparison`. */
  datatype Entry = Entry(
    symbol: string,
    symbolName: string,
    score: int,
    price: real,
    change24h: real,
    buySellRatio: real,
    priceTrend: PriceTrend,
    volume24h: real)

  // ---------------------------------------------------------------------------
  // Scoring
  // ---------------------------------------------------------------------------

  /** The five-step buy/sell ladder, tested in the order >1.3, <0.7, >1.1, <0.9
      (src/analyzers/multi_analyzer.py:107-114); stated here as the band each
      value falls in. */
  function CompareBuySellTerm(ratio: real): (t: int)
    ensures t == 2 <==> ratio > 1.3
    ensures t == 1 <==> 1.1 < ratio <= 1.3
    ensures t == 0 <==> 0.9 <= ratio <= 1.1
    ensures t == -1 <==> 0.7 <= ratio < 0.9
    ensures t == -2 <==> ratio < 0.7
  {
    if ratio > 1.3 then 2
    else if ratio < 0.7 then -2
    else if ratio > 1.1 then 1
    else if ratio < 0.9 then -1
    else 0
  }

  /** The 24-hour change ladder, tested in the order >5, >2, <-5, <-2
      (src/analyzers/multi_analyzer.py:129-136). */
  function PriceChangeTerm(change: real): (t: int)
    ensures t == 2 <==> change > 5.0
    ensures t == 1 <==> 2.0 < change <= 5.0
    ensures t == 0 <==> -2.0 <= change <= 2.0
    ensures t == -1 <==> -5.0 <= change < -2.0
    ensures t == -2 <==> change < -5.0
  {
    if change > 5.0 then 2
    else if change > 2.0 then 1
    else if change < -5.0 then -2
    else if change < -2.0 then -1
    else 0
  }

  /** The composite score of one symbol: the sum of the buy/sell, order-book,
      trend and 24-hour change ladders (src/analyzers/multi_analyzer.py:104-136). */
  function SymbolScore(data: MarketData): (s: int)
    ensures -6 <= s <= 6
    ensures s == 6 <==> data.buySellRatio > 1.3 && data.orderbookRatio > 1.3
                        && data.priceTrend == Rising && data.priceChange24h > 5.0
    ensures s == -6 <==> data.buySellRatio < 0.7 && data.orderbookRatio < 0.7
                         && data.priceTrend == Falling && data.priceChange24h < -5.0
  {
    CompareBuySellTerm(data.buySellRatio) + OrderbookTerm(data.orderbookRatio)
    + TrendTerm(data.priceTrend) + PriceChangeTerm(data.priceChange24h)
  }

  function EntryOf(symbol: string, data: MarketData, symbolName: string): Entry
  {
    Entry(symbol, symbolName, SymbolScore(data), data.avgPrice, data.priceChange24h,
          data.buySellRatio, data.priceTrend, data.volume24h)
  }

  /** The comparison before sorting: one entry per available result, in
      iteration order. */
  function Collected(results: seq<(string, SymbolResult)>): seq<Entry>
  {
    if |results| == 0 then []
    else
      var (symbol, result) := results[|results| - 1];
      Collected(results[..|results| - 1])
      + match result
        case Unavailable => []
        case Available(data, name) => [EntryOf(symbol, data, name)]
  }

  function AvailableCount(results: seq<(string, SymbolResult)>): nat
  {
    if |results| == 0 then 0
    else AvailableCount(results[..|results| - 1]) + if results[|results| - 1].1.Available? then 1 else 0
  }

  /** Unavailable results are skipped: the comparison has exactly as many
      entries as there are available results (src/analyzers/multi_analyzer.py:96-98). */
  lemma {:induction false} CollectedCount(results: seq<(string, SymbolResult)>)
    ensures |Collected(results)| == AvailableCount(results)
  {
    if |results| > 0 {
      CollectedCount(results[..|results| - 1]);
    }
  }

  /** Every available result contributes its entry, scored from its data, and
      every entry comes from an available result (src/analyzers/multi_analyzer.py:96-147). */
  lemma {:induction false} CollectedMembers(results: seq<(string, SymbolResult)>)
    ensures forall i :: 0 <= i < |results| && results[i].1.Available? ==>
      EntryOf(results[i].0, results[i].1.data, results[i].1.symbolName) in Collected(results)
    ensures forall e :: e in Collected(results) ==>
      exists i :: && 0 <= i < |results| && results[i].1.Available?
                  && e == EntryOf(results[i].0, results[i].1.data, results[i].1.symbolName)
  {
    if |results| > 0 {
      var front := results[..|results| - 1];
      CollectedMembers(front);
      forall e | e in Collected(results)
        ensures exists i :: && 0 <= i < |results| && results[i].1.Available?
                            && e == EntryOf(results[i].0, results[i].1.data, results[i].1.symbolName)
      {
        if e in Collected(front) {
          var i :| && 0 <= i < |front| && front[i].1.Available?
                   && e == EntryOf(front[i].0, front[i].1.data, front[i].1.symbolName);
          assert results[i] == front[i];
        } else {
          assert results[|results| - 1].1.Available?;
        }
      }
      forall i | 0 <= i < |results| && results[i].1.Available?
        ensures EntryOf(results[i].0, results[i].1.data, results[i].1.symbolName) in Collected(results)
      {
        if i < |front| {
          assert results[i] == front[i];
        }
      }
    }
  }

  // ---------------------------------------------------------------------------
  // comparison.sort(key=score, reverse=True)
  // ---------------------------------------------------------------------------

  predicate SortedByScore(s: seq<Entry>)
  {
    forall i, j :: 0 <= i < j < |s| ==> s[i].score >= s[j].score
  }

  /** Inserts `x`, which came after every element of `t` in the input, behind
      all elements whose score is at least its own. */
  function Insert(t: seq<Entry>, x: Entry): (r: seq<Entry>)
    ensures |r| == |t| + 1
  {
    if |t| == 0 then [x]
    else if t[|t| - 1].score >= x.score then t + [x]
    else Insert(t[..|t| - 1], x) + [t[|t| - 1]]
  }

  /** A stable sort by descending score: Python's list.sort with reverse=True
      keeps elements of equal score in their original order. */
  function SortByScore(s: seq<Entry>): (r: seq<Entry>)
    ensures |r| == |s|
  {
    if |s| == 0 then [] else Insert(SortByScore(s[..|s| - 1]), s[|s| - 1])
  }

  /** The entries of one score, in order. */
  function WithScore(s: seq<Entry>, v: int): seq<Entry>
  {
    if |s| == 0 then []
    else WithScore(s[..|s| - 1], v) + if s[|s| - 1].score == v then [s[|s| - 1]] else []
  }

  lemma {:induction false} InsertSorted(t: seq<Entry>, x: Entry)
    requires SortedByScore(t)
    ensures SortedByScore(Insert(t, x))
    ensures forall e :: e in Insert(t, x) <==> e in t || e == x
  {
    if |t| > 0 && t[|t| - 1].score < x.score {
      var front := t[..|t| - 1];
      InsertSorted(front, x);
      var r := Insert(front, x);
      forall e | e in r ensures e.score >= t[|t| - 1].score {
        if e != x {
          var k :| 0 <= k < |front| && front[k] == e;
        }
      }
    }
  }

  lemma {:induction false} InsertMultiset(t: seq<Entry>, x: Entry)
    ensures multiset(Insert(t, x)) == multiset(t) + multiset{x}
  {
    if |t| > 0 && t[|t| - 1].score < x.score {
      var front := t[..|t| - 1];
      InsertMultiset(front, x);
      MultisetOfSnoc(t);
    }
  }

  /** Insertion moves `x` only past entries of strictly smaller score, so the
      entries of each score keep their order. */
  lemma {:induction false} InsertWithScore(t: seq<Entry>, x: Entry, v: int)
    ensures WithScore(Insert(t, x), v) == WithScore(t, v) + if x.score == v then [x] else []
  {
    if |t| == 0 {
      assert Insert(t, x) == [] + [x];
    } else if t[|t| - 1].score >= x.score {
      assert (t + [x])[..|t|] == t;
    } else {
      var front := t[..|t| - 1];
      var last := t[|t| - 1];
      InsertWithScore(front, x, v);
      assert (Insert(front, x) + [last])[..|t|] == Insert(front, x);
    }
  }

  /** The sorted comparison is ordered by non-increasing score. */
  lemma {:induction false} SortByScoreSorted(s: seq<Entry>)
    ensures SortedByScore(SortByScore(s))
  {
    if |s| > 0 {
      SortByScoreSorted(s[..|s| - 1]);
      InsertSorted(SortByScore(s[..|s| - 1]), s[|s| - 1]);
    }
  }

  /** The sorted comparison is a permutation of the collected one. */
  lemma {:induction false} SortByScorePermutation(s: seq<Entry>)
    ensures multiset(SortByScore(s)) == multiset(s)
  {
    if |s| > 0 {
      var front := s[..|s| - 1];
      SortByScorePermutation(front);
      InsertMultiset(SortByScore(front), s[|s| - 1]);
      MultisetOfSnoc(s);
    }
  }

  /** Equal scores keep their original order (the sort is stable). */
  lemma {:induction false} SortByScoreStable(s: seq<Entry>, v: int)
    ensures WithScore(SortByScore(s), v) == WithScore(s, v)
  {
    if |s| > 0 {
      var front := s[..|s| - 1];
      SortByScoreStable(front, v);
      InsertWithScore(SortByScore(front), s[|s| - 1], v);
    }
  }

  /** The score updates inside the loop of compare_symbols
      (src/analyzers/multi_analyzer.py:104-136). */
  method ScoreSymbol(data: MarketData) returns (score: int)
    ensures score == SymbolScore(data)
  {
    score := 0;

    if data.buySellRatio > 1.3 {
      score := score + 2;
    } else if data.buySellRatio < 0.7 {
      score := score - 2;
    } else if data.buySellRatio > 1.1 {
      score := score + 1;
    } else if data.buySellRatio < 0.9 {
      score := score - 1;
    }
    assert score == CompareBuySellTerm(data.buySellRatio);

    if data.orderbookRatio > 1.3 {
      score := score + 1;
    } else if data.orderbookRatio < 0.7 {
      score := score - 1;
    }
    assert score == CompareBuySellTerm(data.buySellRatio) + OrderbookTerm(data.orderbookRatio);

    if data.priceTrend == Rising {
      score := score + 1;
    } else if data.priceTrend == Falling {
      score := score - 1;
    }
    assert score == CompareBuySellTerm(data.buySellRatio) + OrderbookTerm(data.orderbookRatio)
                    + TrendTerm(data.priceTrend);

    if data.priceChange24h > 5.0 {
      score := score + 2;
    } else if data.priceChange24h > 2.0 {
      score := score + 1;
    } else if data.priceChange24h < -5.0 {
      score := score - 2;
    } else if data.priceChange24h < -2.0 {
      score := score - 1;
    }
  }

  /** compare_symbols (src/analyzers/multi_analyzer.py:88-166): one scored entry
      per available result, then a stable sort by descending score. */
  method CompareSymbols(results: seq<(string, SymbolResult)>) returns (comparison: seq<Entry>)
    ensures comparison == SortByScore(Collected(results))
    ensures |comparison| == AvailableCount(results)
  {
    comparison := [];
    for i := 0 to |results|
      invariant comparison == Collected(results[..i])
    {
      assert results[..i + 1][..i] == results[..i];
      var (symbol, result) := results[i];
      if result.Available? {
        var data := result.data;
        var score := ScoreSymbol(data);
        comparison := comparison + [Entry(symbol, result.symbolName, score, data.avgPrice,
                                          data.priceChange24h, data.buySellRatio,
                                          data.priceTrend, data.volume24h)];
      }
    }
    assert results[..|results|] == results;
    CollectedCount(results);
    comparison := SortByScore(comparison);
  }

  // ---------------------------------------------------------------------------
  // generate_portfolio_advice
  // ---------------------------------------------------------------------------

  /** `[c for c in comparison if c['score'] >= 3]` */
  function Bullish(s: seq<Entry>): (r: seq<Entry>)
    ensures |r| <= |s|
  {
    if |s| == 0 then []
    else Bullish(s[..|s| - 1]) + if s[|s| - 1].score >= 3 then [s[|s| - 1]] else []
  }

  /** `[c for c in comparison if -2 < c['score'] < 3]` */
  function Neutral(s: seq<Entry>): (r: seq<Entry>)
    ensures |r| <= |s|
  {
    if |s| == 0 then []
    else Neutral(s[..|s| - 1]) + if -2 < s[|s| - 1].score < 3 then [s[|s| - 1]] else []
  }

  /** `[c for c in comparison if c['score'] <= -2]` */
  function Bearish(s: seq<Entry>): (r: seq<Entry>)
    ensures |r| <= |s|
  {
    if |s| == 0 then []
    else Bearish(s[..|s| - 1]) + if s[|s| - 1].score <= -2 then [s[|s| - 1]] else []
  }

  /** Each class holds exactly the entries of its score band. */
  lemma {:induction false} ClassMembers(s: seq<Entry>)
    ensures forall e :: e in Bullish(s) <==> e in s && e.score >= 3
    ensures forall e :: e in Neutral(s) <==> e in s && -2 < e.score < 3
    ensures forall e :: e in Bearish(s) <==> e in s && e.score <= -2
  {
    if |s| > 0 {
      ClassMembers(s[..|s| - 1]);
      assert s == s[..|s| - 1] + [s[|s| - 1]];
    }
  }

  /** The advice printed from the three classes: the first two bullish symbols
      to focus on, a heavy/medium allocation when there are at least two, the
      bearish symbols to avoid, and wait-and-see when there is neither. */
  datatype Advice = Advice(
    bullish: seq<Entry>,
    neutral: seq<Entry>,
    bearish: seq<Entry>,
    focus: seq<Entry>,
    allocation: Option<(Entry, Entry)>,
    avoid: seq<Entry>,
    waitAndSee: bool)

  /** generate_portfolio_advice (src/analyzers/multi_analyzer.py:168-215): nothing
      for an empty comparison; otherwise the three classes and the
      recommendations drawn from them. */
  function PortfolioAdvice(comparison: seq<Entry>): (r: Option<Advice>)
    ensures r.None? <==> |comparison| == 0
    ensures r.Some? ==>
      && (forall e :: e in r.value.bullish <==> e in comparison && e.score >= 3)
      && (forall e :: e in r.value.neutral <==> e in comparison && -2 < e.score < 3)
      && (forall e :: e in r.value.bearish <==> e in comparison && e.score <= -2)
      && r.value.focus == r.value.bullish[..if |r.value.bullish| < 2 then |r.value.bullish| else 2]
      && (r.value.allocation.Some? <==> |r.value.bullish| > 1)
      && (r.value.allocation.Some? ==>
            r.value.allocation.value == (r.value.bullish[0], r.value.bullish[1]))
      && r.value.avoid == r.value.bearish
      && (r.value.waitAndSee <==> |r.value.bullish| == 0 && |r.value.bearish| == 0)
  {
    if |comparison| == 0 then None
    else
      var bullish := Bullish(comparison);
      var neutral := Neutral(comparison);
      var bearish := Bearish(comparison);
      ClassMembers(comparison);
      var focus := if |bullish| < 2 then bullish else bullish[..2];
      var allocation := if |bullish| > 1 then Some((bullish[0], bullish[1])) else None;
      Some(Advice(bullish, neutral, bearish, focus, allocation, bearish,
                  |bullish| == 0 && |bearish| == 0))
  }

  /** The three classes are disjoint and together hold every entry, as many
      times as it occurs. */
  lemma {:induction false} PartitionCovers(s: seq<Entry>)
    ensures multiset(Bullish(s)) + multiset(Neutral(s)) + multiset(Bearish(s)) == multiset(s)
    ensures |Bullish(s)| + |Neutral(s)| + |Bearish(s)| == |s|
  {
    if |s| > 0 {
      PartitionCovers(s[..|s| - 1]);
      PartitionCoversStep(s);
    }
  }

  /** One entry more lands in exactly one class. */
  lemma PartitionCoversStep(s: seq<Entry>)
    requires |s| > 0
    requires var front := s[..|s| - 1];
      multiset(Bullish(front)) + multiset(Neutral(front)) + multiset(Bearish(front)) == multiset(front)
    ensures multiset(Bullish(s)) + multiset(Neutral(s)) + multiset(Bearish(s)) == multiset(s)
  {
    BullishStep(s);
    NeutralStep(s);
    BearishStep(s);
    MultisetOfSnoc(s);
  }

  lemma BullishStep(s: seq<Entry>)
    requires |s| > 0
    ensures multiset(Bullish(s)) == multiset(Bullish(s[..|s| - 1]))
      + if s[|s| - 1].score >= 3 then multiset{s[|s| - 1]} else multiset{}
  {
    var last := s[|s| - 1];
    assert Bullish(s) == Bullish(s[..|s| - 1]) + if last.score >= 3 then [last] else [];
  }

  lemma NeutralStep(s: seq<Entry>)
    requires |s| > 0
    ensures multiset(Neutral(s)) == multiset(Neutral(s[..|s| - 1]))
      + if -2 < s[|s| - 1].score < 3 then multiset{s[|s| - 1]} else multiset{}
  {
    var last := s[|s| - 1];
    assert Neutral(s) == Neutral(s[..|s| - 1]) + if -2 < last.score < 3 then [last] else [];
  }

  lemma BearishStep(s: seq<Entry>)
    requires |s| > 0
    ensures multiset(Bearish(s)) == multiset(Bearish(s[..|s| - 1]))
      + if s[|s| - 1].score <= -2 then multiset{s[|s| - 1]} else multiset{}
  {
    var last := s[|s| - 1];
    assert Bearish(s) == Bearish(s[..|s| - 1]) + if last.score <= -2 then [last] else [];
  }

  lemma MultisetOfSnoc(s: seq<Entry>)
    requires |s| > 0
    ensures multiset(s) == multiset(s[..|s| - 1]) + multiset{s[|s| - 1]}
  {
    assert s == s[..|s| - 1] + [s[|s| - 1]];
  }

  lemma {:induction false} AllBullish(s: seq<Entry>)
    requires forall i :: 0 <= i < |s| ==> s[i].score >= 3
    ensures Bullish(s) == s && Neutral(s) == [] && Bearish(s) == []
  {
    if |s| > 0 {
      AllBullish(s[..|s| - 1]);
      assert s == s[..|s| - 1] + [s[|s| - 1]];
    }
  }

  lemma {:induction false} NoneBearish(s: seq<Entry>)
    requires forall i :: 0 <= i < |s| ==> s[i].score > -2
    ensures Bearish(s) == []
  {
    if |s| > 0 {
      NoneBearish(s[..|s| - 1]);
    }
  }

  /** On a comparison sorted by descending score the classes are consecutive:
      bullish first, then neutral, then bearish. */
  lemma {:induction false} SortedPartitionIsSplit(s: seq<Entry>)
    requires SortedByScore(s)
    ensures s == Bullish(s) + Neutral(s) + Bearish(s)
  {
    if |s| > 0 {
      var front := s[..|s| - 1];
      var last := s[|s| - 1];
      assert forall i :: 0 <= i < |front| ==> front[i].score >= last.score by {
        forall i | 0 <= i < |front| ensures front[i].score >= last.score {
          assert front[i] == s[i];
        }
      }
      if last.score >= 3 {
        AllBullish(front);
        SplitStepBullish(s);
      } else {
        assert SortedByScore(front) by {
          forall i, j | 0 <= i < j < |front| ensures front[i].score >= front[j].score {
            assert front[i] == s[i] && front[j] == s[j];
          }
        }
        SortedPartitionIsSplit(front);
        if last.score > -2 {
          NoneBearish(front);
          SplitStepNeutral(s);
        } else {
          SplitStepBearish(s);
        }
      }
    }
  }

  lemma SplitStepBullish(s: seq<Entry>)
    requires |s| > 0 && s[|s| - 1].score >= 3
    requires var front := s[..|s| - 1];
      Bullish(front) == front && Neutral(front) == [] && Bearish(front) == []
    ensures s == Bullish(s) + Neutral(s) + Bearish(s)
  {
    assert s == s[..|s| - 1] + [s[|s| - 1]];
  }

  lemma SplitStepNeutral(s: seq<Entry>)
    requires |s| > 0 && -2 < s[|s| - 1].score < 3
    requires var front := s[..|s| - 1];
      front == Bullish(front) + Neutral(front) + Bearish(front) && Bearish(front) == []
    ensures s == Bullish(s) + Neutral(s) + Bearish(s)
  {
    var front, last := s[..|s| - 1], s[|s| - 1];
    assert s == front + [last];
    assert Neutral(s) == Neutral(front) + [last];
    assert Bullish(s) + Neutral(s) == (Bullish(front) + Neutral(front)) + [last];
  }

  lemma SplitStepBearish(s: seq<Entry>)
    requires |s| > 0 && s[|s| - 1].score <= -2
    requires var front := s[..|s| - 1];
      front == Bullish(front) + Neutral(front) + Bearish(front)
    ensures s == Bullish(s) + Neutral(s) + Bearish(s)
  {
    var front, last := s[..|s| - 1], s[|s| - 1];
    assert s == front + [last];
    assert Bearish(s) == Bearish(front) + [last];
  }

  lemma SortedSlice(s: seq<Entry>, lo: int, hi: int)
    requires SortedByScore(s) && 0 <= lo <= hi <= |s|
    ensures SortedByScore(s[lo..hi])
  {
    assert forall i :: 0 <= i < hi - lo ==> s[lo..hi][i] == s[lo + i];
  }

  /** Each class keeps the descending order of a sorted comparison. */
  lemma SortedClassesSorted(s: seq<Entry>)
    requires SortedByScore(s)
    ensures SortedByScore(Bullish(s)) && SortedByScore(Neutral(s)) && SortedByScore(Bearish(s))
  {
    SortedPartitionIsSplit(s);
    var b, n := |Bullish(s)|, |Neutral(s)|;
    assert Bullish(s) == s[..b];
    assert Neutral(s) == s[b..b + n];
    assert Bearish(s) == s[b + n..];
    SortedSlice(s, 0, b);
    SortedSlice(s, b, b + n);
    SortedSlice(s, b + n, |s|);
  }

  /** The advice drawn from the output of compare_symbols: there is advice
      exactly when some result was available, the comparison is the bullish,
      neutral and bearish classes one after the other, and each class is in
      descending score order. */
  lemma AdviceOfComparison(results: seq<(string, SymbolResult)>)
    ensures var comparison := SortByScore(Collected(results));
      var advice := PortfolioAdvice(comparison);
      && (advice.Some? <==> AvailableCount(results) > 0)
      && (advice.Some? ==>
            && comparison == advice.value.bullish + advice.value.neutral + advice.value.bearish
            && SortedByScore(advice.value.bullish)
            && SortedByScore(advice.value.neutral)
            && SortedByScore(advice.value.bearish))
  {
    var comparison := SortByScore(Collected(results));
    CollectedCount(results);
    SortByScoreSorted(Collected(results));
    SortedPartitionIsSplit(comparison);
    SortedClassesSorted(comparison);
  }
}
