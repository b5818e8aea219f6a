/**
  The orchestrator's per-bar step: each incoming bar is appended to its
  symbol's bounded history, and once the history holds enough bars the
  divergence scorer runs over it with RSI values computed by the
  orchestrator's own copy of the RSI routine; a non-empty result is
  published as one batch.
 */
module Orchestrator {
  import opened Types
  import Indicators
  import opened DivergenceScorer

  /** The most bars kept per symbol. */
  const KeepBars: int := 50
  /** The fewest bars in a history before it is scored. */
  const ScoreFrom: int := 20
  const RsiPeriod: int := 14

  // ---------------------------------------------------------------------
  // Bounded history
  // ---------------------------------------------------------------------

  /** The last `n` elements of `s`, or all of `s` when it is shorter. */
  function LastN<T>(s: seq<T>, n: nat): (r: seq<T>)
    ensures |r| == if |s| <= n then |s| else n
    ensures forall k :: 0 <= k < |r| ==> r[k] == s[|s| - |r| + k]
  {
    if |s| <= n then s else s[|s| - n..]
  }

  /** The history after bar `c` arrives: appended, then trimmed to the newest 50 bars. */
  function AppendBar(h: seq<Candle>, c: Candle): (r: seq<Candle>)
    ensures |r| == if |h| + 1 <= KeepBars then |h| + 1 else KeepBars
    ensures r[|r| - 1] == c
    ensures |h| + 1 <= KeepBars ==> r[..|h|] == h
    ensures forall k :: 0 <= k < |r| - 1 ==> r[k] == h[|h| - |r| + 1 + k]
  {
    LastN(h + [c], KeepBars)
  }

  /** Trimming before or after appending gives the same history. */
  lemma AppendBarTrailing(s: seq<Candle>, c: Candle)
    ensures AppendBar(LastN(s, KeepBars), c) == LastN(s + [c], KeepBars)
  {
    var a, b := AppendBar(LastN(s, KeepBars), c), LastN(s + [c], KeepBars);
    assert |a| == |b|;
    forall k | 0 <= k < |a| ensures a[k] == b[k] {
      if k < |a| - 1 {
        assert b[k] == (s + [c])[|s| + 1 - |b| + k];
      }
    }
  }

  // ---------------------------------------------------------------------
  // The orchestrator's RSI routine
  // ---------------------------------------------------------------------

  /**
    The orchestrator's `calcRSI`, loop for loop: seed sums over the first
    `period` differences, then Wilder's update at each later index. It
    computes exactly `CalcRSI`.
   */
  method CalcRSICopy(closes: seq<real>, period: int) returns (rsi: seq<real>)
    requires period >= 1
    ensures rsi == Indicators.CalcRSI(closes, period)
  {
    var n := |closes|;
    rsi := seq(n, _ => 0.0);
    if n <= period {
      return;
    }
    var p := period as real;
    var gain, loss := SeedSums(closes, period);
    rsi := WilderLoop(closes, period, gain / p, loss / p);
  }

  /**
    The copy's second half: the first RSI value from the seed averages at
    index `period`, then Wilder's update at every later index.
   */
  method WilderLoop(closes: seq<real>, period: int, seedGain: real, seedLoss: real) returns (rsi: seq<real>)
    requires 1 <= period < |closes|
    requires Indicators.Averages(seedGain, seedLoss) == Indicators.WilderAverages(closes, period, period)
    ensures rsi == Indicators.CalcRSI(closes, period)
  {
    var n := |closes|;
    ghost var expected := Indicators.CalcRSI(closes, period);
    var avgGain, avgLoss := seedGain, seedLoss;
    var first := RsiValue(closes, period, period, avgGain, avgLoss);
    rsi := seq(n, _ => 0.0)[period := first];
    var i := period + 1;
    while i < n
      invariant period + 1 <= i <= n
      invariant |rsi| == n
      invariant Indicators.Averages(avgGain, avgLoss) == Indicators.WilderAverages(closes, period, i - 1)
      invariant forall j :: 0 <= j < i ==> rsi[j] == expected[j]
      invariant forall j :: i <= j < n ==> rsi[j] == 0.0
    {
      avgGain, avgLoss := WilderUpdate(closes, period, i, avgGain, avgLoss);
      var v := RsiValue(closes, period, i, avgGain, avgLoss);
      rsi := rsi[i := v];
      i := i + 1;
    }
  }

  /** The copy's RSI formula at index `i`: 100 without losses, else `100 - 100 / (1 + rs)`. */
  method RsiValue(closes: seq<real>, period: int, i: int, avgGain: real, avgLoss: real) returns (v: real)
    requires 1 <= period <= i < |closes|
    requires Indicators.Averages(avgGain, avgLoss) == Indicators.WilderAverages(closes, period, i)
    ensures v == Indicators.CalcRSI(closes, period)[i]
  {
    if avgLoss == 0.0 {
      v := 100.0;
    } else {
      var rs := avgGain / avgLoss;
      v := 100.0 - 100.0 / (1.0 + rs);
    }
  }

  /** The copy's first loop: total gain and total loss over the first `period` differences. */
  method SeedSums(closes: seq<real>, period: int) returns (gain: real, loss: real)
    requires 1 <= period < |closes|
    ensures gain == Indicators.SeedGain(closes, period)
    ensures loss == Indicators.SeedLoss(closes, period)
  {
    gain, loss := 0.0, 0.0;
    var i := 1;
    while i <= period
      invariant 1 <= i <= period + 1
      invariant gain == Indicators.SeedGain(closes, i - 1)
      invariant loss == Indicators.SeedLoss(closes, i - 1)
    {
      var diff := closes[i] - closes[i - 1];
      if diff > 0.0 {
        gain := gain + diff;
      } else {
        loss := loss - diff;
      }
      i := i + 1;
    }
  }

  /** One iteration of the copy's second loop: the averages at `i - 1` become those at `i`. */
  method WilderUpdate(closes: seq<real>, period: int, i: int, avgGain: real, avgLoss: real)
    returns (gain: real, loss: real)
    requires 1 <= period < i < |closes|
    requires Indicators.Averages(avgGain, avgLoss) == Indicators.WilderAverages(closes, period, i - 1)
    ensures Indicators.Averages(gain, loss) == Indicators.WilderAverages(closes, period, i)
  {
    var p := period as real;
    var diff := closes[i] - closes[i - 1];
    assert diff == Indicators.Diff(closes, i);
    if diff > 0.0 {
      SmoothStep(avgGain, diff, p);
      SmoothStep(avgLoss, 0.0, p);
      gain := (avgGain * (p - 1.0) + diff) / p;
      loss := (avgLoss * (p - 1.0)) / p;
    } else {
      SmoothStep(avgGain, 0.0, p);
      SmoothStep(avgLoss, -diff, p);
      gain := (avgGain * (p - 1.0)) / p;
      loss := (avgLoss * (p - 1.0) - diff) / p;
    }
  }

  /** The copy's update expressions are Wilder's smoothing step. */
  lemma SmoothStep(prior: real, x: real, p: real)
    requires p >= 1.0 && prior >= 0.0 && x >= 0.0
    ensures (prior * (p - 1.0) + x) / p == Indicators.Smooth(prior, x, p)
    ensures (prior * (p - 1.0) - (-x)) / p == Indicators.Smooth(prior, x, p)
    ensures x == 0.0 ==> (prior * (p - 1.0)) / p == Indicators.Smooth(prior, x, p)
  {
  }

  // ---------------------------------------------------------------------
  // The per-bar step
  // ---------------------------------------------------------------------

  /** The signals for a symbol's history: none below 20 bars, else the divergence scorer with RSI(14). */
  function ScoreHistory(symbol: string, h: seq<Candle>): (r: seq<Signal>)
    ensures |h| < ScoreFrom ==> r == []
    ensures |r| <= 1
  {
    if |h| < ScoreFrom then []
    else ScoreRSIDivergence(symbol, h, Indicators.CalcRSI(Closes(h), RsiPeriod))
  }

  /** The loop's state: the history per symbol and the batches handed to the publisher so far. */
  datatype State = State(histories: map<string, seq<Candle>>, published: seq<seq<Signal>>)

  const Initial: State := State(map[], [])

  /** The stored history of `symbol`, empty when none is stored. */
  function History(st: State, symbol: string): seq<Candle>
  {
    if symbol in st.histories then st.histories[symbol] else []
  }

  /**
    `h'` is history `h` after bar `c` arrived: at most 50 bars, ending with
    `c`, and before it the newest bars of `h`, in order.
   */
  predicate StoresBar(h: seq<Candle>, c: Candle, h': seq<Candle>)
  {
    && |h'| <= KeepBars
    && |h'| == (if |h| < KeepBars then |h| + 1 else KeepBars)
    && h'[|h'| - 1] == c
    && forall k :: 0 <= k < |h'| - 1 ==> h'[k] == h[|h| - |h'| + 1 + k]
  }

  /**
    `ps'` is the publish log `ps` after the publisher was handed `batch` if
    and only if it is non-empty: the earlier batches, then at most one new,
    non-empty batch, which is `batch`.
   */
  predicate Publishes(ps: seq<seq<Signal>>, batch: seq<Signal>, ps': seq<seq<Signal>>)
  {
    && |ps| <= |ps'| <= |ps| + 1
    && ps'[..|ps|] == ps
    && (|ps'| > |ps| ==> ps'[|ps|] != [] && ps'[|ps|] == batch)
    && (|ps'| == |ps| ==> batch == [])
  }

  /** Appending a bar stores it in the bounded history. */
  lemma AppendBarStores(h: seq<Candle>, c: Candle)
    ensures StoresBar(h, c, AppendBar(h, c))
  {
  }

  /** Handing over only a non-empty batch publishes it. */
  lemma PublishNonEmptyBatch(ps: seq<seq<Signal>>, batch: seq<Signal>)
    ensures Publishes(ps, batch, if batch == [] then ps else ps + [batch])
  {
  }

  /**
    One received bar: the bar's symbol gets the new bounded history and
    every other symbol keeps its own; the history is scored and a non-empty
    result is published as one batch. A failed publish is only logged, so
    it does not affect the state.
   */
  function Step(st: State, c: Candle): (st': State)
    ensures StoresBar(History(st, c.symbol), c, History(st', c.symbol))
    ensures st'.histories.Keys == st.histories.Keys + {c.symbol}
    ensures forall s :: s != c.symbol ==> History(st', s) == History(st, s)
    ensures Publishes(st.published, ScoreHistory(c.symbol, History(st', c.symbol)), st'.published)
  {
    var h := AppendBar(History(st, c.symbol), c);
    var signals := ScoreHistory(c.symbol, h);
    var st' := State(st.histories[c.symbol := h], if signals == [] then st.published else st.published + [signals]);
    assert History(st', c.symbol) == h;
    AppendBarStores(History(st, c.symbol), c);
    PublishNonEmptyBatch(st.published, signals);
    StoreFrame(st, c, h, st');
    st'
  }

  /** Storing a history for the bar's symbol adds that key and leaves every other symbol's history alone. */
  lemma StoreFrame(st: State, c: Candle, h: seq<Candle>, st': State)
    requires st'.histories == st.histories[c.symbol := h]
    ensures st'.histories.Keys == st.histories.Keys + {c.symbol}
    ensures forall s :: s != c.symbol ==> History(st', s) == History(st, s)
  {
  }

  /** The state after the bars of `bars`, in order, starting from no history. */
  function Run(bars: seq<Candle>): State
  {
    if |bars| == 0 then Initial else Step(Run(bars[..|bars| - 1]), bars[|bars| - 1])
  }

  // ---------------------------------------------------------------------
  // Properties of a run
  // ---------------------------------------------------------------------

  /** The bars of `symbol`, in arrival order. */
  function BarsOf(bars: seq<Candle>, symbol: string): (r: seq<Candle>)
    ensures |r| <= |bars|
    ensures forall k :: 0 <= k < |r| ==> r[k].symbol == symbol
  {
    if |bars| == 0 then []
    else
      var rest := BarsOf(bars[..|bars| - 1], symbol);
      if bars[|bars| - 1].symbol == symbol then rest + [bars[|bars| - 1]] else rest
  }

  /** After any run, each symbol's history is the newest (up to) 50 of that symbol's bars. */
  lemma {:induction false} RunHistory(bars: seq<Candle>, symbol: string)
    ensures History(Run(bars), symbol) == LastN(BarsOf(bars, symbol), KeepBars)
  {
    if |bars| > 0 {
      var pre, c := bars[..|bars| - 1], bars[|bars| - 1];
      RunHistory(pre, symbol);
      if c.symbol == symbol {
        AppendBarTrailing(BarsOf(pre, symbol), c);
      }
    }
  }

  /** Every stored history is bounded, non-empty, and holds only its own symbol's bars. */
  lemma RunHistoriesBounded(bars: seq<Candle>)
    ensures forall s :: s in Run(bars).histories ==>
              var h := Run(bars).histories[s];
              && 0 < |h| <= KeepBars
              && forall k :: 0 <= k < |h| ==> h[k].symbol == s
  {
    forall s | s in Run(bars).histories
      ensures var h := Run(bars).histories[s];
              && 0 < |h| <= KeepBars
              && forall k :: 0 <= k < |h| ==> h[k].symbol == s
    {
      RunHistory(bars, s);
      RunKeys(bars, s);
    }
  }

  /** A symbol has a stored history exactly when one of its bars arrived. */
  lemma {:induction false} RunKeys(bars: seq<Candle>, symbol: string)
    ensures symbol in Run(bars).histories <==> |BarsOf(bars, symbol)| > 0
  {
    if |bars| > 0 {
      RunKeys(bars[..|bars| - 1], symbol);
    }
  }

  /** Every published batch is non-empty: the publisher is called only with signals. */
  lemma {:induction false} PublishedNonEmpty(bars: seq<Candle>)
    ensures forall k :: 0 <= k < |Run(bars).published| ==> |Run(bars).published[k]| > 0
  {
    if |bars| > 0 {
      var pre := bars[..|bars| - 1];
      PublishedNonEmpty(pre);
      StepPublishesNonEmpty(Run(pre), bars[|bars| - 1]);
    }
  }

  /** A step keeps the earlier batches and adds only a non-empty one. */
  lemma StepPublishesNonEmpty(st: State, c: Candle)
    requires forall k :: 0 <= k < |st.published| ==> |st.published[k]| > 0
    ensures forall k :: 0 <= k < |Step(st, c).published| ==> |Step(st, c).published[k]| > 0
  {
    var batch := ScoreHistory(c.symbol, AppendBar(History(st, c.symbol), c));
    PublishNonEmpty(st.published, batch, Step(st, c).published);
  }

  /** Publishing only non-empty batches keeps every batch non-empty. */
  lemma PublishNonEmpty(ps: seq<seq<Signal>>, batch: seq<Signal>, ps': seq<seq<Signal>>)
    requires forall k :: 0 <= k < |ps| ==> |ps[k]| > 0
    requires ps' == if batch == [] then ps else ps + [batch]
    ensures forall k :: 0 <= k < |ps'| ==> |ps'[k]| > 0
  {
  }

  /** The number of messages handed to the publisher: one per signal of each batch. */
  function MessageCount(batches: seq<seq<Signal>>): nat
  {
    if |batches| == 0 then 0 else MessageCount(batches[..|batches| - 1]) + |batches[|batches| - 1]|
  }

  /**
    The signal count a replay of `bars` should publish: for every bar, the
    signals of its symbol's newest (up to) 50 bars at that moment.
   */
  function ExpectedSignals(bars: seq<Candle>): nat
  {
    if |bars| == 0 then 0
    else
      var c := bars[|bars| - 1];
      ExpectedSignals(bars[..|bars| - 1]) + |ScoreHistory(c.symbol, LastN(BarsOf(bars, c.symbol), KeepBars))|
  }

  /** One step adds the signals of the bar's new history to the message count. */
  lemma StepMessageCount(st: State, c: Candle)
    ensures MessageCount(Step(st, c).published)
         == MessageCount(st.published) + |ScoreHistory(c.symbol, AppendBar(History(st, c.symbol), c))|
  {
    var batch := ScoreHistory(c.symbol, AppendBar(History(st, c.symbol), c));
    var ps := st.published;
    if batch != [] {
      assert (ps + [batch])[..|ps + [batch]| - 1] == ps;
    }
  }

  /** The messages published over a run are exactly the expected signal count. */
  lemma {:induction false} PublishedMatchesExpected(bars: seq<Candle>)
    ensures MessageCount(Run(bars).published) == ExpectedSignals(bars)
  {
    if |bars| > 0 {
      var pre, c := bars[..|bars| - 1], bars[|bars| - 1];
      PublishedMatchesExpected(pre);
      StepMessageCount(Run(pre), c);
      RunHistory(bars, c.symbol);
    }
  }

  /** A single-symbol feed publishes the signals of every trailing window of its prefixes. */
  lemma SingleSymbolPublished(bars: seq<Candle>, symbol: string)
    requires forall k :: 0 <= k < |bars| ==> bars[k].symbol == symbol
    ensures MessageCount(Run(bars).published) == TrailingSignals(bars, symbol)
  {
    PublishedMatchesExpected(bars);
    SingleSymbolExpected(bars, symbol);
  }

  /**
    The count a single-symbol replay expects: for each prefix, the signals
    of its newest (up to) 50 bars.
   */
  function TrailingSignals(bars: seq<Candle>, symbol: string): nat
  {
    if |bars| == 0 then 0
    else TrailingSignals(bars[..|bars| - 1], symbol) + |ScoreHistory(symbol, LastN(bars, KeepBars))|
  }

  lemma {:induction false} SingleSymbolExpected(bars: seq<Candle>, symbol: string)
    requires forall k :: 0 <= k < |bars| ==> bars[k].symbol == symbol
    ensures ExpectedSignals(bars) == TrailingSignals(bars, symbol)
  {
    if |bars| > 0 {
      SingleSymbolExpected(bars[..|bars| - 1], symbol);
      BarsOfAll(bars, symbol);
    }
  }

  /** When every bar has the same symbol, that symbol's bars are all the bars. */
  lemma {:induction false} BarsOfAll(bars: seq<Candle>, symbol: string)
    requires forall k :: 0 <= k < |bars| ==> bars[k].symbol == symbol
    ensures BarsOf(bars, symbol) == bars
  {
    if |bars| > 0 {
      BarsOfAll(bars[..|bars| - 1], symbol);
      assert bars[..|bars| - 1] + [bars[|bars| - 1]] == bars;
    }
  }
}
