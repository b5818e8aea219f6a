/**
  The repository's test vectors, restated over exact reals: each lemma
  fixes the inputs of one test case and states the outcome that test
  expects.
 */
module Fixtures {
  import opened Types
  import opened Candles
  import Indicators
  import opened CandlestickScorer
  import opened EmaScorer
  import opened DivergenceScorer
  import opened Scanner
  import opened Orchestrator

  const Sym: string := "EURUSD"

  /** A bar of the fixture symbol, `i` minutes after the start. */
  function Bar(i: int, o: real, h: real, l: real, c: real): (b: Candle)
    ensures b.symbol == Sym
  {
    Candle(Sym, i * Minute, o, h, l, c, 0.0)
  }

  function FlatBar(i: int): Candle
  {
    Bar(i, 1.0, 1.0, 1.0, 1.0)
  }

  // ---------------------------------------------------------------------
  // Indicators
  // ---------------------------------------------------------------------

  /** The RSI of an alternating series with period 2. */
  lemma RsiAlternatingVector()
    ensures Indicators.CalcRSI([1.0, 2.0, 1.0, 2.0, 1.0, 2.0, 1.0], 2)
         == [0.0, 0.0, 50.0, 75.0, 37.5, 68.75, 34.375]
  {
    var cs := [1.0, 2.0, 1.0, 2.0, 1.0, 2.0, 1.0];
    assert Indicators.SeedGain(cs, 2) == 1.0 && Indicators.SeedLoss(cs, 2) == 1.0;
    assert Indicators.WilderAverages(cs, 2, 2) == Indicators.Averages(0.5, 0.5);
    assert Indicators.WilderAverages(cs, 2, 3) == Indicators.Averages(0.75, 0.25);
    assert Indicators.WilderAverages(cs, 2, 4) == Indicators.Averages(0.375, 0.625);
    assert Indicators.WilderAverages(cs, 2, 5) == Indicators.Averages(0.6875, 0.3125);
    assert Indicators.WilderAverages(cs, 2, 6) == Indicators.Averages(0.34375, 0.65625);
    assert Indicators.RsiOf(Indicators.Averages(0.5, 0.5)) == 50.0;
    assert Indicators.RsiOf(Indicators.Averages(0.75, 0.25)) == 75.0;
    assert Indicators.RsiOf(Indicators.Averages(0.375, 0.625)) == 37.5;
    assert Indicators.RsiOf(Indicators.Averages(0.6875, 0.3125)) == 68.75;
    assert Indicators.RsiOf(Indicators.Averages(0.34375, 0.65625)) == 34.375;
  }

  // ---------------------------------------------------------------------
  // Candlestick classifier
  // ---------------------------------------------------------------------

  /** A bearish bar followed by a larger bullish bar that engulfs it. */
  lemma CandlestickBullishEngulfingFixture()
    ensures ScoreCandlestickPatterns(Sym, [Bar(0, 1.0, 1.05, 0.95, 0.96), Bar(1, 0.94, 1.1, 0.9, 1.05)])
         == [Signal(Sym, Up, 0.5, Minute)]
  {
    var c := [Bar(0, 1.0, 1.05, 0.95, 0.96), Bar(1, 0.94, 1.1, 0.9, 1.05)];
    assert IsBullishEngulfing(c, 1);
  }

  /** A flat bar followed by a bar with a long upper wick. */
  lemma CandlestickBearishPinFixture()
    ensures ScoreCandlestickPatterns(Sym, [FlatBar(0), Bar(1, 1.0, 1.2, 0.9, 0.95)])
         == [Signal(Sym, Down, 0.5, Minute)]
  {
    assert IsBearishPinBar(Bar(1, 1.0, 1.2, 0.9, 0.95));
  }

  lemma CandlestickFlatFixture()
    ensures ScoreCandlestickPatterns(Sym, [FlatBar(0), FlatBar(1)]) == []
  {
  }

  // ---------------------------------------------------------------------
  // EMA crossover
  // ---------------------------------------------------------------------

  lemma EmaBullishCrossFixture()
    ensures ScoreEMAInteractions(Sym, [FlatBar(0), Bar(1, 1.05, 1.1, 1.0, 1.1)], [1.0, 1.05], [1.0, 1.0])
         == [Signal(Sym, Up, 0.6, Minute)]
  {
  }

  lemma EmaBearishCrossFixture()
    ensures ScoreEMAInteractions(Sym, [FlatBar(0), Bar(1, 0.95, 1.0, 0.9, 0.9)], [1.0, 0.95], [1.0, 1.0])
         == [Signal(Sym, Down, 0.6, Minute)]
  {
  }

  lemma EmaNoCrossFixture()
    ensures ScoreEMAInteractions(Sym, [FlatBar(0), FlatBar(1)], [1.0, 1.0], [1.0, 1.0]) == []
  {
  }

  // ---------------------------------------------------------------------
  // RSI divergence
  // ---------------------------------------------------------------------

  /**
    Twenty bars: flat at 1.0, a swing low at bar 16, and a final bar that
    closes at `lastClose` after undercutting that low.
   */
  function DivergenceBars(lastClose: real): (c: seq<Candle>)
    ensures |c| == Window
    ensures forall i :: 0 <= i < 16 ==> c[i] == FlatBar(i)
    ensures forall i :: 0 <= i < 16 ==> c[i].high == 1.0 && c[i].low == 1.0 && c[i].close == 1.0
    ensures c[16] == Bar(16, 0.7, 0.8, 0.5, 0.6) && c[17] == Bar(17, 0.65, 0.75, 0.55, 0.6)
    ensures c[18] == Bar(18, 0.6, 0.65, 0.45, 0.5) && c[19] == Bar(19, 0.48, 0.9, 0.4, lastClose)
  {
    seq(20, i requires 0 <= i < 20 =>
      if i == 16 then Bar(16, 0.7, 0.8, 0.5, 0.6)
      else if i == 17 then Bar(17, 0.65, 0.75, 0.55, 0.6)
      else if i == 18 then Bar(18, 0.6, 0.65, 0.45, 0.5)
      else if i == 19 then Bar(19, 0.48, 0.9, 0.4, lastClose)
      else FlatBar(i))
  }

  /** Every bar of `DivergenceBars` belongs to the same instrument. */
  lemma DivergenceBarsSymbol(lastClose: real)
    ensures forall i :: 0 <= i < Window ==> DivergenceBars(lastClose)[i].symbol == Sym
  {
    var c := DivergenceBars(lastClose);
    forall i | 0 <= i < Window ensures c[i].symbol == Sym {
      if i < 16 {
        assert c[i] == FlatBar(i);
      }
    }
  }

  /** RSI falling by one per bar from 50, with higher values after the swing low. */
  function DivergenceRsi(): (r: seq<real>)
    ensures |r| == Window
    ensures r[16] == 30.0 && r[19] == 40.0
  {
    seq(20, i requires 0 <= i < 20 =>
      if i == 16 then 30.0
      else if i == 17 then 32.0
      else if i == 18 then 31.0
      else if i == 19 then 40.0
      else 50.0 - i as real)
  }

  /** The last three bars of `DivergenceBars`. */
  lemma DivergenceTail(lastClose: real)
    ensures DivergenceBars(lastClose)[Window - Recent..]
         == [Bar(17, 0.65, 0.75, 0.55, 0.6), Bar(18, 0.6, 0.65, 0.45, 0.5), Bar(19, 0.48, 0.9, 0.4, lastClose)]
  {
  }

  /** A final bar closing above 0.6 engulfs the bearish bar before it. */
  lemma EngulfingReversal(lastClose: real)
    requires lastClose > 0.6
    ensures RevDir([Bar(17, 0.65, 0.75, 0.55, 0.6), Bar(18, 0.6, 0.65, 0.45, 0.5), Bar(19, 0.48, 0.9, 0.4, lastClose)])
         == Some(Up)
  {
    var t := [Bar(17, 0.65, 0.75, 0.55, 0.6), Bar(18, 0.6, 0.65, 0.45, 0.5), Bar(19, 0.48, 0.9, 0.4, lastClose)];
    assert IsBullishEngulfing(t, 2);
  }

  /** A final bar closing at 0.45 is a bearish pin bar and engulfs nothing. */
  lemma PinReversal()
    ensures RevDir([Bar(17, 0.65, 0.75, 0.55, 0.6), Bar(18, 0.6, 0.65, 0.45, 0.5), Bar(19, 0.48, 0.9, 0.4, 0.45)])
         == Some(Down)
  {
    var t := [Bar(17, 0.65, 0.75, 0.55, 0.6), Bar(18, 0.6, 0.65, 0.45, 0.5), Bar(19, 0.48, 0.9, 0.4, 0.45)];
    assert IsBearishPinBar(t[2]);
    assert !BullishAt(t, 2);
  }

  /** No window bar's high is above bar 0's, so there is no bearish divergence, whatever the RSI. */
  lemma NoBearishDivergence(lastClose: real, rv: seq<real>)
    requires |rv| == Window
    ensures !BearishDivergence(DivergenceBars(lastClose), rv)
  {
    var c := DivergenceBars(lastClose);
    assert c[0..] == c && rv[0..] == rv;
  }

  /**
    When the final bar closes above 0.6 it engulfs its predecessor, and with
    any RSI that is higher at the final bar than at the swing low the scorer
    reports exactly one UP. The repository's test closes the bar at 0.8
    with `DivergenceRsi`.
   */
  lemma DivergenceBullishFixture(lastClose: real, rv: seq<real>)
    requires lastClose > 0.6
    requires |rv| == Window && rv[19] > rv[16]
    ensures ScoreRSIDivergence(Sym, DivergenceBars(lastClose), rv) == [Signal(Sym, Up, 0.8, 2 * Minute)]
  {
    DivergenceTail(lastClose);
    BullishOnDivergenceShape(DivergenceBars(lastClose), lastClose, rv);
  }

  /** The bullish case for any bars shaped like `DivergenceBars` in the fields the scorer reads. */
  lemma BullishOnDivergenceShape(c: seq<Candle>, lastClose: real, rv: seq<real>)
    requires lastClose > 0.6
    requires |rv| == Window && rv[19] > rv[16]
    requires |c| == Window && forall i :: 0 <= i < 16 ==> c[i].high == 1.0 && c[i].low == 1.0
    requires c[16] == Bar(16, 0.7, 0.8, 0.5, 0.6)
    requires c[Window - Recent..]
          == [Bar(17, 0.65, 0.75, 0.55, 0.6), Bar(18, 0.6, 0.65, 0.45, 0.5), Bar(19, 0.48, 0.9, 0.4, lastClose)]
    ensures ScoreRSIDivergence(Sym, c, rv) == [Signal(Sym, Up, 0.8, 2 * Minute)]
  {
    ShapeBullish(c, lastClose, rv);
    ShapeNotBearish(c, lastClose, rv);
    OnlyBullish(Sym, c, rv);
  }

  lemma ShapeBullish(c: seq<Candle>, lastClose: real, rv: seq<real>)
    requires lastClose > 0.6
    requires |rv| == Window && rv[19] > rv[16]
    requires |c| == Window && forall i :: 0 <= i < 16 ==> c[i].high == 1.0 && c[i].low == 1.0
    requires c[16] == Bar(16, 0.7, 0.8, 0.5, 0.6)
    requires c[Window - Recent..]
          == [Bar(17, 0.65, 0.75, 0.55, 0.6), Bar(18, 0.6, 0.65, 0.45, 0.5), Bar(19, 0.48, 0.9, 0.4, lastClose)]
    ensures BullishDivergence(c, rv)
  {
    assert c[0..] == c && rv[0..] == rv;
    assert c[17] == c[Window - Recent..][0] && c[18] == c[Window - Recent..][1] && c[19] == c[Window - Recent..][2];
    assert IsFirstLowest(c, 16, Window - Recent);
    EngulfingReversal(lastClose);
  }

  lemma ShapeNotBearish(c: seq<Candle>, lastClose: real, rv: seq<real>)
    requires |rv| == Window
    requires |c| == Window && forall i :: 0 <= i < 16 ==> c[i].high == 1.0
    requires c[16].high == 0.8 && c[17].high == 0.75 && c[18].high == 0.65 && c[19].high == 0.9
    ensures !BearishDivergence(c, rv)
  {
    assert c[0..] == c && rv[0..] == rv;
    assert IsFirstHighest(c, 0, Window - Recent);
    forall h | IsFirstHighest(c, h, Window - Recent) ensures c[Window - 1].high <= c[h].high {
      FirstHighestUnique(c, h, 0, Window - Recent);
    }
  }

  /** A bullish divergence without a bearish one yields exactly one UP signal. */
  lemma OnlyBullish(symbol: string, candles: seq<Candle>, rsi: seq<real>)
    requires BullishDivergence(candles, rsi) && !BearishDivergence(candles, rsi)
    ensures ScoreRSIDivergence(symbol, candles, rsi) == [Signal(symbol, Up, 0.8, 2 * Minute)]
  {
    DivergenceUpIff(symbol, candles, rsi);
    DivergenceDownIff(symbol, candles, rsi);
    var r := ScoreRSIDivergence(symbol, candles, rsi);
    assert r[0].direction == Up;
  }

  lemma FirstHasDirection(r: seq<Signal>)
    requires |r| > 0
    ensures HasDirection(r, r[0].direction)
  {
  }

  /** A signal list with neither direction is empty. */
  lemma NoDirectionEmpty(r: seq<Signal>)
    requires !HasDirection(r, Up) && !HasDirection(r, Down)
    ensures r == []
  {
    if |r| > 0 {
      FirstHasDirection(r);
      assert false;
    }
  }

  /** With a bearish final bar there is no bullish reversal, so nothing is reported, whatever the RSI. */
  lemma DivergenceWithoutReversalFixture(rv: seq<real>)
    requires |rv| == Window
    ensures ScoreRSIDivergence(Sym, DivergenceBars(0.45), rv) == []
  {
    var c := DivergenceBars(0.45);
    DivergenceTail(0.45);
    PinReversal();
    assert !BullishDivergence(c, rv);
    DivergenceUpIff(Sym, c, rv);
    NoBearishDivergence(0.45, rv);
    DivergenceDownIff(Sym, c, rv);
    NoDirectionEmpty(ScoreRSIDivergence(Sym, c, rv));
  }

  // ---------------------------------------------------------------------
  // Scanner
  // ---------------------------------------------------------------------

  /** Twenty values: `base` up to bar 17, then `at18` and `at19`. */
  function Series(base: real, at18: real, at19: real): (s: seq<real>)
    ensures |s| == Window
    ensures s[Window - 2..] == [at18, at19]
  {
    seq(20, i requires 0 <= i < 20 => if i == 18 then at18 else if i == 19 then at19 else base)
  }

  /** Eighteen flat bars, a falling bar 18, and a rising bar 19 opening at `open19`. */
  function DupBars(open19: real): (c: seq<Candle>)
    ensures |c| == Window
    ensures forall i :: 0 <= i < 18 ==> c[i].high == 1.0 && c[i].low == 1.0
    ensures c[Window - 2..] == [Bar(18, 1.05, 1.1, 0.95, 1.0), Bar(19, open19, 1.15, 0.95, 1.1)]
  {
    seq(20, i requires 0 <= i < 20 =>
      if i == 18 then Bar(18, 1.05, 1.1, 0.95, 1.0)
      else if i == 19 then Bar(19, open19, 1.15, 0.95, 1.1)
      else FlatBar(i))
  }

  /** Scanner input with fewer than twenty bars is rejected. */
  lemma ScanInvalidFixture()
    ensures ScanSignalPatterns(Sym, seq(10, i => FlatBar(i)), seq(10, i => 0.0), seq(10, i => 0.0), seq(9, i => 0.0)).Err?
  {
  }

  /**
    The divergence bars with flat EMAs: the divergence UP and the engulfing
    UP differ in TTL, so both are kept, divergence first. The repository's
    test closes the final bar at 0.8.
   */
  lemma ScanDivergenceFixture(lastClose: real)
    requires lastClose > 0.6
    ensures ScanSignalPatterns(Sym, DivergenceBars(lastClose), DivergenceRsi(), Series(1.0, 1.0, 1.0), Series(1.0, 1.0, 1.0))
         == Ok([Signal(Sym, Up, 0.8, 2 * Minute), Signal(Sym, Up, 0.5, Minute)])
  {
    var e := Series(1.0, 1.0, 1.0);
    var last := [Bar(18, 0.6, 0.65, 0.45, 0.5), Bar(19, 0.48, 0.9, 0.4, lastClose)];
    var div, up := Signal(Sym, Up, 0.8, 2 * Minute), Signal(Sym, Up, 0.5, Minute);
    assert ScoreEMAInteractions(Sym, last, [1.0, 1.0], [1.0, 1.0]) == [];
    assert [div] + [] + [up] == [div, up];
    ScanDivergenceBars(lastClose, e, e, [], [div, up]);
  }

  /**
    The scanner on the divergence bars: the divergence UP, then whatever the
    EMA scorer reports on bars 18 and 19, then the engulfing UP.
   */
  lemma ScanDivergenceBars(lastClose: real, ema8: seq<real>, ema21: seq<real>, ema: seq<Signal>, all: seq<Signal>)
    requires lastClose > 0.6
    requires |ema8| == |ema21| == Window
    requires ScoreEMAInteractions(Sym, [Bar(18, 0.6, 0.65, 0.45, 0.5), Bar(19, 0.48, 0.9, 0.4, lastClose)],
                                  ema8[Window - 2..], ema21[Window - 2..]) == ema
    requires forall k :: 0 <= k < |ema| ==> ema[k].direction == Down
    requires all == [Signal(Sym, Up, 0.8, 2 * Minute)] + ema + [Signal(Sym, Up, 0.5, Minute)]
    ensures ScanSignalPatterns(Sym, DivergenceBars(lastClose), DivergenceRsi(), ema8, ema21) == Ok(all)
  {
    var c := DivergenceBars(lastClose);
    DivergenceMergeUnique(ema, all);
    DivergenceBullishFixture(lastClose, DivergenceRsi());
    DivergenceBarsLastTwo(lastClose, ema8, ema21, ema);
    ScanFromParts(Sym, c, DivergenceRsi(), ema8, ema21,
                  [Signal(Sym, Up, 0.8, 2 * Minute)], ema, [Signal(Sym, Up, 0.5, Minute)], all);
  }

  /** The divergence UP, at most one DOWN, and the candlestick UP carry three different keys. */
  lemma DivergenceMergeUnique(ema: seq<Signal>, all: seq<Signal>)
    requires |ema| <= 1 && forall k :: 0 <= k < |ema| ==> ema[k].direction == Down
    requires all == [Signal(Sym, Up, 0.8, 2 * Minute)] + ema + [Signal(Sym, Up, 0.5, Minute)]
    ensures UniqueKeys(all)
  {
    if |ema| == 1 {
      assert all == [Signal(Sym, Up, 0.8, 2 * Minute), ema[0], Signal(Sym, Up, 0.5, Minute)];
    } else {
      assert all == [Signal(Sym, Up, 0.8, 2 * Minute), Signal(Sym, Up, 0.5, Minute)];
    }
  }

  /** The EMA and candlestick scorers on the divergence bars consult only bars 18 and 19. */
  lemma DivergenceBarsLastTwo(lastClose: real, ema8: seq<real>, ema21: seq<real>, ema: seq<Signal>)
    requires lastClose > 0.6
    requires |ema8| == |ema21| == Window
    requires ScoreEMAInteractions(Sym, [Bar(18, 0.6, 0.65, 0.45, 0.5), Bar(19, 0.48, 0.9, 0.4, lastClose)],
                                  ema8[Window - 2..], ema21[Window - 2..]) == ema
    ensures ScoreEMAInteractions(Sym, DivergenceBars(lastClose), ema8, ema21) == ema
    ensures ScoreCandlestickPatterns(Sym, DivergenceBars(lastClose)) == [Signal(Sym, Up, 0.5, Minute)]
  {
    var c := DivergenceBars(lastClose);
    var last := [Bar(18, 0.6, 0.65, 0.45, 0.5), Bar(19, 0.48, 0.9, 0.4, lastClose)];
    assert c[Window - 2..] == last;
    EmaLastTwo(Sym, c, ema8, ema21);
    CandlestickLastTwo(Sym, c);
    CandlestickBullish(last);
  }

  /** The scanner on valid input whose three scorers' results share no key keeps them all, in order. */
  lemma ScanFromParts(symbol: string, candles: seq<Candle>, rsi: seq<real>, ema8: seq<real>, ema21: seq<real>,
                      div: seq<Signal>, ema: seq<Signal>, cnd: seq<Signal>, all: seq<Signal>)
    requires !InvalidInput(candles, rsi, ema8, ema21)
    requires ScoreRSIDivergence(symbol, candles, rsi) == div
    requires ScoreEMAInteractions(symbol, candles, ema8, ema21) == ema
    requires ScoreCandlestickPatterns(symbol, candles) == cnd
    requires all == div + ema + cnd && UniqueKeys(all)
    ensures ScanSignalPatterns(symbol, candles, rsi, ema8, ema21) == Ok(all)
  {
    DedupFromUnique({}, all);
  }

  /** The scanner's duplicate case: bar 19 opens level with bar 18's close, so only the EMA signal fires. */
  lemma ScanEmaOnlyFixture()
    ensures ScanSignalPatterns(Sym, DupBars(1.0), Series(50.0, 50.0, 50.0), Series(1.0, 1.0, 1.05), Series(1.0, 1.0, 1.0))
         == Ok([Signal(Sym, Up, 0.6, Minute)])
  {
    var c := DupBars(1.0);
    var last := [Bar(18, 1.05, 1.1, 0.95, 1.0), Bar(19, 1.0, 1.15, 0.95, 1.1)];
    NoSwingDupBars(1.0, Series(50.0, 50.0, 50.0));
    EmaLastTwo(Sym, c, Series(1.0, 1.0, 1.05), Series(1.0, 1.0, 1.0));
    CandlestickLastTwo(Sym, c);
    assert !IsBullishEngulfing(last, 1) && !IsBullishPinBar(last[1]);
    assert ScoreCandlestickPatterns(Sym, last) == [];
    assert ScoreEMAInteractions(Sym, last, [1.0, 1.05], [1.0, 1.0]) == [Signal(Sym, Up, 0.6, Minute)];
  }

  /**
    A variant whose bar 19 engulfs bar 18: the EMA and the candlestick
    scorer both report UP with a one-minute TTL, and only the EMA signal,
    which comes first, survives.
   */
  lemma ScanDuplicateFixture()
    ensures ScanSignalPatterns(Sym, DupBars(0.98), Series(50.0, 50.0, 50.0), Series(1.0, 1.0, 1.05), Series(1.0, 1.0, 1.0))
         == Ok([Signal(Sym, Up, 0.6, Minute)])
  {
    var c := DupBars(0.98);
    var last := [Bar(18, 1.05, 1.1, 0.95, 1.0), Bar(19, 0.98, 1.15, 0.95, 1.1)];
    NoSwingDupBars(0.98, Series(50.0, 50.0, 50.0));
    EmaLastTwo(Sym, c, Series(1.0, 1.0, 1.05), Series(1.0, 1.0, 1.0));
    CandlestickLastTwo(Sym, c);
    CandlestickBullish(last);
    assert ScoreEMAInteractions(Sym, last, [1.0, 1.05], [1.0, 1.0]) == [Signal(Sym, Up, 0.6, Minute)];
  }

  /**
    The divergence bars with a bearish EMA crossover at the last bar: one
    signal from each scorer, all three kept. The repository's data closes
    the final bar at 0.8; any close between 0.6 and 0.85 gives the same.
   */
  lemma ScanDistinctFixture(lastClose: real)
    requires 0.6 < lastClose < 0.85
    ensures ScanSignalPatterns(Sym, DivergenceBars(lastClose), DivergenceRsi(), Series(1.0, 1.0, 0.85), Series(1.0, 0.9, 0.9))
         == Ok([Signal(Sym, Up, 0.8, 2 * Minute), Signal(Sym, Down, 0.6, Minute), Signal(Sym, Up, 0.5, Minute)])
  {
    var down := Signal(Sym, Down, 0.6, Minute);
    var last := [Bar(18, 0.6, 0.65, 0.45, 0.5), Bar(19, 0.48, 0.9, 0.4, lastClose)];
    var div, up := Signal(Sym, Up, 0.8, 2 * Minute), Signal(Sym, Up, 0.5, Minute);
    assert ScoreEMAInteractions(Sym, last, [1.0, 0.85], [0.9, 0.9]) == [down];
    assert [div] + [down] + [up] == [div, down, up];
    ScanDivergenceBars(lastClose, Series(1.0, 1.0, 0.85), Series(1.0, 0.9, 0.9), [down], [div, down, up]);
  }

  /** The two-bar classification of a bar that engulfs a falling predecessor. */
  lemma CandlestickBullish(last: seq<Candle>)
    requires |last| == 2 && last[0].symbol == Sym && last[1].symbol == Sym
    requires last[1].open < last[0].close < last[0].open < last[1].close
    requires !IsBearishPinBar(last[1])
    ensures ScoreCandlestickPatterns(Sym, last) == [Signal(Sym, Up, 0.5, Minute)]
  {
    assert IsBullishEngulfing(last, 1) && !IsBearishEngulfing(last, 1);
  }

  /** The duplicate bars have no swing point, so the divergence scorer is silent. */
  lemma NoSwingDupBars(open19: real, rsi: seq<real>)
    ensures ScoreRSIDivergence(Sym, DupBars(open19), rsi) == []
  {
    var c := DupBars(open19);
    assert c[0..] == c;
    assert c[0].high == 1.0 && c[0].low == 1.0;
    assert !SwingPointsExist(c);
    NoSwingNoSignal(Sym, c, rsi);
  }

  // ---------------------------------------------------------------------
  // Orchestrator
  // ---------------------------------------------------------------------

  lemma {:induction false} FlatSeeds(cs: seq<real>, m: int)
    requires 0 <= m < |cs|
    requires forall i :: 0 <= i <= m ==> cs[i] == 1.0
    ensures Indicators.SeedGain(cs, m) == 0.0 && Indicators.SeedLoss(cs, m) == 0.0
    decreases m
  {
    if m > 0 {
      FlatSeeds(cs, m - 1);
      assert Indicators.Diff(cs, m) == 0.0;
    }
  }

  /**
    RSI(14) over the closes of the divergence bars: the seed window is flat,
    so the average gain is still zero at the swing low (RSI 0 there), and a
    final close above 0.5 makes both averages positive (RSI above 0).
   */
  lemma OrchestratorRsi(lastClose: real)
    requires lastClose > 0.5
    ensures var rsi := Indicators.CalcRSI(Closes(DivergenceBars(lastClose)), RsiPeriod);
            |rsi| == Window && rsi[16] == 0.0 && rsi[19] > 0.0
  {
    var cs := Closes(DivergenceBars(lastClose));
    assert forall i :: 0 <= i < 16 ==> cs[i] == 1.0;
    DivergenceCloses(cs, lastClose);
  }

  /** The RSI facts of `OrchestratorRsi`, for any closes shaped like the divergence bars'. */
  lemma DivergenceCloses(cs: seq<real>, lastClose: real)
    requires lastClose > 0.5
    requires |cs| == Window && forall i :: 0 <= i < 16 ==> cs[i] == 1.0
    requires cs[16] == 0.6 && cs[17] == 0.6 && cs[18] == 0.5 && cs[19] == lastClose
    ensures var rsi := Indicators.CalcRSI(cs, RsiPeriod);
            |rsi| == Window && rsi[16] == 0.0 && rsi[19] > 0.0
  {
    FlatSeeds(cs, 15);
    var a14 := Indicators.WilderAverages(cs, 14, 14);
    assert a14 == Indicators.Averages(0.0, 0.0);
    var a15 := Indicators.WilderAverages(cs, 14, 15);
    assert Indicators.Diff(cs, 15) == 0.0;
    assert a15 == Indicators.Averages(0.0, 0.0);
    var a16 := Indicators.WilderAverages(cs, 14, 16);
    assert a16.gain == 0.0 && a16.loss > 0.0;
    var a17 := Indicators.WilderAverages(cs, 14, 17);
    assert a17.gain == 0.0 && a17.loss > 0.0;
    var a18 := Indicators.WilderAverages(cs, 14, 18);
    assert a18.gain == 0.0 && a18.loss > 0.0;
    var a19 := Indicators.WilderAverages(cs, 14, 19);
    assert a19.gain > 0.0 && a19.loss > 0.0;
    var rs := a19.gain / a19.loss;
    assert 100.0 / (1.0 + rs) < 100.0;
  }

  /** The orchestrator scores the bullish divergence bars as one UP. */
  lemma OrchestratorScoresBullish(lastClose: real)
    requires lastClose > 0.6
    ensures ScoreHistory(Sym, DivergenceBars(lastClose)) == [Signal(Sym, Up, 0.8, 2 * Minute)]
  {
    OrchestratorRsi(lastClose);
    DivergenceBullishFixture(lastClose, Indicators.CalcRSI(Closes(DivergenceBars(lastClose)), RsiPeriod));
  }

  lemma {:induction false} TrailingSignalsShort(bars: seq<Candle>, symbol: string)
    requires |bars| < ScoreFrom
    ensures TrailingSignals(bars, symbol) == 0
  {
    if |bars| > 0 {
      TrailingSignalsShort(bars[..|bars| - 1], symbol);
    }
  }

  /** A single-symbol feed of 20 bars publishes the signals of its full history, once. */
  lemma TwentyBarFeed(bars: seq<Candle>, symbol: string)
    requires |bars| == Window
    requires forall k :: 0 <= k < |bars| ==> bars[k].symbol == symbol
    ensures MessageCount(Run(bars).published) == |ScoreHistory(symbol, bars)|
  {
    SingleSymbolPublished(bars, symbol);
    TrailingSignalsShort(bars[..Window - 1], symbol);
  }

  /** The orchestrator test's bullish feed: one published message. */
  lemma OrchestratorSignalFixture()
    ensures MessageCount(Run(DivergenceBars(0.8)).published) == 1
  {
    DivergenceBarsSymbol(0.8);
    TwentyBarFeed(DivergenceBars(0.8), Sym);
    OrchestratorScoresBullish(0.8);
  }

  /** The orchestrator test's bearish feed: nothing published. */
  lemma OrchestratorNoSignalFixture()
    ensures MessageCount(Run(DivergenceBars(0.45)).published) == 0
  {
    var bars := DivergenceBars(0.45);
    DivergenceBarsSymbol(0.45);
    TwentyBarFeed(bars, Sym);
    DivergenceWithoutReversalFixture(Indicators.CalcRSI(Closes(bars), RsiPeriod));
  }
}
