/**
  The backtester: replays each symbol's history through the scanner at every
  50-bar window position, enters after a fixed delay, exits after a fixed
  expiry, and tallies the outcomes.
 */
module Backtester {
  import opened Types
  import Indicators
  import opened Scanner

  const WindowSize: int := 50
  const RsiPeriod: int := 14
  const FastPeriod: int := 8
  const SlowPeriod: int := 21

  datatype Outcome = Win | Loss | Neutral

  /** One simulated trade. */
  datatype BacktestResult = BacktestResult(
    symbol: string,
    direction: Direction,
    entryTime: int,
    expiryTime: int,
    outcome: Outcome,
    reason: string)

  /** The results of a run with their aggregate counters. */
  datatype BacktestReport = BacktestReport(
    results: seq<BacktestResult>,
    accuracy: real,
    total: int,
    wins: int,
    losses: int,
    neutrals: int)

  /** `sorted`: no bar is timestamped before its predecessor, checked from index `i` on. */
  function SortedFrom(c: seq<Candle>, i: nat): (b: bool)
    requires i >= 1
    ensures b <==> forall j :: i <= j < |c| ==> !(c[j].time < c[j-1].time)
    decreases |c| - i
  {
    if i >= |c| then true
    else if c[i].time < c[i-1].time then false
    else SortedFrom(c, i + 1)
  }

  function Sorted(c: seq<Candle>): bool
  {
    SortedFrom(c, 1)
  }

  /** Adjacent order is the same as order between any two bars. */
  lemma {:induction false} SortedPairwise(c: seq<Candle>)
    ensures Sorted(c) <==> forall i, j :: 0 <= i <= j < |c| ==> c[i].time <= c[j].time
  {
    if Sorted(c) {
      forall i, j | 0 <= i <= j < |c| ensures c[i].time <= c[j].time {
        var k := i;
        while k < j
          invariant i <= k <= j
          invariant c[i].time <= c[k].time
        {
          assert !(c[k+1].time < c[k].time);
          k := k + 1;
        }
      }
    }
  }

  /** The outcome of a trade in direction `d` entered at `entry` and closed at `exit`. */
  function Classify(d: Direction, entry: real, exit: real): (o: Outcome)
    ensures o == Win <==> (d == Up && exit > entry) || (d == Down && exit < entry)
    ensures o == Loss <==> (d == Up && exit < entry) || (d == Down && exit > entry)
    ensures o == Neutral <==> exit == entry
  {
    match d
    case Up => if exit > entry then Win else if exit < entry then Loss else Neutral
    case Down => if exit < entry then Win else if exit > entry then Loss else Neutral
  }

  function Reason(entry: real, exit: real): string
  {
    if exit > entry then "closed above entry"
    else if exit < entry then "closed below entry"
    else "no change"
  }

  /** The window of 50 bars ending at position `i`. */
  function WindowAt(c: seq<Candle>, i: int): (w: seq<Candle>)
    requires WindowSize - 1 <= i < |c|
    ensures |w| == WindowSize
    ensures forall j :: 0 <= j < WindowSize ==> w[j] == c[i - WindowSize + 1 + j]
  {
    c[i - WindowSize + 1..i + 1]
  }

  /** The scanner run on the window ending at `i`, with indicators computed over its closes. */
  function ScanAt(symbol: string, c: seq<Candle>, i: int): Result<seq<Signal>>
    requires WindowSize - 1 <= i < |c|
  {
    var window := WindowAt(c, i);
    var closes := Closes(window);
    var rsi := Indicators.CalcRSI(closes, RsiPeriod);
    var ema8 := Indicators.CalcEMA(closes, FastPeriod);
    var ema21 := Indicators.CalcEMA(closes, SlowPeriod);
    ScanSignalPatterns(symbol, window, rsi, ema8, ema21)
  }

  /** Indicator lengths always match the window, so the scan never reports an error here. */
  lemma ScanAtNeverFails(symbol: string, c: seq<Candle>, i: int)
    requires WindowSize - 1 <= i < |c|
    ensures ScanAt(symbol, c, i).Ok?
  {
  }

  /**
    Shifts (in bars) for which no window position can index before the start
    of the series, nor read an entry bar past its end once the exit bar is
    known to be in range; any other shift can make the run panic.
   */
  predicate SafeShifts(delayMin: int, expiryMin: int)
  {
    && WindowSize - 1 + delayMin >= 0
    && WindowSize - 1 + delayMin + expiryMin >= 0
    && (expiryMin >= 0 || delayMin <= 0)
  }

  /** A valid trade position `i`: entry and exit both fall inside the series. */
  predicate Tradable(c: seq<Candle>, i: int, delayMin: int, expiryMin: int)
  {
    0 <= i + delayMin < |c| && 0 <= i + delayMin + expiryMin < |c|
  }

  /** The signals the scanner reports at window position `i`; an error reports none. */
  function SignalsAt(symbol: string, c: seq<Candle>, i: int): seq<Signal>
    requires WindowSize - 1 <= i < |c|
  {
    match ScanAt(symbol, c, i)
    case Err(_) => []
    case Ok(signals) => signals
  }

  /** One trade per signal, all entered at bar `entryIdx` and closed at bar `exitIdx`. */
  function Trades(symbol: string, signals: seq<Signal>, entry: Candle, exit: Candle)
    : (rs: seq<BacktestResult>)
    ensures |rs| == |signals|
    ensures forall k :: 0 <= k < |rs| ==>
              && rs[k].symbol == symbol
              && rs[k].direction == signals[k].direction
              && rs[k].entryTime == entry.time
              && rs[k].expiryTime == exit.time
              && rs[k].outcome == Classify(rs[k].direction, entry.close, exit.close)
  {
    seq(|signals|, k requires 0 <= k < |signals| =>
      var d := signals[k].direction;
      BacktestResult(symbol, d, entry.time, exit.time,
                     Classify(d, entry.close, exit.close), Reason(entry.close, exit.close)))
  }

  /** The values of `f` at `i`, `i + 1`, ..., `n - 1`. */
  function Tabulate<T>(f: nat -> T, i: nat, n: nat): (r: seq<T>)
    ensures |r| == if i <= n then n - i else 0
    decreases n - i
  {
    if i >= n then [] else [f(i)] + Tabulate(f, i + 1, n)
  }

  /** Every entry of a table is the value at its own index. */
  lemma {:induction false} TabulateAt<T>(f: nat -> T, i: nat, n: nat, p: nat)
    requires i <= p < n
    ensures Tabulate(f, i, n)[p - i] == f(p)
    decreases p - i
  {
    if i < p {
      TabulateAt(f, i + 1, n, p);
    }
  }

  /** Counted from the start, every entry of a table is the value at its own index. */
  lemma TabulateFromZero<T>(f: nat -> T, n: nat, p: nat)
    requires p < n
    ensures Tabulate(f, 0, n)[p] == f(p)
  {
    TabulateAt(f, 0, n, p);
  }

  /** The scanner's report at bar `p`: none before the first full window or past the end. */
  function ReportAt(symbol: string, c: seq<Candle>, p: int): seq<Signal>
  {
    if WindowSize - 1 <= p < |c| then SignalsAt(symbol, c, p) else []
  }

  /** `ReportAt` for one series, as a function of the bar. */
  function ReportFn(symbol: string, c: seq<Candle>): nat -> seq<Signal>
  {
    p => ReportAt(symbol, c, p)
  }

  /** Applying `ReportFn` gives the report at that bar. */
  lemma ReportFnAt(symbol: string, c: seq<Candle>, p: nat)
    ensures ReportFn(symbol, c)(p) == ReportAt(symbol, c, p)
  {
  }

  /**
    The scanner's reports at every bar of the series. Kept as a value so that
    the trade lemmas below can speak of the reports without recomputing them.
   */
  function Scans(symbol: string, c: seq<Candle>): (scans: seq<seq<Signal>>)
    ensures |scans| == |c|
  {
    Tabulate(ReportFn(symbol, c), 0, |c|)
  }

  /** The entry of `Scans` at a bar is `ReportFn` applied to it. */
  lemma ScansEntry(symbol: string, c: seq<Candle>, p: nat)
    requires p < |c|
    ensures Scans(symbol, c)[p] == ReportFn(symbol, c)(p)
  {
    TabulateFromZero(ReportFn(symbol, c), |c|, p);
  }

  /** `Scans` holds, at every window position, exactly what the scanner reports there. */
  lemma ScansAt(symbol: string, c: seq<Candle>, p: int)
    requires WindowSize - 1 <= p < |c|
    ensures Scans(symbol, c)[p] == SignalsAt(symbol, c, p)
  {
    ScansEntry(symbol, c, p);
    ReportFnAt(symbol, c, p);
  }

  /** Trade `r` of `symbol` enters and exits at the bars window position `p` shifts to. */
  ghost predicate EnteredAt(c: seq<Candle>, symbol: string, r: BacktestResult, p: int, delayMin: int, expiryMin: int)
  {
    && Tradable(c, p, delayMin, expiryMin)
    && r.symbol == symbol
    && r.entryTime == c[p + delayMin].time
    && r.expiryTime == c[p + delayMin + expiryMin].time
    && r.outcome == Classify(r.direction, c[p + delayMin].close, c[p + delayMin + expiryMin].close)
  }

  /**
    Trade `r` was opened at window position `p` for one of the signals
    reported there (`scans[p]`), in that signal's direction.
   */
  ghost predicate OpenedAt(c: seq<Candle>, scans: seq<seq<Signal>>, symbol: string, r: BacktestResult, p: int,
                           delayMin: int, expiryMin: int)
  {
    && 0 <= p < |scans|
    && (exists s :: s in scans[p] && s.direction == r.direction)
    && EnteredAt(c, symbol, r, p, delayMin, expiryMin)
  }

  /**
    From index `j` on, `rs` holds one trade per signal of `signals`, in their
    order, each entered at window position `p` in its signal's direction.
   */
  ghost predicate BlockAt(rs: seq<BacktestResult>, j: int, signals: seq<Signal>, c: seq<Candle>, symbol: string,
                          p: int, delayMin: int, expiryMin: int)
  {
    && 0 <= j && j + |signals| <= |rs|
    && forall k :: 0 <= k < |signals| ==>
         rs[j + k].direction == signals[k].direction && EnteredAt(c, symbol, rs[j + k], p, delayMin, expiryMin)
  }

  /**
    The trades opened at window position `i` for the scanner's `signals`
    there: one per signal, in order, when the exit bar lies inside the
    series; none otherwise.
   */
  function ResultsAt(symbol: string, c: seq<Candle>, i: int, signals: seq<Signal>, delayMin: int, expiryMin: int)
    : (rs: seq<BacktestResult>)
    requires WindowSize - 1 <= i < |c|
    requires SafeShifts(delayMin, expiryMin)
    ensures |rs| == if Tradable(c, i, delayMin, expiryMin) then |signals| else 0
    ensures Tradable(c, i, delayMin, expiryMin) ==> BlockAt(rs, 0, signals, c, symbol, i, delayMin, expiryMin)
    ensures forall k :: 0 <= k < |rs| ==>
              rs[k].direction == signals[k].direction && EnteredAt(c, symbol, rs[k], i, delayMin, expiryMin)
  {
    if |signals| == 0 then []
    else
      var entryIdx := i + delayMin;
      var exitIdx := entryIdx + expiryMin;
      if exitIdx >= |c| then []
      else Trades(symbol, signals, c[entryIdx], c[exitIdx])
  }

  /** Trade `r` was opened at some window position from `i` on. */
  ghost predicate OpenedFrom(c: seq<Candle>, scans: seq<seq<Signal>>, symbol: string, r: BacktestResult, i: int,
                             delayMin: int, expiryMin: int)
  {
    exists p :: i <= p < |c| && OpenedAt(c, scans, symbol, r, p, delayMin, expiryMin)
  }

  /** The trades of window positions `i` onward, in window order, for the reports `scans`. */
  function ResultsFrom(symbol: string, c: seq<Candle>, scans: seq<seq<Signal>>, i: int, delayMin: int, expiryMin: int)
    : (rs: seq<BacktestResult>)
    requires WindowSize - 1 <= i
    requires |scans| == |c|
    requires SafeShifts(delayMin, expiryMin)
    ensures forall k :: 0 <= k < |rs| ==> OpenedFrom(c, scans, symbol, rs[k], i, delayMin, expiryMin)
    ensures |rs| > 0 ==> i + delayMin + expiryMin < |c|
    decreases |c| - i
  {
    if i >= |c| then []
    else
      var here := ResultsAt(symbol, c, i, scans[i], delayMin, expiryMin);
      var rest := ResultsFrom(symbol, c, scans, i + 1, delayMin, expiryMin);
      var all := here + rest;
      ResultsFromStep(symbol, c, scans, i, here, rest, all, delayMin, expiryMin);
      all
  }

  /** Every trade of `here` comes from position `i` and every trade of `rest` from a later one. */
  lemma ResultsFromStep(symbol: string, c: seq<Candle>, scans: seq<seq<Signal>>, i: int, here: seq<BacktestResult>,
                        rest: seq<BacktestResult>, all: seq<BacktestResult>, delayMin: int, expiryMin: int)
    requires WindowSize - 1 <= i < |c| == |scans|
    requires all == here + rest
    requires |here| <= |scans[i]|
    requires forall k :: 0 <= k < |here| ==>
               here[k].direction == scans[i][k].direction && EnteredAt(c, symbol, here[k], i, delayMin, expiryMin)
    requires forall k :: 0 <= k < |rest| ==> OpenedFrom(c, scans, symbol, rest[k], i + 1, delayMin, expiryMin)
    ensures forall k :: 0 <= k < |all| ==> OpenedFrom(c, scans, symbol, all[k], i, delayMin, expiryMin)
  {
    forall k | 0 <= k < |all| ensures OpenedFrom(c, scans, symbol, all[k], i, delayMin, expiryMin) {
      if k < |here| {
        assert all[k] == here[k];
        assert scans[i][k] in scans[i];
        assert OpenedAt(c, scans, symbol, all[k], i, delayMin, expiryMin);
      } else {
        assert all[k] == rest[k - |here|];
        var p :| i + 1 <= p < |c| && OpenedAt(c, scans, symbol, rest[k - |here|], p, delayMin, expiryMin);
        assert OpenedAt(c, scans, symbol, all[k], p, delayMin, expiryMin);
      }
    }
  }

  /** The trades of positions `i` onward are those of `i` followed by those of later positions. */
  lemma ResultsFromSplit(symbol: string, c: seq<Candle>, scans: seq<seq<Signal>>, i: int, delayMin: int, expiryMin: int)
    requires WindowSize - 1 <= i < |c| == |scans|
    requires SafeShifts(delayMin, expiryMin)
    ensures ResultsFrom(symbol, c, scans, i, delayMin, expiryMin)
            == ResultsAt(symbol, c, i, scans[i], delayMin, expiryMin)
               + ResultsFrom(symbol, c, scans, i + 1, delayMin, expiryMin)
  {
  }

  /** A block of `a` is still a block of `a + b`, at the same index. */
  lemma BlockAppend(a: seq<BacktestResult>, b: seq<BacktestResult>, j: int, signals: seq<Signal>, c: seq<Candle>,
                    symbol: string, p: int, delayMin: int, expiryMin: int)
    requires BlockAt(a, j, signals, c, symbol, p, delayMin, expiryMin)
    ensures BlockAt(a + b, j, signals, c, symbol, p, delayMin, expiryMin)
  {
    forall m | j <= m < j + |signals| ensures (a + b)[m] == a[m] { }
  }

  /** A block of `b` at `j` is a block of `a + b` at `at`, which is `j` shifted by `|a|`. */
  lemma BlockPrepend(a: seq<BacktestResult>, b: seq<BacktestResult>, j: int, at: int, signals: seq<Signal>,
                     c: seq<Candle>, symbol: string, p: int, delayMin: int, expiryMin: int)
    requires BlockAt(b, j, signals, c, symbol, p, delayMin, expiryMin)
    requires at == |a| + j
    ensures BlockAt(a + b, at, signals, c, symbol, p, delayMin, expiryMin)
  {
    forall m | j <= m < j + |signals| ensures (a + b)[|a| + m] == b[m] { }
  }

  /** The number of trades window positions `i` onward can open: their report counts, where tradable. */
  function TradeSlots(c: seq<Candle>, scans: seq<seq<Signal>>, i: int, delayMin: int, expiryMin: int): nat
    requires 0 <= i
    requires |scans| == |c|
    decreases |c| - i
  {
    if i >= |c| then 0
    else (if Tradable(c, i, delayMin, expiryMin) then |scans[i]| else 0)
         + TradeSlots(c, scans, i + 1, delayMin, expiryMin)
  }

  /**
    Where the block of window position `p` starts among the trades of
    positions `i` onward: the trade slots of the positions in between.
   */
  function SlotsBetween(c: seq<Candle>, scans: seq<seq<Signal>>, i: int, p: int, delayMin: int, expiryMin: int): int
    requires 0 <= i <= p
    requires |scans| == |c|
  {
    TradeSlots(c, scans, i, delayMin, expiryMin) - TradeSlots(c, scans, p, delayMin, expiryMin)
  }

  /** Later window positions have no more trade slots left. */
  lemma {:induction false} TradeSlotsMonotone(c: seq<Candle>, scans: seq<seq<Signal>>, i: int, q: int,
                                              delayMin: int, expiryMin: int)
    requires 0 <= i <= q
    requires |scans| == |c|
    ensures TradeSlots(c, scans, q, delayMin, expiryMin) <= TradeSlots(c, scans, i, delayMin, expiryMin)
    decreases q - i
  {
    if i < q && i < |c| {
      TradeSlotsMonotone(c, scans, i + 1, q, delayMin, expiryMin);
    }
  }

  /**
    The blocks of one series follow window order without overlapping: the
    block of a tradable position `p` ends where that of any later `q` may start.
   */
  lemma BlocksInWindowOrder(c: seq<Candle>, scans: seq<seq<Signal>>, i: int, p: int, q: int,
                            delayMin: int, expiryMin: int)
    requires 0 <= i <= p < q
    requires p < |c| == |scans|
    requires Tradable(c, p, delayMin, expiryMin)
    ensures SlotsBetween(c, scans, i, p, delayMin, expiryMin) + |scans[p]|
            <= SlotsBetween(c, scans, i, q, delayMin, expiryMin)
  {
    TradeSlotsMonotone(c, scans, p + 1, q, delayMin, expiryMin);
  }

  /**
    Where the block of a tradable position `p` sits among the trades of
    positions `i` onward: after the trade slots of the positions before it.
   */
  lemma {:induction false} ResultsFromBlock(symbol: string, c: seq<Candle>, scans: seq<seq<Signal>>, i: int, p: int,
                                            delayMin: int, expiryMin: int) returns (j: int)
    requires WindowSize - 1 <= i <= p < |c| == |scans|
    requires SafeShifts(delayMin, expiryMin)
    requires Tradable(c, p, delayMin, expiryMin)
    ensures j == SlotsBetween(c, scans, i, p, delayMin, expiryMin)
    ensures BlockAt(ResultsFrom(symbol, c, scans, i, delayMin, expiryMin), j, scans[p], c, symbol, p, delayMin, expiryMin)
    decreases p - i
  {
    var here := ResultsAt(symbol, c, i, scans[i], delayMin, expiryMin);
    var rest := ResultsFrom(symbol, c, scans, i + 1, delayMin, expiryMin);
    ResultsFromSplit(symbol, c, scans, i, delayMin, expiryMin);
    if p == i {
      BlockAppend(here, rest, 0, scans[p], c, symbol, p, delayMin, expiryMin);
      j := 0;
    } else {
      var k := ResultsFromBlock(symbol, c, scans, i + 1, p, delayMin, expiryMin);
      j := |here| + k;
      BlockPrepend(here, rest, k, j, scans[p], c, symbol, p, delayMin, expiryMin);
    }
  }

  /**
    No trade is missed: for every tradable window position `p` from `i` on,
    the trades of `i` onward hold one trade per report at `p`, in order,
    right after the trade slots of the positions before `p`.
   */
  lemma ResultsFromComplete(symbol: string, c: seq<Candle>, scans: seq<seq<Signal>>, i: int, p: int,
                            delayMin: int, expiryMin: int)
    requires WindowSize - 1 <= i <= p < |c| == |scans|
    requires SafeShifts(delayMin, expiryMin)
    requires Tradable(c, p, delayMin, expiryMin)
    ensures BlockAt(ResultsFrom(symbol, c, scans, i, delayMin, expiryMin), SlotsBetween(c, scans, i, p, delayMin, expiryMin),
                    scans[p], c, symbol, p, delayMin, expiryMin)
  {
    var j := ResultsFromBlock(symbol, c, scans, i, p, delayMin, expiryMin);
  }

  /** Nothing beyond the blocks is reported: the trade count is the sum of the tradable report counts. */
  lemma {:induction false} ResultsFromCount(symbol: string, c: seq<Candle>, scans: seq<seq<Signal>>, i: int,
                                            delayMin: int, expiryMin: int)
    requires WindowSize - 1 <= i
    requires |scans| == |c|
    requires SafeShifts(delayMin, expiryMin)
    ensures |ResultsFrom(symbol, c, scans, i, delayMin, expiryMin)| == TradeSlots(c, scans, i, delayMin, expiryMin)
    decreases |c| - i
  {
    if i < |c| {
      ResultsFromCount(symbol, c, scans, i + 1, delayMin, expiryMin);
    }
  }

  /** The trades of one symbol: none for a short or unsorted series. */
  function SymbolResults(symbol: string, c: seq<Candle>, delayMin: int, expiryMin: int)
    : (rs: seq<BacktestResult>)
    requires SafeShifts(delayMin, expiryMin)
    ensures |c| < WindowSize || !Sorted(c) ==> rs == []
    ensures forall k :: 0 <= k < |rs| ==>
              OpenedFrom(c, Scans(symbol, c), symbol, rs[k], WindowSize - 1, delayMin, expiryMin)
  {
    if |c| < WindowSize || !Sorted(c) then []
    else ResultsFrom(symbol, c, Scans(symbol, c), WindowSize - 1, delayMin, expiryMin)
  }

  /**
    A long enough, sorted series yields exactly its trade slots, and for every
    tradable window position the block of one trade per signal the scanner
    reports there, right after the trade slots of the earlier positions.
   */
  lemma SymbolResultsComplete(symbol: string, c: seq<Candle>, p: int, delayMin: int, expiryMin: int)
    requires SafeShifts(delayMin, expiryMin)
    requires |c| >= WindowSize && Sorted(c)
    requires WindowSize - 1 <= p < |c| && Tradable(c, p, delayMin, expiryMin)
    ensures |SymbolResults(symbol, c, delayMin, expiryMin)|
            == TradeSlots(c, Scans(symbol, c), WindowSize - 1, delayMin, expiryMin)
    ensures BlockAt(SymbolResults(symbol, c, delayMin, expiryMin),
                    SlotsBetween(c, Scans(symbol, c), WindowSize - 1, p, delayMin, expiryMin),
                    SignalsAt(symbol, c, p), c, symbol, p, delayMin, expiryMin)
  {
    var scans := Scans(symbol, c);
    ResultsFromCount(symbol, c, scans, WindowSize - 1, delayMin, expiryMin);
    ResultsFromComplete(symbol, c, scans, WindowSize - 1, p, delayMin, expiryMin);
    ScansAt(symbol, c, p);
  }

  /**
    Trade `r` comes from the data: some entry of `data` for `r`'s symbol has
    a long enough, sorted series in which `r` was opened at a window position
    for one of the scanner's signals there.
   */
  ghost predicate FromData(data: seq<(string, seq<Candle>)>, r: BacktestResult, delayMin: int, expiryMin: int)
  {
    exists k :: 0 <= k < |data| && data[k].0 == r.symbol
                && |data[k].1| >= WindowSize && Sorted(data[k].1)
                && OpenedFrom(data[k].1, Scans(data[k].0, data[k].1), r.symbol, r, WindowSize - 1, delayMin, expiryMin)
  }

  /** The trades of every symbol, in the order the symbols are given. */
  function AllResults(data: seq<(string, seq<Candle>)>, delayMin: int, expiryMin: int)
    : seq<BacktestResult>
    requires SafeShifts(delayMin, expiryMin)
  {
    if |data| == 0 then []
    else AllResults(data[..|data| - 1], delayMin, expiryMin)
           + SymbolResults(data[|data| - 1].0, data[|data| - 1].1, delayMin, expiryMin)
  }

  /** A run's trades are those of all symbols but the last, followed by the last symbol's. */
  lemma AllResultsSplit(data: seq<(string, seq<Candle>)>, delayMin: int, expiryMin: int)
    requires SafeShifts(delayMin, expiryMin)
    requires |data| > 0
    ensures AllResults(data, delayMin, expiryMin)
            == AllResults(data[..|data| - 1], delayMin, expiryMin)
               + SymbolResults(data[|data| - 1].0, data[|data| - 1].1, delayMin, expiryMin)
  {
  }

  /** Aggregate counters as the run loop keeps them. */
  datatype Tally = Tally(total: int, wins: int, losses: int, neutrals: int)

  function Count(rs: seq<BacktestResult>, o: Outcome): (n: nat)
    ensures n <= |rs|
  {
    if |rs| == 0 then 0
    else Count(rs[..|rs| - 1], o) + (if rs[|rs| - 1].outcome == o then 1 else 0)
  }

  /** The counters after appending each result of `rs` in turn. */
  function TallyOf(rs: seq<BacktestResult>): (t: Tally)
    ensures t.total == |rs|
    ensures t.wins == Count(rs, Win) && t.losses == Count(rs, Loss) && t.neutrals == Count(rs, Neutral)
    ensures t.wins + t.losses + t.neutrals == t.total
  {
    if |rs| == 0 then Tally(0, 0, 0, 0)
    else
      var t := TallyOf(rs[..|rs| - 1]);
      match rs[|rs| - 1].outcome
      case Win => t.(total := t.total + 1, wins := t.wins + 1)
      case Loss => t.(total := t.total + 1, losses := t.losses + 1)
      case Neutral => t.(total := t.total + 1, neutrals := t.neutrals + 1)
  }

  /** Wins over decisive trades; zero when no trade was decisive. */
  function Accuracy(wins: nat, losses: nat): (a: real)
    ensures 0.0 <= a <= 1.0
    ensures wins + losses == 0 ==> a == 0.0
    ensures wins + losses > 0 ==> a * ((wins + losses) as real) == wins as real
  {
    if wins + losses > 0 then (wins as real) / ((wins + losses) as real) else 0.0
  }

  /** The report over `results`: counters by outcome and the accuracy over decisive trades. */
  function ReportOf(results: seq<BacktestResult>): (rep: BacktestReport)
    ensures rep.results == results
    ensures rep.total == |results|
    ensures rep.wins == Count(results, Win) && rep.losses == Count(results, Loss)
    ensures rep.neutrals == Count(results, Neutral)
    ensures rep.wins + rep.losses + rep.neutrals == rep.total
    ensures rep.accuracy == Accuracy(Count(results, Win), Count(results, Loss))
  {
    var t := TallyOf(results);
    var a := Accuracy(t.wins, t.losses);
    BacktestReport(results, a, t.total, t.wins, t.losses, t.neutrals)
  }

  /**
    `BacktestSignals`: durations are integer nanoseconds and are turned into
    whole bars by truncating division by a minute. Every reported trade was
    opened in its own symbol's series for a signal the scanner reported
    there, the number of trades is the data's trade slots, and the counters
    and the accuracy agree with the reported trades.
   */
  function BacktestSignals(data: seq<(string, seq<Candle>)>, delayBeforeEntry: int, expiry: int)
    : (rep: BacktestReport)
    requires SafeShifts(WholeMinutes(delayBeforeEntry), WholeMinutes(expiry))
    ensures forall k :: 0 <= k < |rep.results| ==>
              FromData(data, rep.results[k], WholeMinutes(delayBeforeEntry), WholeMinutes(expiry))
    ensures rep.total == |rep.results| == DataSlots(data, WholeMinutes(delayBeforeEntry), WholeMinutes(expiry))
    ensures rep.wins == Count(rep.results, Win) && rep.losses == Count(rep.results, Loss)
    ensures rep.neutrals == Count(rep.results, Neutral)
    ensures rep.accuracy == Accuracy(rep.wins, rep.losses)
  {
    var dm, em := WholeMinutes(delayBeforeEntry), WholeMinutes(expiry);
    var rs := AllResults(data, dm, em);
    AllResultsFromData(data, dm, em, rs);
    AllResultsCount(data, dm, em, rs);
    var rep := ReportOf(rs);
    assert rep.results == rs;
    rep
  }

  /** Every trade of a run comes from the data. */
  lemma {:induction false} AllResultsFromData(data: seq<(string, seq<Candle>)>, delayMin: int, expiryMin: int,
                                               rs: seq<BacktestResult>)
    requires SafeShifts(delayMin, expiryMin)
    requires rs == AllResults(data, delayMin, expiryMin)
    ensures forall k :: 0 <= k < |rs| ==> FromData(data, rs[k], delayMin, expiryMin)
  {
    if |data| > 0 {
      var n := |data|;
      var pre := data[..n - 1];
      var a, b := AllResults(pre, delayMin, expiryMin), SymbolResults(data[n - 1].0, data[n - 1].1, delayMin, expiryMin);
      AllResultsFromData(pre, delayMin, expiryMin, a);
      AllResultsSplit(data, delayMin, expiryMin);
      ConcatFromData(data, pre, data[n - 1].0, data[n - 1].1, a, b, rs, delayMin, expiryMin);
    }
  }

  /** Trades from a prefix of the data followed by the last symbol's trades all come from the data. */
  lemma ConcatFromData(data: seq<(string, seq<Candle>)>, pre: seq<(string, seq<Candle>)>, symbol: string,
                       c: seq<Candle>, a: seq<BacktestResult>, b: seq<BacktestResult>, rs: seq<BacktestResult>,
                       delayMin: int, expiryMin: int)
    requires |data| > 0 && pre == data[..|data| - 1] && data[|data| - 1] == (symbol, c) && rs == a + b
    requires forall k :: 0 <= k < |a| ==> FromData(pre, a[k], delayMin, expiryMin)
    requires |b| > 0 ==> |c| >= WindowSize && Sorted(c)
    requires forall k :: 0 <= k < |b| ==> OpenedFrom(c, Scans(symbol, c), symbol, b[k], WindowSize - 1, delayMin, expiryMin)
    ensures forall k :: 0 <= k < |rs| ==> FromData(data, rs[k], delayMin, expiryMin)
  {
    forall k | 0 <= k < |rs| ensures FromData(data, rs[k], delayMin, expiryMin) {
      if k < |a| {
        assert rs[k] == a[k];
        FromPrefix(data, pre, a[k], delayMin, expiryMin);
      } else {
        assert rs[k] == b[k - |a|];
        FromLast(data, symbol, c, b[k - |a|], delayMin, expiryMin);
      }
    }
  }

  /** A trade from a prefix of the data comes from the data. */
  lemma FromPrefix(data: seq<(string, seq<Candle>)>, pre: seq<(string, seq<Candle>)>, r: BacktestResult,
                   delayMin: int, expiryMin: int)
    requires |pre| <= |data| && pre == data[..|pre|]
    requires FromData(pre, r, delayMin, expiryMin)
    ensures FromData(data, r, delayMin, expiryMin)
  {
    var j :| 0 <= j < |pre| && pre[j].0 == r.symbol
             && |pre[j].1| >= WindowSize && Sorted(pre[j].1)
             && OpenedFrom(pre[j].1, Scans(pre[j].0, pre[j].1), r.symbol, r, WindowSize - 1, delayMin, expiryMin);
    assert data[j] == pre[j];
  }

  /** A trade opened in the last symbol's series, when that series is tradable, comes from the data. */
  lemma FromLast(data: seq<(string, seq<Candle>)>, symbol: string, c: seq<Candle>, r: BacktestResult,
                 delayMin: int, expiryMin: int)
    requires |data| > 0 && data[|data| - 1] == (symbol, c)
    requires |c| >= WindowSize && Sorted(c)
    requires OpenedFrom(c, Scans(symbol, c), symbol, r, WindowSize - 1, delayMin, expiryMin)
    ensures FromData(data, r, delayMin, expiryMin)
  {
    var p :| WindowSize - 1 <= p < |c| && OpenedAt(c, Scans(symbol, c), symbol, r, p, delayMin, expiryMin);
    assert r.symbol == symbol;
  }

  /** The trade slots of a series entry of a run: none unless it is long enough and sorted. */
  function EntrySlots(symbol: string, c: seq<Candle>, delayMin: int, expiryMin: int): nat
  {
    if |c| >= WindowSize && Sorted(c) then TradeSlots(c, Scans(symbol, c), WindowSize - 1, delayMin, expiryMin) else 0
  }

  /** The number of trades a run over `data` can open: each tradable symbol's trade slots. */
  function DataSlots(data: seq<(string, seq<Candle>)>, delayMin: int, expiryMin: int): nat
  {
    if |data| == 0 then 0
    else
      var (symbol, c) := data[|data| - 1];
      DataSlots(data[..|data| - 1], delayMin, expiryMin) + EntrySlots(symbol, c, delayMin, expiryMin)
  }

  /** A run reports exactly as many trades as its symbols have trade slots. */
  lemma {:induction false} AllResultsCount(data: seq<(string, seq<Candle>)>, delayMin: int, expiryMin: int,
                                           rs: seq<BacktestResult>)
    requires SafeShifts(delayMin, expiryMin)
    requires rs == AllResults(data, delayMin, expiryMin)
    ensures |rs| == DataSlots(data, delayMin, expiryMin)
  {
    if |data| > 0 {
      var n := |data|;
      var (symbol, c) := data[n - 1];
      var a := AllResults(data[..n - 1], delayMin, expiryMin);
      AllResultsCount(data[..n - 1], delayMin, expiryMin, a);
      if |c| >= WindowSize && Sorted(c) {
        ResultsFromCount(symbol, c, Scans(symbol, c), WindowSize - 1, delayMin, expiryMin);
      }
    }
  }

  /**
    Where the block of window position `p` of entry `k` starts among a run's
    trades: after the trade slots of the earlier entries and of the earlier
    positions of its own series.
   */
  function RunOffset(data: seq<(string, seq<Candle>)>, k: int, p: int, delayMin: int, expiryMin: int): int
    requires 0 <= k < |data| && WindowSize - 1 <= p
  {
    DataSlots(data[..k], delayMin, expiryMin)
    + SlotsBetween(data[k].1, Scans(data[k].0, data[k].1), WindowSize - 1, p, delayMin, expiryMin)
  }

  /** The trades of a long enough, sorted series hold the block of every tradable window position. */
  lemma SymbolBlock(symbol: string, c: seq<Candle>, b: seq<BacktestResult>, p: int, delayMin: int, expiryMin: int)
    requires SafeShifts(delayMin, expiryMin)
    requires b == SymbolResults(symbol, c, delayMin, expiryMin)
    requires |c| >= WindowSize && Sorted(c)
    requires WindowSize - 1 <= p < |c| && Tradable(c, p, delayMin, expiryMin)
    ensures BlockAt(b, SlotsBetween(c, Scans(symbol, c), WindowSize - 1, p, delayMin, expiryMin), Scans(symbol, c)[p],
                    c, symbol, p, delayMin, expiryMin)
  {
    ResultsFromComplete(symbol, c, Scans(symbol, c), WindowSize - 1, p, delayMin, expiryMin);
  }

  /** The last entry's blocks follow the earlier entries' trades in the run. */
  lemma LastEntryBlock(data: seq<(string, seq<Candle>)>, delayMin: int, expiryMin: int, symbol: string,
                       c: seq<Candle>, p: int, at: int)
    requires SafeShifts(delayMin, expiryMin)
    requires |data| > 0 && data[|data| - 1] == (symbol, c) && |c| >= WindowSize && Sorted(c)
    requires WindowSize - 1 <= p < |c| && Tradable(c, p, delayMin, expiryMin)
    requires at == DataSlots(data[..|data| - 1], delayMin, expiryMin)
                   + SlotsBetween(c, Scans(symbol, c), WindowSize - 1, p, delayMin, expiryMin)
    ensures BlockAt(AllResults(data, delayMin, expiryMin), at, Scans(symbol, c)[p], c, symbol, p, delayMin, expiryMin)
  {
    var a := AllResults(data[..|data| - 1], delayMin, expiryMin);
    var b := SymbolResults(symbol, c, delayMin, expiryMin);
    AllResultsSplit(data, delayMin, expiryMin);
    AllResultsCount(data[..|data| - 1], delayMin, expiryMin, a);
    SymbolBlock(symbol, c, b, p, delayMin, expiryMin);
    var j := SlotsBetween(c, Scans(symbol, c), WindowSize - 1, p, delayMin, expiryMin);
    BlockPrepend(a, b, j, at, Scans(symbol, c)[p], c, symbol, p, delayMin, expiryMin);
  }

  /** A block among the earlier entries' trades keeps its index in the run. */
  lemma PrefixEntryBlock(data: seq<(string, seq<Candle>)>, pre: seq<(string, seq<Candle>)>, delayMin: int,
                         expiryMin: int, at: int, signals: seq<Signal>, c: seq<Candle>, symbol: string, p: int)
    requires SafeShifts(delayMin, expiryMin)
    requires |data| > 0 && pre == data[..|data| - 1]
    requires BlockAt(AllResults(pre, delayMin, expiryMin), at, signals, c, symbol, p, delayMin, expiryMin)
    ensures BlockAt(AllResults(data, delayMin, expiryMin), at, signals, c, symbol, p, delayMin, expiryMin)
  {
    var a := AllResults(pre, delayMin, expiryMin);
    var b := SymbolResults(data[|data| - 1].0, data[|data| - 1].1, delayMin, expiryMin);
    AllResultsSplit(data, delayMin, expiryMin);
    BlockAppend(a, b, at, signals, c, symbol, p, delayMin, expiryMin);
  }

  /** Dropping the last entry changes no earlier entry's offset. */
  lemma RunOffsetPrefix(data: seq<(string, seq<Candle>)>, pre: seq<(string, seq<Candle>)>, k: int, p: int,
                        delayMin: int, expiryMin: int)
    requires |data| > 0 && pre == data[..|data| - 1]
    requires 0 <= k < |pre| && WindowSize - 1 <= p
    ensures RunOffset(pre, k, p, delayMin, expiryMin) == RunOffset(data, k, p, delayMin, expiryMin)
  {
    assert pre[..k] == data[..k];
    assert pre[k] == data[k];
  }

  /**
    A run misses no trade: for every symbol entry with a long enough, sorted
    series and every tradable window position in it, the run's trades hold
    one trade per report there, in order, at the position's run offset.
   */
  lemma {:induction false} AllResultsComplete(data: seq<(string, seq<Candle>)>, delayMin: int, expiryMin: int,
                                              rs: seq<BacktestResult>, k: int, p: int)
    requires SafeShifts(delayMin, expiryMin)
    requires rs == AllResults(data, delayMin, expiryMin)
    requires 0 <= k < |data| && |data[k].1| >= WindowSize && Sorted(data[k].1)
    requires WindowSize - 1 <= p < |data[k].1| && Tradable(data[k].1, p, delayMin, expiryMin)
    ensures BlockAt(rs, RunOffset(data, k, p, delayMin, expiryMin), Scans(data[k].0, data[k].1)[p], data[k].1,
                    data[k].0, p, delayMin, expiryMin)
  {
    var pre := data[..|data| - 1];
    var at := RunOffset(data, k, p, delayMin, expiryMin);
    if k == |data| - 1 {
      LastEntryBlock(data, delayMin, expiryMin, data[k].0, data[k].1, p, at);
    } else {
      assert pre[k] == data[k];
      AllResultsComplete(pre, delayMin, expiryMin, AllResults(pre, delayMin, expiryMin), k, p);
      RunOffsetPrefix(data, pre, k, p, delayMin, expiryMin);
      PrefixEntryBlock(data, pre, delayMin, expiryMin, at, Scans(data[k].0, data[k].1)[p], data[k].1, data[k].0, p);
    }
  }

  /** Longer prefixes of a run have no fewer trade slots. */
  lemma {:induction false} DataSlotsMonotone(data: seq<(string, seq<Candle>)>, m: int, n: int,
                                             delayMin: int, expiryMin: int)
    requires 0 <= m <= n <= |data|
    ensures DataSlots(data[..m], delayMin, expiryMin) <= DataSlots(data[..n], delayMin, expiryMin)
    decreases n - m
  {
    if m < n {
      DataSlotsMonotone(data, m, n - 1, delayMin, expiryMin);
      assert data[..n][..n - 1] == data[..n - 1];
    }
  }

  /** The slots of a prefix one entry longer add that entry's slots. */
  lemma DataSlotsStep(data: seq<(string, seq<Candle>)>, k: int, delayMin: int, expiryMin: int)
    requires 0 <= k < |data|
    ensures DataSlots(data[..k + 1], delayMin, expiryMin)
            == DataSlots(data[..k], delayMin, expiryMin) + EntrySlots(data[k].0, data[k].1, delayMin, expiryMin)
  {
    assert data[..k + 1][..k] == data[..k];
    assert data[..k + 1][k] == data[k];
  }

  /**
    The blocks of a run do not overlap and follow the order of the entries,
    then of the window positions: the block of position `p1` of entry `k1`
    ends where that of any later (entry, position) pair may start.
   */
  lemma RunBlocksInOrder(data: seq<(string, seq<Candle>)>, delayMin: int, expiryMin: int, k1: int, p1: int,
                         k2: int, p2: int)
    requires 0 <= k1 < |data| && |data[k1].1| >= WindowSize && Sorted(data[k1].1)
    requires WindowSize - 1 <= p1 < |data[k1].1| && Tradable(data[k1].1, p1, delayMin, expiryMin)
    requires 0 <= k2 < |data| && WindowSize - 1 <= p2
    requires k1 < k2 || (k1 == k2 && p1 < p2)
    ensures RunOffset(data, k1, p1, delayMin, expiryMin) + |Scans(data[k1].0, data[k1].1)[p1]|
            <= RunOffset(data, k2, p2, delayMin, expiryMin)
  {
    var c1, scans1 := data[k1].1, Scans(data[k1].0, data[k1].1);
    if k1 == k2 {
      BlocksInWindowOrder(c1, scans1, WindowSize - 1, p1, p2, delayMin, expiryMin);
    } else {
      var c2, scans2 := data[k2].1, Scans(data[k2].0, data[k2].1);
      assert TradeSlots(c1, scans1, p1, delayMin, expiryMin)
             >= |scans1[p1]| + TradeSlots(c1, scans1, p1 + 1, delayMin, expiryMin);
      DataSlotsStep(data, k1, delayMin, expiryMin);
      DataSlotsMonotone(data, k1 + 1, k2, delayMin, expiryMin);
      TradeSlotsMonotone(c2, scans2, WindowSize - 1, p2, delayMin, expiryMin);
    }
  }

  /**
    Completeness of the report: every tradable window position of every long
    enough, sorted series contributes one trade per signal the scanner
    reports there, in the signal's order and direction, at the position's run
    offset, so that distinct positions never share trades.
   */
  lemma BacktestSignalsComplete(data: seq<(string, seq<Candle>)>, delayBeforeEntry: int, expiry: int, k: int, p: int)
    requires SafeShifts(WholeMinutes(delayBeforeEntry), WholeMinutes(expiry))
    requires 0 <= k < |data| && |data[k].1| >= WindowSize && Sorted(data[k].1)
    requires WindowSize - 1 <= p < |data[k].1|
    requires Tradable(data[k].1, p, WholeMinutes(delayBeforeEntry), WholeMinutes(expiry))
    ensures BlockAt(BacktestSignals(data, delayBeforeEntry, expiry).results,
                    RunOffset(data, k, p, WholeMinutes(delayBeforeEntry), WholeMinutes(expiry)),
                    SignalsAt(data[k].0, data[k].1, p), data[k].1, data[k].0, p,
                    WholeMinutes(delayBeforeEntry), WholeMinutes(expiry))
  {
    var dm, em := WholeMinutes(delayBeforeEntry), WholeMinutes(expiry);
    var rs := AllResults(data, dm, em);
    assert BacktestSignals(data, delayBeforeEntry, expiry).results == rs;
    AllResultsComplete(data, dm, em, rs, k, p);
    ScansAt(data[k].0, data[k].1, p);
  }

  /** One winning and one losing trade give two trades and an accuracy of one half. */
  lemma WinLossReport(w: BacktestResult, l: BacktestResult)
    requires w.outcome == Win && l.outcome == Loss
    ensures var rep := ReportOf([w, l]);
            rep.total == 2 && rep.wins == 1 && rep.losses == 1 && rep.neutrals == 0 && rep.accuracy == 0.5
  {
    assert [w, l][..1] == [w];
    assert [w][..0] == [];
  }

  /** Counting distributes over concatenation. */
  lemma {:induction false} CountAppend(a: seq<BacktestResult>, b: seq<BacktestResult>, o: Outcome)
    ensures Count(a + b, o) == Count(a, o) + Count(b, o)
    decreases |b|
  {
    if |b| == 0 {
      assert a + b == a;
    } else {
      var b' := b[..|b| - 1];
      assert (a + b)[..|a + b| - 1] == a + b';
      CountAppend(a, b', o);
    }
  }

  /** Taking the same element out of two permutations of each other leaves permutations. */
  lemma RemoveFromBoth<T>(a: seq<T>, x: T, pre: seq<T>, post: seq<T>)
    requires multiset(a + [x]) == multiset(pre + [x] + post)
    ensures multiset(a) == multiset(pre + post)
  {
    calc {
      multiset(a) + multiset{x};
      multiset(a + [x]);
      multiset(pre + [x] + post);
      multiset(pre) + multiset{x} + multiset(post);
      multiset(pre + post) + multiset{x};
    }
    assert multiset(a) == multiset(a) + multiset{x} - multiset{x};
    assert multiset(pre + post) == multiset(pre + post) + multiset{x} - multiset{x};
  }

  /** The blocks of trades laid end to end. */
  function Flatten(bs: seq<seq<BacktestResult>>): (r: seq<BacktestResult>)
  {
    if |bs| == 0 then [] else Flatten(bs[..|bs| - 1]) + bs[|bs| - 1]
  }

  lemma {:induction false} FlattenAppend(b1: seq<seq<BacktestResult>>, b2: seq<seq<BacktestResult>>)
    ensures Flatten(b1 + b2) == Flatten(b1) + Flatten(b2)
    decreases |b2|
  {
    if |b2| == 0 {
      assert b1 + b2 == b1;
    } else {
      var b2' := b2[..|b2| - 1];
      assert (b1 + b2)[..|b1 + b2| - 1] == b1 + b2';
      FlattenAppend(b1, b2');
    }
  }

  /** Outcome counts over laid-out blocks depend only on the multiset of blocks. */
  lemma {:induction false} CountFlattenPerm(b1: seq<seq<BacktestResult>>, b2: seq<seq<BacktestResult>>, o: Outcome)
    requires multiset(b1) == multiset(b2)
    ensures Count(Flatten(b1), o) == Count(Flatten(b2), o)
    decreases |b1|
  {
    if |b1| == 0 {
      assert |b2| == |multiset(b2)| == 0;
    } else {
      var x := b1[|b1| - 1];
      var b1' := b1[..|b1| - 1];
      var j := MatchLast(b1, b2);
      var pre, post := b2[..j], b2[j + 1..];
      assert b1 == b1' + [x];
      assert b2 == pre + [x] + post;
      CountFlattenPerm(b1', pre + post, o);
      assert b1' + [x] + [] == b1 && b1' + [] == b1';
      CountFlattenInsert(b1', [], x, o);
      CountFlattenInsert(pre, post, x, o);
    }
  }

  /** Inserting block `x` anywhere adds its trades to the count. */
  lemma CountFlattenInsert(pre: seq<seq<BacktestResult>>, post: seq<seq<BacktestResult>>,
                           x: seq<BacktestResult>, o: Outcome)
    ensures Count(Flatten(pre + [x] + post), o) == Count(Flatten(pre + post), o) + Count(x, o)
  {
    assert Flatten([x]) == x by {
      assert [x][..0] == [];
    }
    FlattenAppend(pre + [x], post);
    FlattenAppend(pre, [x]);
    CountAppend(Flatten(pre) + x, Flatten(post), o);
    CountAppend(Flatten(pre), x, o);
    FlattenAppend(pre, post);
    CountAppend(Flatten(pre), Flatten(post), o);
  }

  /** The trades of each symbol, one block per symbol. */
  function SymbolBlocks(data: seq<(string, seq<Candle>)>, delayMin: int, expiryMin: int)
    : (bs: seq<seq<BacktestResult>>)
    requires SafeShifts(delayMin, expiryMin)
    ensures |bs| == |data|
    ensures forall k :: 0 <= k < |data| ==> bs[k] == SymbolResults(data[k].0, data[k].1, delayMin, expiryMin)
  {
    seq(|data|, k requires 0 <= k < |data| => SymbolResults(data[k].0, data[k].1, delayMin, expiryMin))
  }

  /** The run's trades are the symbols' blocks laid end to end. */
  lemma {:induction false} AllResultsFlatten(data: seq<(string, seq<Candle>)>, delayMin: int, expiryMin: int)
    requires SafeShifts(delayMin, expiryMin)
    ensures AllResults(data, delayMin, expiryMin) == Flatten(SymbolBlocks(data, delayMin, expiryMin))
  {
    if |data| > 0 {
      var bs := SymbolBlocks(data, delayMin, expiryMin);
      var n := |data|;
      assert SymbolBlocks(data[..n - 1], delayMin, expiryMin) == bs[..n - 1];
      AllResultsFlatten(data[..n - 1], delayMin, expiryMin);
    }
  }

  /** Applying `f` pointwise to two permutations of each other gives permutations of each other. */
  lemma {:induction false} PermImage<A, B>(f: A -> B, d1: seq<A>, d2: seq<A>, b1: seq<B>, b2: seq<B>)
    requires multiset(d1) == multiset(d2)
    requires |b1| == |d1| && forall k :: 0 <= k < |d1| ==> b1[k] == f(d1[k])
    requires |b2| == |d2| && forall k :: 0 <= k < |d2| ==> b2[k] == f(d2[k])
    ensures multiset(b1) == multiset(b2)
    decreases |d1|
  {
    if |d1| == 0 {
      assert |d2| == |multiset(d2)| == 0;
    } else {
      var n := |d1|;
      var j := MatchLast(d1, d2);
      DropImage(f, d2, b2, j);
      PermImage(f, d1[..n - 1], d2[..j] + d2[j + 1..], b1[..n - 1], b2[..j] + b2[j + 1..]);
      ImageInsert(b1, b2, j, f(d1[n - 1]));
    }
  }

  /**
    Finds the last element of `d1` in its permutation `d2`; without it the
    two remain permutations of each other.
   */
  lemma MatchLast<T>(d1: seq<T>, d2: seq<T>) returns (j: int)
    requires |d1| > 0 && multiset(d1) == multiset(d2)
    ensures 0 <= j < |d2| && d2[j] == d1[|d1| - 1]
    ensures multiset(d1[..|d1| - 1]) == multiset(d2[..j] + d2[j + 1..])
  {
    var n := |d1|;
    var x := d1[n - 1];
    assert d1 == d1[..n - 1] + [x];
    assert x in multiset(d2);
    j :| 0 <= j < |d2| && d2[j] == x;
    assert d2 == d2[..j] + [x] + d2[j + 1..];
    RemoveFromBoth(d1[..n - 1], x, d2[..j], d2[j + 1..]);
  }

  /** Putting back the same element at the end of one and at index `j` of the other keeps permutations. */
  lemma ImageInsert<B>(b1: seq<B>, b2: seq<B>, j: int, y: B)
    requires |b1| > 0 && 0 <= j < |b2| && b1[|b1| - 1] == y && b2[j] == y
    requires multiset(b1[..|b1| - 1]) == multiset(b2[..j] + b2[j + 1..])
    ensures multiset(b1) == multiset(b2)
  {
    assert b1 == b1[..|b1| - 1] + [y];
    assert b2 == b2[..j] + [y] + b2[j + 1..];
    AddToBoth(b1[..|b1| - 1], y, b2[..j], b2[j + 1..]);
  }

  /** Dropping index `j` from a sequence and from its pointwise image keeps them pointwise related. */
  lemma DropImage<A, B>(f: A -> B, d: seq<A>, b: seq<B>, j: int)
    requires |b| == |d| && forall k :: 0 <= k < |d| ==> b[k] == f(d[k])
    requires 0 <= j < |d|
    ensures var rest, img := d[..j] + d[j + 1..], b[..j] + b[j + 1..];
            |img| == |rest| && forall k :: 0 <= k < |rest| ==> img[k] == f(rest[k])
  {
    var rest, img := d[..j] + d[j + 1..], b[..j] + b[j + 1..];
    forall k | 0 <= k < |rest| ensures img[k] == f(rest[k]) {
      if k < j {
        assert rest[k] == d[k] && img[k] == b[k];
      } else {
        assert rest[k] == d[k + 1] && img[k] == b[k + 1];
      }
    }
  }

  /** Adding the same element to two permutations of each other keeps them permutations. */
  lemma AddToBoth<T>(a: seq<T>, x: T, pre: seq<T>, post: seq<T>)
    requires multiset(a) == multiset(pre + post)
    ensures multiset(a + [x]) == multiset(pre + [x] + post)
  {
    calc {
      multiset(pre + [x] + post);
      multiset(pre) + multiset{x} + multiset(post);
      multiset(pre + post) + multiset{x};
    }
  }

  /** Reordering the symbols reorders their blocks the same way. */
  lemma SymbolBlocksPerm(d1: seq<(string, seq<Candle>)>, d2: seq<(string, seq<Candle>)>,
                         delayMin: int, expiryMin: int)
    requires SafeShifts(delayMin, expiryMin)
    requires multiset(d1) == multiset(d2)
    ensures multiset(SymbolBlocks(d1, delayMin, expiryMin)) == multiset(SymbolBlocks(d2, delayMin, expiryMin))
  {
    var f := (p: (string, seq<Candle>)) =>
               if SafeShifts(delayMin, expiryMin) then SymbolResults(p.0, p.1, delayMin, expiryMin) else [];
    PermImage(f, d1, d2, SymbolBlocks(d1, delayMin, expiryMin), SymbolBlocks(d2, delayMin, expiryMin));
  }

  /** How many trades of each outcome a batch of symbols produces. */
  function OutcomeCount(data: seq<(string, seq<Candle>)>, delayMin: int, expiryMin: int, o: Outcome): nat
    requires SafeShifts(delayMin, expiryMin)
  {
    Count(AllResults(data, delayMin, expiryMin), o)
  }

  /**
    The counters do not depend on the order in which the symbols are
    visited: any reordering of the same (symbol, candles) pairs yields the
    same number of trades of each outcome.
   */
  lemma CountsIgnoreSymbolOrder(d1: seq<(string, seq<Candle>)>, d2: seq<(string, seq<Candle>)>,
                                delayMin: int, expiryMin: int, o: Outcome)
    requires SafeShifts(delayMin, expiryMin)
    requires multiset(d1) == multiset(d2)
    ensures OutcomeCount(d1, delayMin, expiryMin, o) == OutcomeCount(d2, delayMin, expiryMin, o)
  {
    AllResultsFlatten(d1, delayMin, expiryMin);
    AllResultsFlatten(d2, delayMin, expiryMin);
    SymbolBlocksPerm(d1, d2, delayMin, expiryMin);
    CountFlattenPerm(SymbolBlocks(d1, delayMin, expiryMin), SymbolBlocks(d2, delayMin, expiryMin), o);
  }

  /** Reordering the symbols leaves every counter and the accuracy unchanged. */
  lemma ReportIgnoresSymbolOrder(d1: seq<(string, seq<Candle>)>, d2: seq<(string, seq<Candle>)>,
                                 delayBeforeEntry: int, expiry: int)
    requires SafeShifts(WholeMinutes(delayBeforeEntry), WholeMinutes(expiry))
    requires multiset(d1) == multiset(d2)
    ensures var r1, r2 := BacktestSignals(d1, delayBeforeEntry, expiry), BacktestSignals(d2, delayBeforeEntry, expiry);
            && r1.total == r2.total && r1.wins == r2.wins && r1.losses == r2.losses
            && r1.neutrals == r2.neutrals && r1.accuracy == r2.accuracy
  {
    var dm, em := WholeMinutes(delayBeforeEntry), WholeMinutes(expiry);
    CountsIgnoreSymbolOrder(d1, d2, dm, em, Win);
    CountsIgnoreSymbolOrder(d1, d2, dm, em, Loss);
    CountsIgnoreSymbolOrder(d1, d2, dm, em, Neutral);
  }

  /** A symbol whose first possible exit bar is past its end contributes no trade. */
  lemma ExitPastEndNoResults(symbol: string, c: seq<Candle>, delayMin: int, expiryMin: int)
    requires SafeShifts(delayMin, expiryMin)
    requires WindowSize - 1 + delayMin + expiryMin >= |c|
    ensures SymbolResults(symbol, c, delayMin, expiryMin) == []
  {
  }
}
