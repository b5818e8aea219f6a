/**
  The signal-pattern scanner: validates the window and indicator lengths,
  runs the three scorers, and merges their results, keeping the first
  signal for each (symbol, direction, TTL) key.
 */
module Scanner {
  import opened Types
  import opened DivergenceScorer
  import opened EmaScorer
  import opened CandlestickScorer

  /** The fewest bars the scanner accepts. */
  const MinBars: int := 20

  /** The identity under which two signals are duplicates, whatever their confidence. */
  datatype SignalKey = SignalKey(symbol: string, direction: Direction, ttl: int)

  function KeyOf(s: Signal): SignalKey
  {
    SignalKey(s.symbol, s.direction, s.ttl)
  }

  /** Some signal of `s` carries `key`. */
  ghost predicate HasKey(s: seq<Signal>, key: SignalKey)
  {
    exists i :: 0 <= i < |s| && KeyOf(s[i]) == key
  }

  /** No two signals of `s` share a key. */
  ghost predicate UniqueKeys(s: seq<Signal>)
  {
    forall i, j :: 0 <= i < j < |s| ==> KeyOf(s[i]) != KeyOf(s[j])
  }

  /** `a` is `b` with some elements dropped and the rest kept in order. */
  ghost predicate IsSubsequence<T>(a: seq<T>, b: seq<T>)
    decreases |b|
  {
    || |a| == 0
    || (&& |b| > 0
        && ((a[0] == b[0] && IsSubsequence(a[1..], b[1..])) || IsSubsequence(a, b[1..])))
  }

  /** `x` occurs in `s` with no signal of the same key before it. */
  ghost predicate FirstOfKey(s: seq<Signal>, x: Signal)
  {
    exists j :: 0 <= j < |s| && s[j] == x && forall i :: 0 <= i < j ==> KeyOf(s[i]) != KeyOf(x)
  }

  /**
    The merge loop: walks `s` in order, skipping a signal whose key is in
    `seen` and otherwise keeping it and adding its key to `seen`.
   */
  function DedupFrom(seen: set<SignalKey>, s: seq<Signal>): (r: seq<Signal>)
    ensures |r| <= |s|
    decreases |s|
  {
    if |s| == 0 then []
    else
      var key := KeyOf(s[0]);
      if key in seen then DedupFrom(seen, s[1..])
      else [s[0]] + DedupFrom(seen + {key}, s[1..])
  }

  /**
    What the merge loop keeps: signals with unique keys, none already in
    `seen`, in their original order, each the first of its key; and every
    unseen key of the input is kept.
   */
  lemma {:induction false} DedupFromSpec(seen: set<SignalKey>, s: seq<Signal>)
    ensures var r := DedupFrom(seen, s);
            && UniqueKeys(r)
            && IsSubsequence(r, s)
            && (forall k :: 0 <= k < |r| ==> KeyOf(r[k]) !in seen && FirstOfKey(s, r[k]))
            && (forall i :: 0 <= i < |s| && KeyOf(s[i]) !in seen ==> HasKey(r, KeyOf(s[i])))
    decreases |s|
  {
    if |s| > 0 {
      var key := KeyOf(s[0]);
      if key in seen {
        DedupFromSpec(seen, s[1..]);
        DedupStep(seen, s, DedupFrom(seen, s[1..]), false);
      } else {
        DedupFromSpec(seen + {key}, s[1..]);
        DedupStep(seen, s, DedupFrom(seen + {key}, s[1..]), true);
      }
    }
  }

  /** The induction step of `DedupFromSpec`, one case per branch. */
  lemma DedupStep(seen: set<SignalKey>, s: seq<Signal>, rest: seq<Signal>, keep: bool)
    requires |s| > 0
    requires keep <==> KeyOf(s[0]) !in seen
    requires var seen' := if keep then seen + {KeyOf(s[0])} else seen;
             && UniqueKeys(rest)
             && IsSubsequence(rest, s[1..])
             && (forall k :: 0 <= k < |rest| ==> KeyOf(rest[k]) !in seen' && FirstOfKey(s[1..], rest[k]))
             && (forall i :: 0 <= i < |s| - 1 && KeyOf(s[1..][i]) !in seen' ==> HasKey(rest, KeyOf(s[1..][i])))
    ensures var r := if keep then [s[0]] + rest else rest;
            && UniqueKeys(r)
            && IsSubsequence(r, s)
            && (forall k :: 0 <= k < |r| ==> KeyOf(r[k]) !in seen && FirstOfKey(s, r[k]))
            && (forall i :: 0 <= i < |s| && KeyOf(s[i]) !in seen ==> HasKey(r, KeyOf(s[i])))
  {
    var key := KeyOf(s[0]);
    var seen' := if keep then seen + {key} else seen;
    StepFirstOfKey(s, rest, seen');
    if keep {
      StepKeep(seen, s, rest);
    }
    StepCovers(seen, s, rest, keep);
  }

  /** A signal first of its key in the tail, with a key other than the head's, is first of its key in `s`. */
  lemma StepFirstOfKey(s: seq<Signal>, rest: seq<Signal>, seen': set<SignalKey>)
    requires |s| > 0 && KeyOf(s[0]) in seen'
    requires forall k :: 0 <= k < |rest| ==> KeyOf(rest[k]) !in seen' && FirstOfKey(s[1..], rest[k])
    ensures forall k :: 0 <= k < |rest| ==> FirstOfKey(s, rest[k]) && KeyOf(rest[k]) != KeyOf(s[0])
  {
    forall k | 0 <= k < |rest| ensures FirstOfKey(s, rest[k]) {
      var j :| 0 <= j < |s| - 1 && s[1..][j] == rest[k]
               && forall i :: 0 <= i < j ==> KeyOf(s[1..][i]) != KeyOf(rest[k]);
      assert s[j + 1] == rest[k];
      forall i | 0 <= i < j + 1 ensures KeyOf(s[i]) != KeyOf(rest[k]) {
        if i > 0 {
          assert s[i] == s[1..][i - 1];
        }
      }
    }
  }

  /** Keeping the head in front of a unique tail with other keys gives a unique list of first-of-key signals. */
  lemma StepKeep(seen: set<SignalKey>, s: seq<Signal>, rest: seq<Signal>)
    requires |s| > 0 && KeyOf(s[0]) !in seen
    requires UniqueKeys(rest) && IsSubsequence(rest, s[1..])
    requires forall k :: 0 <= k < |rest| ==> KeyOf(rest[k]) !in seen + {KeyOf(s[0])} && FirstOfKey(s, rest[k])
    ensures var r := [s[0]] + rest;
            && UniqueKeys(r)
            && IsSubsequence(r, s)
            && (forall k :: 0 <= k < |r| ==> KeyOf(r[k]) !in seen && FirstOfKey(s, r[k]))
  {
    var r := [s[0]] + rest;
    assert FirstOfKey(s, r[0]);
    assert r[0] == s[0] && r[1..] == rest;
    forall k | 0 <= k < |r| ensures KeyOf(r[k]) !in seen && FirstOfKey(s, r[k]) {
      if k > 0 {
        assert r[k] == rest[k - 1];
      }
    }
    forall i, j | 0 <= i < j < |r| ensures KeyOf(r[i]) != KeyOf(r[j]) {
      assert r[j] == rest[j - 1];
      if i > 0 {
        assert r[i] == rest[i - 1];
      }
    }
  }

  /** Every unseen key of `s` is kept: the head's by the keep branch, the others by the tail. */
  lemma StepCovers(seen: set<SignalKey>, s: seq<Signal>, rest: seq<Signal>, keep: bool)
    requires |s| > 0
    requires keep <==> KeyOf(s[0]) !in seen
    requires var seen' := if keep then seen + {KeyOf(s[0])} else seen;
             forall i :: 0 <= i < |s| - 1 && KeyOf(s[1..][i]) !in seen' ==> HasKey(rest, KeyOf(s[1..][i]))
    ensures var r := if keep then [s[0]] + rest else rest;
            forall i :: 0 <= i < |s| && KeyOf(s[i]) !in seen ==> HasKey(r, KeyOf(s[i]))
  {
    var key := KeyOf(s[0]);
    var r := if keep then [s[0]] + rest else rest;
    forall i | 0 <= i < |s| && KeyOf(s[i]) !in seen ensures HasKey(r, KeyOf(s[i])) {
      if i == 0 {
        assert r[0] == s[0];
      } else {
        assert s[i] == s[1..][i - 1];
        if keep && KeyOf(s[i]) == key {
          assert r[0] == s[0];
        } else {
          var k :| 0 <= k < |rest| && KeyOf(rest[k]) == KeyOf(s[i]);
          if keep {
            assert r[k + 1] == rest[k];
          }
        }
      }
    }
  }

  /** The deduplication of the scanner: the first signal of each key, in order. */
  function Dedup(s: seq<Signal>): (r: seq<Signal>)
    ensures |r| <= |s|
    ensures UniqueKeys(r)
    ensures IsSubsequence(r, s)
    ensures forall k :: 0 <= k < |r| ==> FirstOfKey(s, r[k])
    ensures forall i :: 0 <= i < |s| ==> HasKey(r, KeyOf(s[i]))
  {
    DedupFromSpec({}, s);
    DedupFrom({}, s)
  }

  /** A list whose keys are already unique (and unseen) passes through unchanged. */
  lemma {:induction false} DedupFromUnique(seen: set<SignalKey>, s: seq<Signal>)
    requires UniqueKeys(s)
    requires forall i :: 0 <= i < |s| ==> KeyOf(s[i]) !in seen
    ensures DedupFrom(seen, s) == s
    decreases |s|
  {
    if |s| > 0 {
      UniqueTail(seen, s);
      DedupFromUnique(seen + {KeyOf(s[0])}, s[1..]);
      assert [s[0]] + s[1..] == s;
    }
  }

  /** After the first signal of a unique-key list, the rest is unique and unseen even with its key added. */
  lemma UniqueTail(seen: set<SignalKey>, s: seq<Signal>)
    requires |s| > 0 && UniqueKeys(s)
    requires forall i :: 0 <= i < |s| ==> KeyOf(s[i]) !in seen
    ensures UniqueKeys(s[1..])
    ensures forall i :: 0 <= i < |s| - 1 ==> KeyOf(s[1..][i]) !in seen + {KeyOf(s[0])}
  {
    assert forall i :: 0 <= i < |s| - 1 ==> s[1..][i] == s[i + 1];
  }

  /** Deduplicating twice is the same as deduplicating once. */
  lemma DedupIdempotent(s: seq<Signal>)
    ensures Dedup(Dedup(s)) == Dedup(s)
  {
    DedupFromUnique({}, Dedup(s));
  }

  /** The candidates in merge order: divergence, then EMA crossover, then candlestick signals. */
  function Candidates(symbol: string, candles: seq<Candle>, rsi: seq<real>, ema8: seq<real>, ema21: seq<real>)
    : seq<Signal>
  {
    ScoreRSIDivergence(symbol, candles, rsi)
      + ScoreEMAInteractions(symbol, candles, ema8, ema21)
      + ScoreCandlestickPatterns(symbol, candles)
  }

  /** The input is rejected: too few bars, or an indicator series of the wrong length. */
  predicate InvalidInput(candles: seq<Candle>, rsi: seq<real>, ema8: seq<real>, ema21: seq<real>)
  {
    var n := |candles|;
    n < MinBars || n != |rsi| || n != |ema8| || n != |ema21|
  }

  /**
    `ScanSignalPatterns` (context and logger dropped): an error exactly on
    invalid input; otherwise the candidates with later duplicates of a key
    removed.
   */
  function ScanSignalPatterns(symbol: string, candles: seq<Candle>, rsi: seq<real>, ema8: seq<real>, ema21: seq<real>)
    : (res: Result<seq<Signal>>)
    ensures res.Err? <==> InvalidInput(candles, rsi, ema8, ema21)
    ensures res.Ok? ==>
              var all := Candidates(symbol, candles, rsi, ema8, ema21);
              && UniqueKeys(res.value)
              && IsSubsequence(res.value, all)
              && |res.value| <= |all| <= 4
              && (forall k :: 0 <= k < |res.value| ==> FirstOfKey(all, res.value[k]))
              && (forall i :: 0 <= i < |all| ==> HasKey(res.value, KeyOf(all[i])))
  {
    if InvalidInput(candles, rsi, ema8, ema21) then
      Err("invalid input lengths")
    else
      Ok(Dedup(Candidates(symbol, candles, rsi, ema8, ema21)))
  }
}
