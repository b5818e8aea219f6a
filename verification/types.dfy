/**
  Shared vocabulary of the signal engine: price bars, trade directions,
  signals, and the small failure-compatible wrappers the scanners use.

  Prices and indicator values are exact reals, instants are integers and
  durations are integer nanoseconds, as Go's `time.Duration` is.
 */
module Types {

  /** One nanosecond-based minute, Go's `time.Minute`. */
  const Minute: int := 60_000_000_000

  /** A one-minute OHLCV bar for a symbol. */
  datatype Candle = Candle(
    symbol: string,
    time: int,
    open: real,
    high: real,
    low: real,
    close: real,
    volume: real)

  /** The two directions a binary signal can take ("UP" and "DOWN" in the source). */
  datatype Direction = Up | Down

  /** A binary trade setup produced by a scorer. */
  datatype Signal = Signal(symbol: string, direction: Direction, confidence: real, ttl: int)

  datatype Option<+T> = None | Some(value: T)

  datatype Result<+T> = Ok(value: T) | Err(error: string)

  /** The closing prices of a series of bars, in order. */
  function Closes(bars: seq<Candle>): (cs: seq<real>)
    ensures |cs| == |bars|
    ensures forall j :: 0 <= j < |bars| ==> cs[j] == bars[j].close
  {
    seq(|bars|, j requires 0 <= j < |bars| => bars[j].close)
  }

  /** True when some signal of `sigs` points in direction `d`. */
  predicate HasDirection(sigs: seq<Signal>, d: Direction)
  {
    exists k :: 0 <= k < |sigs| && sigs[k].direction == d
  }

  /** Go's integer division of durations, which truncates toward zero. */
  function TruncDiv(a: int, b: int): (q: int)
    requires b > 0
    ensures a >= 0 ==> q * b <= a < q * b + b
    ensures a < 0 ==> q * b - b < a <= q * b
  {
    if a >= 0 then a / b else -((-a) / b)
  }

  /** A duration expressed in whole minutes, as `int(d / time.Minute)`. */
  function WholeMinutes(d: int): int
  {
    TruncDiv(d, Minute)
  }
}
