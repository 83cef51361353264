/** Price bars and the small arithmetic helpers both studies share.

    Prices and volumes are `real`: the studies keep them in 32-bit floats, and
    float rounding is not modelled. A C++ `(int)` cast is modelled by
    `TruncToInt`, which rounds toward zero like the cast does. */
module Bars {

  /** One bar of the host's chart: OHLC, total volume and the ask/bid split. */
  datatype Bar = Bar(
    open: real,
    high: real,
    low: real,
    close: real,
    volume: real,
    askVolume: real,
    bidVolume: real)

  /** What a bar delivered by the feed looks like: the open and close lie in
      the bar's range and no volume is negative. Used only as a hypothesis of
      properties; the operations themselves accept any bar, as the source does. */
  predicate WellFormed(b: Bar) {
    && b.low <= b.open <= b.high
    && b.low <= b.close <= b.high
    && 0.0 <= b.volume
    && 0.0 <= b.askVolume
    && 0.0 <= b.bidVolume
  }

  predicate AllWellFormed(bars: seq<Bar>) {
    forall k :: 0 <= k < |bars| ==> WellFormed(bars[k])
  }

  /** Order-flow delta of a bar: aggressive buying minus aggressive selling. */
  function Delta(b: Bar): real {
    b.askVolume - b.bidVolume
  }

  function Range(b: Bar): real {
    b.high - b.low
  }

  function Abs(x: real): real {
    if x < 0.0 then -x else x
  }

  /** `std::min(a, b)`: returns `a` unless `b < a`. */
  function Min(a: real, b: real): real {
    if b < a then b else a
  }

  /** `std::max(a, b)`: returns `a` unless `a < b`. */
  function Max(a: real, b: real): real {
    if a < b then b else a
  }

  function MaxInt(a: int, b: int): int {
    if a < b then b else a
  }

  /** A C++ float-to-int cast: truncation toward zero. */
  function TruncToInt(x: real): (r: int)
    ensures 0.0 <= x ==> r == x.Floor
    ensures Abs(r as real) <= Abs(x)
    ensures Abs(x) < Abs(r as real) + 1.0
  {
    if x >= 0.0 then x.Floor else -((-x).Floor)
  }

  /** Sum of `volume` over the bars `index-1 .. index-n` that exist: the
      studies' "average volume" loops, before the division. */
  function VolumeBack(bars: seq<Bar>, index: int, n: nat): (r: real)
    requires index < |bars|
    ensures AllWellFormed(bars) ==> 0.0 <= r
  {
    if n == 0 then 0.0
    else VolumeBack(bars, index, n - 1) + (if 0 <= index - n then bars[index - n].volume else 0.0)
  }

  /** Sum of `high - low` over the bars `index-1 .. index-n` that exist. */
  function RangeBack(bars: seq<Bar>, index: int, n: nat): (r: real)
    requires index < |bars|
    ensures AllWellFormed(bars) ==> 0.0 <= r
  {
    if n == 0 then 0.0
    else RangeBack(bars, index, n - 1) + (if 0 <= index - n then Range(bars[index - n]) else 0.0)
  }

  /** Number of bars among `index-1 .. index-n` that exist and satisfy `p`. */
  function CountBack(bars: seq<Bar>, index: int, n: nat, p: Bar -> bool): (r: nat)
    requires index < |bars|
    ensures r <= n
  {
    if n == 0 then 0
    else CountBack(bars, index, n - 1, p) + (if 0 <= index - n && p(bars[index - n]) then 1 else 0)
  }
}
