/** Trade signals: what every evaluator of the order-flow bot returns. */
module Signals {
  import opened Bars

  /** 1 = long, -1 = short, 0 = no signal. */
  type Direction = d: int | -1 <= d <= 1

  /** The ten evaluators, named by the strategy tag they stamp on a signal. */
  datatype Strategy =
    | LiquidityAbsorption
    | IcebergDetection
    | DeltaDivergence
    | VolumeImbalance
    | StopRunAnticipation
    | HvnRejection
    | LvnBreakout
    | MomentumBreakout
    | CumulativeDeltaTrend
    | LiquidityTraps

  /** Position of a strategy in the bot's fixed evaluation order. */
  function Rank(s: Strategy): nat {
    match s
    case LiquidityAbsorption => 0
    case IcebergDetection => 1
    case DeltaDivergence => 2
    case VolumeImbalance => 3
    case StopRunAnticipation => 4
    case HvnRejection => 5
    case LvnBreakout => 6
    case MomentumBreakout => 7
    case CumulativeDeltaTrend => 8
    case LiquidityTraps => 9
  }

  /** The strategy evaluated k-th: the inverse of Rank. */
  function Ordered(k: int): (s: Strategy)
    requires 0 <= k < 10
    ensures Rank(s) == k
  {
    if k == 0 then LiquidityAbsorption
    else if k == 1 then IcebergDetection
    else if k == 2 then DeltaDivergence
    else if k == 3 then VolumeImbalance
    else if k == 4 then StopRunAnticipation
    else if k == 5 then HvnRejection
    else if k == 6 then LvnBreakout
    else if k == 7 then MomentumBreakout
    else if k == 8 then CumulativeDeltaTrend
    else LiquidityTraps
  }

  datatype Option<T> = None | Some(value: T)

  /** A candidate trade. The free-text reason of the source is left out. */
  datatype TradeSignal = TradeSignal(
    direction: Direction,
    confidence: real,
    strategy: Strategy,
    entry: real,
    stop: real,
    target: real)

  /** The value every evaluator starts from and returns when it declines. */
  function NoSignal(s: Strategy): (r: TradeSignal)
    ensures r.direction == 0 && r.strategy == s
  {
    TradeSignal(0, 0.0, s, 0.0, 0.0, 0.0)
  }

  /** Within one evaluator a later check that fires overwrites the signal an
      earlier check produced; a later check that does not fire leaves it. */
  function Later(earlier: TradeSignal, later: TradeSignal): (r: TradeSignal)
    ensures later.direction != 0 ==> r == later
    ensures later.direction == 0 ==> r == earlier
  {
    if later.direction != 0 then later else earlier
  }

  /** Stop and target on the geometrically correct sides of entry. */
  predicate WellOrdered(sig: TradeSignal) {
    && (sig.direction == 1 ==> sig.stop < sig.entry < sig.target)
    && (sig.direction == -1 ==> sig.target < sig.entry < sig.stop)
  }

  /** The stop lies on the losing side of entry. */
  predicate StopBehindEntry(sig: TradeSignal) {
    && (sig.direction == 1 ==> sig.stop < sig.entry)
    && (sig.direction == -1 ==> sig.entry < sig.stop)
  }

  function Risk(sig: TradeSignal): real {
    Abs(sig.entry - sig.stop)
  }

  function Reward(sig: TradeSignal): real {
    Abs(sig.target - sig.entry)
  }

  /** A long whose target is `multiple` times the entry-to-stop distance above entry. */
  function LongR(s: Strategy, confidence: real, entry: real, stop: real, multiple: real): (r: TradeSignal)
    ensures r.direction == 1 && r.strategy == s && r.confidence == confidence
    ensures r.entry == entry && r.stop == stop
    ensures stop < entry && 0.0 < multiple ==> WellOrdered(r) && Reward(r) == multiple * Risk(r)
  {
    TradeSignal(1, confidence, s, entry, stop, entry + (entry - stop) * multiple)
  }

  /** A short whose target is `multiple` times the entry-to-stop distance below entry. */
  function ShortR(s: Strategy, confidence: real, entry: real, stop: real, multiple: real): (r: TradeSignal)
    ensures r.direction == -1 && r.strategy == s && r.confidence == confidence
    ensures r.entry == entry && r.stop == stop
    ensures entry < stop && 0.0 < multiple ==> WellOrdered(r) && Reward(r) == multiple * Risk(r)
  {
    TradeSignal(-1, confidence, s, entry, stop, entry - (stop - entry) * multiple)
  }
}
