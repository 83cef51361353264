/** The trade constructions of the simpler study: each Execute*Strategy looks
    at the bar and its order-flow record and, when its pattern is present,
    builds a trade with a fixed stop distance and two fixed targets. The
    source only logs the trade; here it is the result. */
module StudyStrategies {
  import opened Bars
  import opened StudyFlow
  import opened Signals

  /** The ten strategy switches; the LVN and cumulative-delta strategies have
      empty bodies and never trade. */
  datatype Kind =
    | Absorption | Iceberg | Traps | Breakout | StopRun
    | Imbalance | Divergence | Hvn | Lvn | CumulativeDelta

  /** The study's inputs that its core reads. None has declared limits. */
  datatype StudyConfig = StudyConfig(
    enabled: set<Kind>,          // Input[0..9]
    runAll: bool,                // Input[10]
    maxPositionSize: real,       // Input[20]
    maxDailyLoss: real,          // Input[21]
    maxConcurrentTrades: int,    // Input[23]
    absorptionThreshold: real,   // Input[30]
    divergenceThreshold: real,   // Input[32]
    tickSize: real)              // sc.TickSize

  /** The study's TradeInfo, without id, time, activity flag and P&L. */
  datatype Trade = Trade(
    kind: Kind,
    direction: int,
    entry: real,
    stop: real,
    target1: real,
    target2: real,
    quantity: int)

  /** A trade with its stop `k` ticks behind entry, its first target `m`
      ticks ahead and its second target twice as far. */
  predicate Shaped(t: Trade, k: real, m: real, tick: real) {
    && (t.direction == 1 || t.direction == -1)
    && (t.direction == 1 ==> t.stop < t.entry < t.target1 < t.target2)
    && (t.direction == -1 ==> t.target2 < t.target1 < t.entry < t.stop)
    && Abs(t.entry - t.stop) == k * tick
    && Abs(t.target1 - t.entry) == m * tick
    && t.target2 - t.entry == 2.0 * (t.target1 - t.entry)
  }

  /** stop = P - dir*k*tick, target1 = P + dir*m*tick, target2 = P + dir*2m*tick. */
  function MakeTrade(kind: Kind, price: real, direction: int, k: real, m: real, tick: real, quantity: int): (t: Trade)
    ensures t.kind == kind && t.direction == direction && t.entry == price && t.quantity == quantity
    ensures (direction == 1 || direction == -1) && 0.0 < tick && 0.0 < k < m ==> Shaped(t, k, m, tick)
  {
    var d := direction as real;
    Trade(kind, direction, price, price - d * k * tick, price + d * m * tick, price + d * 2.0 * m * tick, quantity)
  }

  /** CalculatePositionSize: the maximum position size cast to int. */
  function Quantity(c: StudyConfig): int {
    TruncToInt(c.maxPositionSize)
  }

  // ---------------------------------------------------------------------------
  // Liquidity absorption

  /** ExecuteLiquidityAbsorptionStrategy. The source tests |delta / volume|
      against the threshold; a zero volume makes that quotient NaN or
      infinite and the test false, so the division-free form below is exact. */
  function AbsorptionTrade(bars: seq<Bar>, index: int, f: FlowRecord, c: StudyConfig): (r: Option<Trade>)
    requires 1 <= index < |bars|
    ensures r.Some? ==> r.value.kind == Absorption
    // entered at the bar's close with the configured size
    ensures r.Some? ==> r.value.entry == bars[index].close && r.value.quantity == Quantity(c)
    ensures r.Some? <==>
      && f.absorptionLevel > 0
      && bars[index].volume != 0.0
      && Abs(f.delta) < c.absorptionThreshold * Abs(bars[index].volume)
      && bars[index].volume > bars[index - 1].volume * 1.5
    // the trade fades the absorbed flow
    ensures r.Some? ==> r.value.direction == (if f.delta > 0.0 then -1 else 1)
    ensures r.Some? && 0.0 < c.tickSize ==> Shaped(r.value, 4.0, 8.0, c.tickSize)
  {
    if f.absorptionLevel > 0 then
      var price := bars[index].close;
      var volume := bars[index].volume;
      if volume == 0.0 then None
      else
        RatioBelow(f.delta, volume, c.absorptionThreshold);
        if Abs(f.delta / volume) < c.absorptionThreshold && volume > bars[index - 1].volume * 1.5 then
          var direction := if f.delta > 0.0 then -1 else 1;
          Some(MakeTrade(Absorption, price, direction, 4.0, 8.0, c.tickSize, Quantity(c)))
        else None
    else None
  }

  lemma RatioBelow(a: real, v: real, t: real)
    requires v != 0.0
    ensures Abs(a / v) < t <==> Abs(a) < t * Abs(v)
  {
    var q := a / v;
    assert q * v == a;
    assert Abs(a) == Abs(q) * Abs(v);
    if Abs(q) < t {
      assert Abs(q) * Abs(v) < t * Abs(v);
    } else {
      assert Abs(q) * Abs(v) >= t * Abs(v);
    }
  }

  /** With estimated volumes the absorption trade is always against the
      bar: short after an up bar, long after any other. */
  lemma ApproximatedAbsorptionFadesBar(bars: seq<Bar>, index: int, tick: real, unset: int, c: StudyConfig)
    requires 1 <= index < |bars| && 0.0 < bars[index].volume
    ensures var r := AbsorptionTrade(bars, index, CollectOrderFlowData(bars, index, tick, unset), c);
      r.Some? ==> (r.value.direction == -1 <==> bars[index].close > bars[index].open)
  {
  }

  // ---------------------------------------------------------------------------
  // Iceberg detection

  /** ExecuteIcebergDetectionStrategy as written: it trades only when the
      flag is positive, so the sell branch it prepares is never taken. */
  function IcebergTradeAsWritten(bars: seq<Bar>, index: int, f: FlowRecord, c: StudyConfig): (r: Option<Trade>)
    requires 0 <= index < |bars|
    ensures r.Some? ==> r.value.kind == Iceberg
    // entered at the bar's close with the configured size
    ensures r.Some? ==> r.value.entry == bars[index].close && r.value.quantity == Quantity(c)
    ensures r.Some? <==> f.icebergDetected > 0
    ensures r.Some? && -1 <= f.icebergDetected <= 1 ==> r.value.direction == 1
    ensures r.Some? && 0.0 < c.tickSize ==> Shaped(r.value, 6.0, 12.0, c.tickSize)
  {
    if f.icebergDetected > 0 then
      var direction := if f.icebergDetected == 1 then 1 else -1;
      Some(MakeTrade(Iceberg, bars[index].close, direction, 6.0, 12.0, c.tickSize, Quantity(c)))
    else None
  }

  /** A sell iceberg the detector reports is dropped by the strategy as written. */
  lemma SellIcebergIgnored(bars: seq<Bar>, index: int, f: FlowRecord, c: StudyConfig)
    requires 0 <= index < |bars| && f.icebergDetected == -1
    ensures IcebergTradeAsWritten(bars, index, f, c).None?
  {
  }

  /** ExecuteIcebergDetectionStrategy as its direction mapping intends: trade
      with any detected iceberg, buy or sell. */
  function IcebergTrade(bars: seq<Bar>, index: int, f: FlowRecord, c: StudyConfig): (r: Option<Trade>)
    requires 0 <= index < |bars|
    ensures r.Some? ==> r.value.kind == Iceberg
    // entered at the bar's close with the configured size
    ensures r.Some? ==> r.value.entry == bars[index].close && r.value.quantity == Quantity(c)
    ensures r.Some? <==> f.icebergDetected != 0
    ensures r.Some? && -1 <= f.icebergDetected <= 1 ==> r.value.direction == f.icebergDetected
    ensures r.Some? && 0.0 < c.tickSize ==> Shaped(r.value, 6.0, 12.0, c.tickSize)
  {
    if f.icebergDetected != 0 then
      var direction := if f.icebergDetected == 1 then 1 else -1;
      Some(MakeTrade(Iceberg, bars[index].close, direction, 6.0, 12.0, c.tickSize, Quantity(c)))
    else None
  }

  /** On the detector's output the corrected strategy follows the iceberg's
      side, the down bar's sell iceberg included. */
  lemma IcebergFollowsDetector(bars: seq<Bar>, index: int, tick: real, unset: int, c: StudyConfig)
    requires 0 <= index < |bars|
    ensures var f := CollectOrderFlowData(bars, index, tick, unset);
      var r := IcebergTrade(bars, index, f, c);
      && (r.Some? <==> DetectIcebergOrders(bars, index, tick) != 0)
      && (r.Some? ==> (r.value.direction == 1 <==> bars[index].close > bars[index].open))
  {
  }

  // ---------------------------------------------------------------------------
  // Volume imbalance

  /** ExecuteVolumeImbalanceStrategy: more than 70% of the traded volume on
      one side; the ask side is checked first. */
  function ImbalanceTrade(bars: seq<Bar>, index: int, f: FlowRecord, c: StudyConfig): (r: Option<Trade>)
    requires 0 <= index < |bars|
    ensures r.Some? ==> r.value.kind == Imbalance
    // entered at the bar's close with the configured size
    ensures r.Some? ==> r.value.entry == bars[index].close && r.value.quantity == Quantity(c)
    ensures r.Some? <==>
      && 0.0 < f.bidVolume + f.askVolume
      && (f.askVolume > 0.7 * (f.bidVolume + f.askVolume) || f.bidVolume > 0.7 * (f.bidVolume + f.askVolume))
    ensures r.Some? ==> (r.value.direction == 1 <==> f.askVolume > 0.7 * (f.bidVolume + f.askVolume))
    ensures r.Some? && 0.0 < c.tickSize ==> Shaped(r.value, 5.0, 10.0, c.tickSize)
  {
    var total := f.bidVolume + f.askVolume;
    if total > 0.0 then
      var bidRatio := f.bidVolume / total;
      var askRatio := f.askVolume / total;
      ShareAbove(f.askVolume, total);
      ShareAbove(f.bidVolume, total);
      var direction := if askRatio > 0.7 then 1 else if bidRatio > 0.7 then -1 else 0;
      if direction != 0 then
        Some(MakeTrade(Imbalance, bars[index].close, direction, 5.0, 10.0, c.tickSize, Quantity(c)))
      else None
    else None
  }

  lemma ShareAbove(part: real, total: real)
    requires 0.0 < total
    ensures part / total > 0.7 <==> part > 0.7 * total
  {
    var q := part / total;
    assert q * total == part;
    if q > 0.7 {
      assert q * total > 0.7 * total;
    } else {
      assert q * total <= 0.7 * total;
    }
  }

  /** With estimated volumes one side holds exactly 60% of the volume, so the
      imbalance strategy never trades on the study's approximation path. */
  lemma ApproximationNeverImbalanced(bars: seq<Bar>, index: int, tick: real, unset: int, c: StudyConfig)
    requires 0 <= index < |bars|
    ensures ImbalanceTrade(bars, index, CollectOrderFlowData(bars, index, tick, unset), c).None?
  {
  }

  // ---------------------------------------------------------------------------
  // Delta divergence

  /** Price down over three bars while the bar's delta exceeds the threshold. */
  predicate BullishDivergence(bars: seq<Bar>, index: int, f: FlowRecord, c: StudyConfig)
    requires 3 <= index < |bars|
  {
    bars[index].close - bars[index - 3].close < 0.0 && f.delta > c.divergenceThreshold
  }

  /** Price up over three bars while the bar's delta is below minus the threshold. */
  predicate BearishDivergence(bars: seq<Bar>, index: int, f: FlowRecord, c: StudyConfig)
    requires 3 <= index < |bars|
  {
    bars[index].close - bars[index - 3].close > 0.0 && f.delta < -c.divergenceThreshold
  }

  /** ExecuteDeltaDivergenceStrategy; the bullish reading wins. */
  function DivergenceTrade(bars: seq<Bar>, index: int, f: FlowRecord, c: StudyConfig): (r: Option<Trade>)
    requires 0 <= index < |bars|
    ensures r.Some? ==> r.value.kind == Divergence
    // entered at the bar's close with the configured size
    ensures r.Some? ==> r.value.entry == bars[index].close && r.value.quantity == Quantity(c)
    ensures index < 5 ==> r.None?
    ensures 5 <= index ==> (r.Some? <==> BullishDivergence(bars, index, f, c) || BearishDivergence(bars, index, f, c))
    ensures r.Some? ==> (r.value.direction == 1 <==> BullishDivergence(bars, index, f, c))
    ensures r.Some? && 0.0 < c.tickSize ==> Shaped(r.value, 6.0, 12.0, c.tickSize)
  {
    if index < 5 then None
    else
      var bullish := BullishDivergence(bars, index, f, c);
      var bearish := BearishDivergence(bars, index, f, c);
      if bullish || bearish then
        Some(MakeTrade(Divergence, bars[index].close, if bullish then 1 else -1, 6.0, 12.0, c.tickSize, Quantity(c)))
      else None
  }

  /** With estimated volumes and a non-negative threshold, a bullish
      divergence needs an up bar and a bearish one a down bar: the delta's
      sign is the bar's. */
  lemma ApproximatedDivergenceFollowsBar(bars: seq<Bar>, index: int, tick: real, unset: int, c: StudyConfig)
    requires 5 <= index < |bars| && 0.0 < bars[index].volume && 0.0 <= c.divergenceThreshold
    ensures var r := DivergenceTrade(bars, index, CollectOrderFlowData(bars, index, tick, unset), c);
      r.Some? ==> (r.value.direction == 1 <==> bars[index].close > bars[index].open)
  {
  }

  // ---------------------------------------------------------------------------
  // Liquidity traps

  /** ExecuteLiquidityTrapsStrategy: volume above three times the previous
      bar's and an open-to-close move of more than four ticks, traded in the
      direction of the move. */
  function TrapTrade(bars: seq<Bar>, index: int, c: StudyConfig): (r: Option<Trade>)
    requires 0 <= index < |bars|
    ensures r.Some? ==> r.value.kind == Traps
    // entered at the bar's close with the configured size
    ensures r.Some? ==> r.value.entry == bars[index].close && r.value.quantity == Quantity(c)
    ensures r.Some? <==>
      && 5 <= index
      && bars[index].volume > bars[index - 1].volume * 3.0
      && Abs(bars[index].close - bars[index].open) > 4.0 * c.tickSize
    ensures r.Some? ==> (r.value.direction == 1 <==> bars[index].close > bars[index].open)
    ensures r.Some? && 0.0 < c.tickSize ==> Shaped(r.value, 3.0, 8.0, c.tickSize)
  {
    if index < 5 then None
    else
      var b := bars[index];
      if b.volume > bars[index - 1].volume * 3.0 && Abs(b.close - b.open) > c.tickSize * 4.0 then
        Some(MakeTrade(Traps, b.close, if b.close > b.open then 1 else -1, 3.0, 8.0, c.tickSize, Quantity(c)))
      else None
  }

  // ---------------------------------------------------------------------------
  // Breakout confirmation

  /** Highest high of the `n` bars before `index`. */
  function HighBack(bars: seq<Bar>, index: int, n: nat): (r: real)
    requires 1 <= n <= index < |bars|
    ensures forall j :: index - n <= j < index ==> bars[j].high <= r
    ensures exists j :: index - n <= j < index && bars[j].high == r
  {
    if n == 1 then bars[index - 1].high
    else Max(HighBack(bars, index, n - 1), bars[index - n].high)
  }

  /** Lowest low of the `n` bars before `index`. */
  function LowBack(bars: seq<Bar>, index: int, n: nat): (r: real)
    requires 1 <= n <= index < |bars|
    ensures forall j :: index - n <= j < index ==> r <= bars[j].low
    ensures exists j :: index - n <= j < index && bars[j].low == r
  {
    if n == 1 then bars[index - 1].low
    else Min(LowBack(bars, index, n - 1), bars[index - n].low)
  }

  /** The volume of the bar exceeds 1.5 times the mean of the ten before it. */
  predicate VolumeSurge(bars: seq<Bar>, index: int)
    requires 10 <= index < |bars|
  {
    bars[index].volume > VolumeBack(bars, index, 10) / 10.0 * 1.5
  }

  /** The breakout decision once the levels are known: a close beyond the
      level on surging volume, confirmed by the delta's sign. */
  function BreakoutFrom(bars: seq<Bar>, index: int, f: FlowRecord, c: StudyConfig, high: real, low: real): (r: Option<Trade>)
    requires 20 <= index < |bars|
    ensures r.Some? ==> r.value.kind == Breakout
    // entered at the bar's close with the configured size
    ensures r.Some? ==> r.value.entry == bars[index].close && r.value.quantity == Quantity(c)
    ensures r.Some? ==> VolumeSurge(bars, index)
    ensures r.Some? ==> (r.value.direction == 1 <==> bars[index].close > high && f.delta > 0.0)
    ensures r.Some? ==>
      || (r.value.direction == 1 && bars[index].close > high && f.delta > 0.0)
      || (r.value.direction == -1 && bars[index].close < low && f.delta < 0.0)
    ensures VolumeSurge(bars, index) && bars[index].close > high && f.delta > 0.0 ==> r.Some?
    ensures VolumeSurge(bars, index) && bars[index].close < low && f.delta < 0.0 ==> r.Some?
    ensures r.Some? && 0.0 < c.tickSize ==> Shaped(r.value, 6.0, 15.0, c.tickSize)
  {
    var price := bars[index].close;
    var surge := VolumeSurge(bars, index);
    var up := price > high && surge;
    var down := price < low && surge;
    if up && f.delta > 0.0 then
      Some(MakeTrade(Breakout, price, 1, 6.0, 15.0, c.tickSize, Quantity(c)))
    else if down && f.delta < 0.0 then
      Some(MakeTrade(Breakout, price, -1, 6.0, 15.0, c.tickSize, Quantity(c)))
    else None
  }

  /** ExecuteBreakoutConfirmationStrategy as written: the levels start from
      the current bar's own high and low. */
  function BreakoutTradeAsWritten(bars: seq<Bar>, index: int, f: FlowRecord, c: StudyConfig): (r: Option<Trade>)
    requires 0 <= index < |bars|
    ensures r.Some? ==> r.value.kind == Breakout
    // entered at the bar's close with the configured size
    ensures r.Some? ==> r.value.entry == bars[index].close && r.value.quantity == Quantity(c)
    ensures index < 20 ==> r.None?
    // the levels include the bar itself: a long needs a close above the bar's
    // own high as well as the ten previous highs, a short the mirror
    ensures r.Some? && r.value.direction == 1 ==>
      && bars[index].high < bars[index].close
      && forall j :: index - 10 <= j < index ==> bars[j].high < bars[index].close
    ensures r.Some? && r.value.direction == -1 ==>
      && bars[index].close < bars[index].low
      && forall j :: index - 10 <= j < index ==> bars[index].close < bars[j].low
    ensures r.Some? ==> r.value.direction == 1 || r.value.direction == -1
    ensures r.Some? && 0.0 < c.tickSize ==> Shaped(r.value, 6.0, 15.0, c.tickSize)
  {
    if index < 20 then None
    else
      var b := bars[index];
      BreakoutFrom(bars, index, f, c, Max(b.high, HighBack(bars, index, 10)), Min(b.low, LowBack(bars, index, 10)))
  }

  /** A close never lies above its bar's high or below its low, so the
      breakout as written never trades on a well-formed bar. */
  lemma BreakoutNeverFires(bars: seq<Bar>, index: int, f: FlowRecord, c: StudyConfig)
    requires 0 <= index < |bars| && WellFormed(bars[index])
    ensures BreakoutTradeAsWritten(bars, index, f, c).None?
  {
  }

  /** ExecuteBreakoutConfirmationStrategy against the ten previous bars'
      range, which its support/resistance comment describes. */
  function BreakoutTrade(bars: seq<Bar>, index: int, f: FlowRecord, c: StudyConfig): (r: Option<Trade>)
    requires 0 <= index < |bars|
    ensures r.Some? ==> r.value.kind == Breakout
    // entered at the bar's close with the configured size
    ensures r.Some? ==> r.value.entry == bars[index].close && r.value.quantity == Quantity(c)
    ensures index < 20 ==> r.None?
    // a long closes above every one of the ten previous highs, a short below every low
    ensures r.Some? && r.value.direction == 1 ==>
      forall j :: index - 10 <= j < index ==> bars[j].high < bars[index].close
    ensures r.Some? && r.value.direction == -1 ==>
      forall j :: index - 10 <= j < index ==> bars[index].close < bars[j].low
    // a surge with a close beyond the range, confirmed by the delta's sign, always trades
    ensures
      && 20 <= index && VolumeSurge(bars, index) && f.delta > 0.0
      && (forall j :: index - 10 <= j < index ==> bars[j].high < bars[index].close)
      ==> r.Some? && r.value.direction == 1
    ensures
      && 20 <= index && VolumeSurge(bars, index) && f.delta < 0.0
      && (forall j :: index - 10 <= j < index ==> bars[index].close < bars[j].low)
      ==> r.Some? && r.value.direction == -1
    ensures r.Some? ==> VolumeSurge(bars, index)
    ensures r.Some? ==> (r.value.direction == 1 <==> f.delta > 0.0) && (r.value.direction == -1 <==> f.delta < 0.0)
    ensures r.Some? && 0.0 < c.tickSize ==> Shaped(r.value, 6.0, 15.0, c.tickSize)
  {
    if index < 20 then None
    else BreakoutFrom(bars, index, f, c, HighBack(bars, index, 10), LowBack(bars, index, 10))
  }

  // ---------------------------------------------------------------------------
  // Stop-run anticipation

  /** The swing high of the ten previous bars, from a running maximum seeded
      with 0. */
  function SwingHigh(bars: seq<Bar>, index: int): real
    requires 10 <= index < |bars|
  {
    Max(0.0, HighBack(bars, index, 10))
  }

  /** The swing low of the ten previous bars, from a running minimum seeded
      with 999999. */
  function SwingLow(bars: seq<Bar>, index: int): real
    requires 10 <= index < |bars|
  {
    Min(999999.0, LowBack(bars, index, 10))
  }

  /** The close ran the buy stops: within three ticks below to two ticks
      above the swing high, and above it. */
  predicate BuyStopsRun(bars: seq<Bar>, index: int, tick: real)
    requires 10 <= index < |bars|
  {
    var p := bars[index].close;
    p >= SwingHigh(bars, index) - 3.0 * tick && p <= SwingHigh(bars, index) + 2.0 * tick && p > SwingHigh(bars, index)
  }

  /** The close ran the sell stops: the mirror of BuyStopsRun at the swing low. */
  predicate SellStopsRun(bars: seq<Bar>, index: int, tick: real)
    requires 10 <= index < |bars|
  {
    var p := bars[index].close;
    p <= SwingLow(bars, index) + 3.0 * tick && p >= SwingLow(bars, index) - 2.0 * tick && p < SwingLow(bars, index)
  }

  /** Volume above twice the mean of the three previous bars, division-free. */
  predicate StopRunVolume(bars: seq<Bar>, index: int)
    requires 3 <= index < |bars|
  {
    2.0 * VolumeBack(bars, index, 3) < 3.0 * bars[index].volume
  }

  /** ExecuteStopRunAnticipationStrategy: a close just through the swing high
      (at most two ticks above it) or the swing low, on volume above twice the
      mean of the three previous bars, traded with the run at 80% size. */
  function StopRunTrade(bars: seq<Bar>, index: int, c: StudyConfig): (r: Option<Trade>)
    requires 0 <= index < |bars|
    ensures r.Some? ==> r.value.kind == StopRun
    // entered at the bar's close
    ensures r.Some? ==> r.value.entry == bars[index].close
    ensures index < 15 ==> r.None?
    ensures r.Some? && r.value.direction == 1 ==>
      SwingHigh(bars, index) < bars[index].close <= SwingHigh(bars, index) + 2.0 * c.tickSize
    ensures r.Some? && r.value.direction == -1 ==>
      SwingLow(bars, index) - 2.0 * c.tickSize <= bars[index].close < SwingLow(bars, index)
    ensures r.Some? ==> 2.0 * VolumeBack(bars, index, 3) < 3.0 * bars[index].volume
    // it trades exactly when a stop run happens on that volume, the buy side first
    ensures r.Some? <==>
      15 <= index && StopRunVolume(bars, index) && (BuyStopsRun(bars, index, c.tickSize) || SellStopsRun(bars, index, c.tickSize))
    ensures r.Some? ==> (r.value.direction == 1 <==> BuyStopsRun(bars, index, c.tickSize))
    ensures r.Some? ==> r.value.quantity == TruncToInt((Quantity(c) as real) * 0.8)
    ensures r.Some? && 0.0 < c.tickSize ==> Shaped(r.value, 4.0, 10.0, c.tickSize)
  {
    if index < 15 then None
    else
      var price := bars[index].close;
      var t := c.tickSize;
      var swingHigh := SwingHigh(bars, index);
      var swingLow := SwingLow(bars, index);
      var nearBuyStops := price >= swingHigh - 3.0 * t && price <= swingHigh + 2.0 * t;
      var nearSellStops := price <= swingLow + 3.0 * t && price >= swingLow - 2.0 * t;
      if nearBuyStops || nearSellStops then
        var avgVolume := (bars[index - 1].volume + bars[index - 2].volume + bars[index - 3].volume) / 3.0;
        assert VolumeBack(bars, index, 3) == bars[index - 1].volume + bars[index - 2].volume + bars[index - 3].volume by {
          assert VolumeBack(bars, index, 1) == bars[index - 1].volume;
          assert VolumeBack(bars, index, 2) == bars[index - 1].volume + bars[index - 2].volume;
        }
        if bars[index].volume > avgVolume * 2.0 then
          var direction := if nearBuyStops && price > swingHigh then 1
                           else if nearSellStops && price < swingLow then -1 else 0;
          if direction != 0 then
            Some(MakeTrade(StopRun, price, direction, 4.0, 10.0, t, TruncToInt((Quantity(c) as real) * 0.8)))
          else None
        else None
      else None
  }

  // ---------------------------------------------------------------------------
  // HVN trading

  /** Number of buckets of the strategy's profile. */
  const PriceLevels := 100

  /** Bucket of a bar's typical price (high + low + close) / 3: the cast of
      its distance from the low, in steps, to int. */
  function BucketOf(b: Bar, lowest: real, step: real): int
    requires 0.0 < step
  {
    TruncToInt(((b.high + b.low + b.close) / 3.0 - lowest) / step)
  }

  /** The profile of the `n` bars before `index`: each bar's volume goes to its
      bucket, and bars falling outside the 100 buckets are skipped. */
  function Buckets(bars: seq<Bar>, index: int, lowest: real, step: real, n: nat): (r: seq<real>)
    requires n <= index < |bars| && 0.0 < step
    ensures |r| == PriceLevels
    ensures AllWellFormed(bars) ==> forall j :: 0 <= j < |r| ==> 0.0 <= r[j]
  {
    if n == 0 then seq(PriceLevels, _ => 0.0)
    else
      var before := Buckets(bars, index, lowest, step, n - 1);
      var level := BucketOf(bars[index - n], lowest, step);
      if 0 <= level < PriceLevels then before[level := before[level] + bars[index - n].volume]
      else before
  }

  function SumSeq(s: seq<real>): real {
    if |s| == 0 then 0.0 else s[0] + SumSeq(s[1..])
  }

  /** Volume of those of the `n` bars before `index` that land in a bucket. */
  function BucketedVolume(bars: seq<Bar>, index: int, lowest: real, step: real, n: nat): real
    requires n <= index < |bars| && 0.0 < step
  {
    if n == 0 then 0.0
    else
      var level := BucketOf(bars[index - n], lowest, step);
      BucketedVolume(bars, index, lowest, step, n - 1) + (if 0 <= level < PriceLevels then bars[index - n].volume else 0.0)
  }

  lemma {:induction false} SumUpdate(s: seq<real>, j: int, v: real)
    requires 0 <= j < |s|
    ensures SumSeq(s[j := s[j] + v]) == SumSeq(s) + v
  {
    if j == 0 {
      assert s[j := s[j] + v][1..] == s[1..];
    } else {
      SumUpdate(s[1..], j - 1, v);
      assert s[j := s[j] + v][1..] == s[1..][j - 1 := s[1..][j - 1] + v];
    }
  }

  lemma {:induction false} SumZeros(n: nat)
    ensures SumSeq(seq(n, _ => 0.0)) == 0.0
  {
    if n > 0 {
      assert seq(n, _ => 0.0)[1..] == seq(n - 1, _ => 0.0);
      SumZeros(n - 1);
    }
  }

  /** Bucketing loses no volume of a bar it keeps. */
  lemma {:induction false} BucketsHoldVolume(bars: seq<Bar>, index: int, lowest: real, step: real, n: nat)
    requires n <= index < |bars| && 0.0 < step
    ensures SumSeq(Buckets(bars, index, lowest, step, n)) == BucketedVolume(bars, index, lowest, step, n)
  {
    if n == 0 {
      SumZeros(PriceLevels);
    } else {
      BucketsHoldVolume(bars, index, lowest, step, n - 1);
      var before := Buckets(bars, index, lowest, step, n - 1);
      var level := BucketOf(bars[index - n], lowest, step);
      if 0 <= level < PriceLevels {
        SumUpdate(before, level, bars[index - n].volume);
      }
    }
  }

  datatype Peak = Peak(level: int, volume: real)

  /** The scan for the high-volume node over the first `n` buckets: the
      running maximum starts at 0 in bucket 0 and moves only to a strictly
      larger volume. */
  function ScanMax(buckets: seq<real>, n: nat): (r: Peak)
    requires n <= |buckets|
    ensures 0 <= r.level && (0 < n ==> r.level < n)
    ensures 0.0 <= r.volume
    ensures forall j :: 0 <= j < n ==> buckets[j] <= r.volume
    // a positive peak is the first bucket holding the largest volume
    ensures 0.0 < r.volume ==>
      && r.level < n && buckets[r.level] == r.volume
      && forall j :: 0 <= j < r.level ==> buckets[j] < r.volume
    ensures r.volume == 0.0 ==> r.level == 0
  {
    if n == 0 then Peak(0, 0.0)
    else
      var p := ScanMax(buckets, n - 1);
      if buckets[n - 1] > p.volume then Peak(n - 1, buckets[n - 1]) else p
  }

  /** Highest high and lowest low of the current bar and the 49 before it. */
  function WindowTop(bars: seq<Bar>, index: int): real
    requires 49 <= index < |bars|
  {
    Max(bars[index].high, HighBack(bars, index, 49))
  }

  function WindowBottom(bars: seq<Bar>, index: int): real
    requires 49 <= index < |bars|
  {
    Min(bars[index].low, LowBack(bars, index, 49))
  }

  /** The price of the high-volume node: the lower edge of the peak bucket. */
  function HvnPrice(bars: seq<Bar>, index: int): real
    requires 49 <= index < |bars| && WindowBottom(bars, index) < WindowTop(bars, index)
  {
    var lowest := WindowBottom(bars, index);
    var step := (WindowTop(bars, index) - lowest) / (PriceLevels as real);
    var peak := ScanMax(Buckets(bars, index, lowest, step, 49), PriceLevels);
    lowest + (peak.level as real) * step
  }

  /** ExecuteHVNTradingStrategy: a close within three ticks of the node after
      a move of more than two ticks from the open, faded. */
  function HvnTrade(bars: seq<Bar>, index: int, c: StudyConfig): (r: Option<Trade>)
    requires 0 <= index < |bars|
    ensures r.Some? ==> r.value.kind == Hvn
    // entered at the bar's close with the configured size
    ensures r.Some? ==> r.value.entry == bars[index].close && r.value.quantity == Quantity(c)
    ensures index < 50 ==> r.None?
    ensures r.Some? ==>
      && WindowBottom(bars, index) < WindowTop(bars, index)
      && Abs(bars[index].close - HvnPrice(bars, index)) <= 3.0 * c.tickSize
      && Abs(bars[index].close - bars[index].open) > 2.0 * c.tickSize
    ensures
      && 50 <= index && WindowBottom(bars, index) < WindowTop(bars, index)
      && Abs(bars[index].close - HvnPrice(bars, index)) <= 3.0 * c.tickSize
      && Abs(bars[index].close - bars[index].open) > 2.0 * c.tickSize
      ==> r.Some?
    ensures r.Some? ==> (r.value.direction == 1 <==> bars[index].close < bars[index].open)
    ensures r.Some? && 0.0 < c.tickSize ==> Shaped(r.value, 4.0, 8.0, c.tickSize)
  {
    if index < 50 then None
    else if WindowTop(bars, index) - WindowBottom(bars, index) <= 0.0 then None
    else
      var price := bars[index].close;
      var t := c.tickSize;
      if Abs(price - HvnPrice(bars, index)) <= 3.0 * t then
        var change := price - bars[index].open;
        if Abs(change) > 2.0 * t then
          Some(MakeTrade(Hvn, price, if change > 0.0 then -1 else 1, 4.0, 8.0, t, Quantity(c)))
        else None
      else None
  }
}
