/** One pass of the bot's per-bar loop: the daily reset, the risk, hours,
    flatten-time and trade-count gates, the order-flow and profile updates on
    a new bar, arbitration, validation, sizing and the entry.

    What the host supplies per bar (new trading day, daily P&L and portfolio
    heat from the position record, the trading-hours and flatten-time
    decisions, the open position, the order result) is a `BarInput`; a flatten
    and a submitted order are outputs. */
module Session {
  import opened Bars
  import opened Signals
  import opened Settings
  import opened Chart
  import OrderFlow
  import Profile
  import opened Arbitration
  import opened Validation

  /** The bot's persistent state. */
  datatype State = State(
    tradingEnabled: bool,                 // persistent int 2
    dailyTrades: int,                     // persistent int 1
    flow: OrderFlow.FlowState,            // persistent float 4, subgraph 0, order-flow record
    profile: Profile.VolumeProfile,       // HVN/LVN lists and profile levels
    counts: map<Strategy, nat>)           // per-strategy entries today

  /** The state of a freshly added study: trading disabled until a new day. */
  function Initial(bars: seq<Bar>): (s: State)
    ensures !s.tradingEnabled && s.dailyTrades == 0 && |s.flow.curve| == |bars|
  {
    State(false, 0, OrderFlow.FlowState(0.0, seq(|bars|, _ => 0.0), OrderFlow.FlowData(0.0, 0.0, 0.0, 0.0)),
          Profile.EmptyProfile(), map[])
  }

  datatype BarInput = BarInput(
    newDay: bool,           // IsNewTradingDay(i)
    dailyPnL: real,         // the position record's daily profit/loss
    heat: real,             // portfolio heat of the risk metrics
    inTradingHours: bool,   // IsWithinTradingHours
    pastFlattenTime: bool,  // bar time at or after the flatten time
    positionQty: int,       // open position quantity
    newBar: bool,           // IsNewBar(i)
    averagePrice: real,     // the position record's average price
    orderResult: int)       // what BuyEntry/SellEntry return

  datatype Order = Order(direction: Direction, quantity: int, stopOffset: real, targetOffset: real, strategy: Strategy)

  datatype Outcome = Outcome(state: State, flatten: bool, order: Option<Order>)

  /** The state after the new-day reset, if this bar opens a day. */
  function DayStart(s: State, input: BarInput): (r: State)
    ensures input.newDay ==> r.tradingEnabled && r.dailyTrades == 0 && r.flow.cumDelta == 0.0 && r.counts == map[]
    ensures !input.newDay ==> r == s
    ensures r.flow.curve == s.flow.curve && r.profile == s.profile
  {
    if input.newDay then s.(tradingEnabled := true, dailyTrades := 0, flow := s.flow.(cumDelta := 0.0), counts := map[])
    else s
  }

  /** Daily P&L at or beyond either limit. */
  predicate LimitHit(c: Config, pnl: real) {
    pnl <= -c.maxDailyLoss || pnl >= c.dailyProfitTarget
  }

  /** Every gate before the flow update passes. */
  predicate GatesOpen(s: State, input: BarInput, c: Config) {
    && s.tradingEnabled
    && !LimitHit(c, input.dailyPnL)
    && input.inTradingHours
    && !input.pastFlattenTime
    && s.dailyTrades < c.maxDailyTrades
  }

  predicate Fits(s: State, bars: seq<Bar>) {
    |s.flow.curve| == |bars|
  }

  /** The chart the evaluators read after the updates. */
  function MarketOf(s: State, bars: seq<Bar>, ma: seq<real>, host: int): Market {
    Market(bars, s.flow.curve, ma, s.profile.hvn, s.profile.lvn, host)
  }

  /** The order-flow and profile updates of a new bar, at the host index. */
  function Refresh(s: State, bars: seq<Bar>, ma: seq<real>, host: int, c: Config): (r: State)
    requires ValidConfig(c) && Fits(s, bars) && |ma| == |bars| && 0 <= host < |bars|
    ensures Fits(r, bars)
    ensures r.tradingEnabled == s.tradingEnabled && r.dailyTrades == s.dailyTrades && r.counts == s.counts
    // both updates read the host's bar: the flow record advances and the profile is rebuilt
    ensures r.flow == OrderFlow.UpdateOrderFlowData(bars, host, ma, c.tickSize, s.flow)
    ensures r.profile == Profile.ProcessVolumeProfile(bars, host, c.profileLookback, c.tickSize, c.hvnMultiplier, c.lvnMultiplier)
  {
    s.(flow := OrderFlow.UpdateOrderFlowData(bars, host, ma, c.tickSize, s.flow),
       profile := Profile.ProcessVolumeProfile(bars, host, c.profileLookback, c.tickSize, c.hvnMultiplier, c.lvnMultiplier))
  }

  function Bump(counts: map<Strategy, nat>, st: Strategy): (r: map<Strategy, nat>)
    ensures st in r && r[st] == (if st in counts then counts[st] else 0) + 1
    ensures forall x :: x != st ==> (x in r <==> x in counts) && (x in counts ==> r[x] == counts[x])
  {
    counts[st := (if st in counts then counts[st] else 0) + 1]
  }

  /** Arbitration, validation, sizing and the entry, for a flat position. */
  function Enter(s: State, bars: seq<Bar>, ma: seq<real>, host: int, i: int, input: BarInput, c: Config): (r: Outcome)
    requires ValidConfig(c) && Fits(s, bars) && |ma| == |bars| && 0 <= host < |bars| && 0 <= i < |bars|
    ensures !r.flatten
    ensures r.state.tradingEnabled == s.tradingEnabled && r.state.flow == s.flow && r.state.profile == s.profile
    ensures r.order.None? ==> r.state == s
    ensures r.order.Some? ==> 1 <= r.order.value.quantity <= 3 * c.baseQuantity
    ensures r.order.Some? ==>
      var best := Arbitrate(MarketOf(s, bars, ma, host), i, c);
      && best.Some?
      && ValidateSignal(best.value, input.heat, c.maxHeat)
      && r.order.value.direction == best.value.direction
      && r.order.value.strategy == best.value.strategy
      && r.order.value.stopOffset == Risk(best.value)
      && r.order.value.targetOffset == Reward(best.value)
    ensures r.order.None? <==>
      var best := Arbitrate(MarketOf(s, bars, ma, host), i, c);
      best.None? || !ValidateSignal(best.value, input.heat, c.maxHeat)
    ensures r.state.dailyTrades == s.dailyTrades + (if r.order.Some? && input.orderResult > 0 then 1 else 0)
  {
    var best := Arbitrate(MarketOf(s, bars, ma, host), i, c);
    if best.None? then Outcome(s, false, None)
    else
      var sig := best.value;
      if !ValidateSignal(sig, input.heat, c.maxHeat) then Outcome(s, false, None)
      else
        var size := PositionSize(sig, c, input.averagePrice);
        AcceptedOrderQuantity(sig, c, input.heat, input.averagePrice);
        if !(size > 0.0) then Outcome(s, false, None)
        else
          var order := Order(sig.direction, TruncToInt(size), Risk(sig), Reward(sig), sig.strategy);
          var s' := if input.orderResult > 0
                    then s.(dailyTrades := s.dailyTrades + 1, counts := Bump(s.counts, sig.strategy))
                    else s;
          Outcome(s', false, Some(order))
  }

  /** The state the evaluators see once the gates pass: the day-start reset,
      then the updates if the bar is new. */
  function Prepared(s: State, bars: seq<Bar>, ma: seq<real>, host: int, input: BarInput, c: Config): (r: State)
    requires ValidConfig(c) && Fits(s, bars) && |ma| == |bars| && 0 <= host < |bars|
    ensures Fits(r, bars)
    ensures r.tradingEnabled == DayStart(s, input).tradingEnabled && r.dailyTrades == DayStart(s, input).dailyTrades
    ensures !input.newBar ==> r == DayStart(s, input)
    ensures input.newBar ==>
      && r.flow == OrderFlow.UpdateOrderFlowData(bars, host, ma, c.tickSize, DayStart(s, input).flow)
      && r.profile == Profile.ProcessVolumeProfile(bars, host, c.profileLookback, c.tickSize, c.hvnMultiplier, c.lvnMultiplier)
  {
    var s0 := DayStart(s, input);
    if input.newBar then Refresh(s0, bars, ma, host, c) else s0
  }

  /** The rest of a pass once every gate is open: the updates on a new bar,
      then the entry unless a position is open. */
  function Proceed(s: State, bars: seq<Bar>, ma: seq<real>, host: int, i: int, input: BarInput, c: Config): (r: Outcome)
    requires ValidConfig(c) && Fits(s, bars) && |ma| == |bars| && 0 <= host < |bars| && 0 <= i < |bars|
    ensures Fits(r.state, bars) && !r.flatten
    ensures r.state.tradingEnabled == DayStart(s, input).tradingEnabled
    ensures r.order.Some? ==> input.positionQty == 0 && 1 <= r.order.value.quantity <= 3 * c.baseQuantity
    ensures r.state.dailyTrades ==
      DayStart(s, input).dailyTrades + (if r.order.Some? && input.orderResult > 0 then 1 else 0)
    // the updates run whether or not a position is open
    ensures input.newBar ==>
      && r.state.flow == OrderFlow.UpdateOrderFlowData(bars, host, ma, c.tickSize, DayStart(s, input).flow)
      && r.state.profile == Profile.ProcessVolumeProfile(bars, host, c.profileLookback, c.tickSize, c.hvnMultiplier, c.lvnMultiplier)
    ensures !input.newBar ==> r.state.flow == DayStart(s, input).flow && r.state.profile == s.profile
    ensures input.positionQty == 0 ==>
      var best := Arbitrate(MarketOf(Prepared(s, bars, ma, host, input, c), bars, ma, host), i, c);
      && (r.order.Some? <==> best.Some? && ValidateSignal(best.value, input.heat, c.maxHeat))
      && (r.order.Some? ==>
            && r.order.value.direction == best.value.direction
            && r.order.value.strategy == best.value.strategy
            && r.order.value.stopOffset == Risk(best.value)
            && r.order.value.targetOffset == Reward(best.value))
  {
    var s1 := Prepared(s, bars, ma, host, input, c);
    if input.positionQty != 0 then Outcome(s1, false, None)
    else Enter(s1, bars, ma, host, i, input, c)
  }

  /** One iteration of the per-bar loop for bar `i`; `host` is the host's
      current index, which the flow and profile updates read, and `ma` the
      delta moving average the host computes. */
  function Step(s: State, bars: seq<Bar>, ma: seq<real>, host: int, i: int, input: BarInput, c: Config): (r: Outcome)
    requires ValidConfig(c) && Fits(s, bars) && |ma| == |bars| && 0 <= host < |bars| && 0 <= i < |bars|
    ensures Fits(r.state, bars)
    // the flag is raised only by a new trading day
    ensures r.state.tradingEnabled ==> s.tradingEnabled || input.newDay
    // a limit hit while trading halts trading for the day, flattening an open position
    ensures DayStart(s, input).tradingEnabled && LimitHit(c, input.dailyPnL) ==>
      !r.state.tradingEnabled && r.flatten == (input.positionQty != 0) && r.order.None?
    // a flatten needs an open position
    ensures r.flatten ==> input.positionQty != 0
    // an open position is flattened on a limit hit, and at the flatten time
    // within trading hours
    ensures r.flatten <==>
      && input.positionQty != 0
      && DayStart(s, input).tradingEnabled
      && (LimitHit(c, input.dailyPnL) || (input.inTradingHours && input.pastFlattenTime))
    // only a limit hit switches trading off
    ensures DayStart(s, input).tradingEnabled && !LimitHit(c, input.dailyPnL) ==> r.state.tradingEnabled
    // an entry needs every gate open and no position
    ensures r.order.Some? ==> GatesOpen(DayStart(s, input), input, c) && input.positionQty == 0
    ensures r.order.Some? ==> 1 <= r.order.value.quantity <= 3 * c.baseQuantity
    // the trade count restarts each day and rises by one per accepted order
    ensures r.state.dailyTrades ==
      DayStart(s, input).dailyTrades + (if r.order.Some? && input.orderResult > 0 then 1 else 0)
    ensures s.dailyTrades <= c.maxDailyTrades ==> r.state.dailyTrades <= c.maxDailyTrades
    // cumulative delta moves only on new bars past index 0 that clear the gates
    ensures GatesOpen(DayStart(s, input), input, c) && input.newBar && 1 <= host ==>
      r.state.flow.cumDelta == DayStart(s, input).flow.cumDelta + Delta(bars[host])
    ensures !(GatesOpen(DayStart(s, input), input, c) && input.newBar && 1 <= host) ==>
      r.state.flow.cumDelta == DayStart(s, input).flow.cumDelta
    // the flow record and the profile are refreshed exactly on a new bar past
    // every gate, whether or not a position is open
    ensures GatesOpen(DayStart(s, input), input, c) ==>
      r.state.flow == Prepared(s, bars, ma, host, input, c).flow && r.state.profile == Prepared(s, bars, ma, host, input, c).profile
    ensures !GatesOpen(DayStart(s, input), input, c) ==>
      r.state.flow == DayStart(s, input).flow && r.state.profile == s.profile
    // with every gate open and no position, the validated arbitration winner
    // over the refreshed chart is entered, and nothing else is
    ensures GatesOpen(DayStart(s, input), input, c) && input.positionQty == 0 ==>
      var best := Arbitrate(MarketOf(Prepared(s, bars, ma, host, input, c), bars, ma, host), i, c);
      && (r.order.Some? <==> best.Some? && ValidateSignal(best.value, input.heat, c.maxHeat))
      && (r.order.Some? ==>
            && r.order.value.direction == best.value.direction
            && r.order.value.strategy == best.value.strategy
            && r.order.value.stopOffset == Risk(best.value)
            && r.order.value.targetOffset == Reward(best.value))
  {
    var s0 := DayStart(s, input);
    if !s0.tradingEnabled then Outcome(s0, false, None)
    else if LimitHit(c, input.dailyPnL) then
      Outcome(s0.(tradingEnabled := false), input.positionQty != 0, None)
    else if !input.inTradingHours then Outcome(s0, false, None)
    else if input.pastFlattenTime then Outcome(s0, input.positionQty != 0, None)
    else if s0.dailyTrades >= c.maxDailyTrades then Outcome(s0, false, None)
    else Proceed(s, bars, ma, host, i, input, c)
  }

  /** One pass of the loop: bar `i` with the host at `host`. */
  datatype Pass = Pass(i: int, host: int, input: BarInput)

  predicate PassesFit(bars: seq<Bar>, passes: seq<Pass>) {
    forall k :: 0 <= k < |passes| ==> 0 <= passes[k].i < |bars| && 0 <= passes[k].host < |bars|
  }

  /** The state after a sequence of passes over the same chart. */
  function Run(s: State, bars: seq<Bar>, ma: seq<real>, passes: seq<Pass>, c: Config): (r: State)
    requires ValidConfig(c) && Fits(s, bars) && |ma| == |bars| && PassesFit(bars, passes)
    ensures Fits(r, bars)
    decreases |passes|
  {
    if |passes| == 0 then s
    else
      var p := passes[0];
      Run(Step(s, bars, ma, p.host, p.i, p.input, c).state, bars, ma, passes[1..], c)
  }

  /** The daily trade cap is never exceeded, however many passes run. */
  lemma {:induction false} RunKeepsTradeCap(s: State, bars: seq<Bar>, ma: seq<real>, passes: seq<Pass>, c: Config)
    requires ValidConfig(c) && Fits(s, bars) && |ma| == |bars| && PassesFit(bars, passes)
    requires s.dailyTrades <= c.maxDailyTrades
    ensures Run(s, bars, ma, passes, c).dailyTrades <= c.maxDailyTrades
    decreases |passes|
  {
    if |passes| > 0 {
      var p := passes[0];
      var s' := Step(s, bars, ma, p.host, p.i, p.input, c).state;
      RunKeepsTradeCap(s', bars, ma, passes[1..], c);
    }
  }

  /** Trading that is enabled after a run was enabled before it or switched
      on by a new trading day within it. */
  lemma {:induction false} EnabledOnlyByNewDay(s: State, bars: seq<Bar>, ma: seq<real>, passes: seq<Pass>, c: Config)
    requires ValidConfig(c) && Fits(s, bars) && |ma| == |bars| && PassesFit(bars, passes)
    ensures Run(s, bars, ma, passes, c).tradingEnabled ==>
      s.tradingEnabled || exists k :: 0 <= k < |passes| && passes[k].input.newDay
    decreases |passes|
  {
    if |passes| > 0 {
      var p := passes[0];
      var s' := Step(s, bars, ma, p.host, p.i, p.input, c).state;
      EnabledOnlyByNewDay(s', bars, ma, passes[1..], c);
      if Run(s, bars, ma, passes, c).tradingEnabled && !s.tradingEnabled && !p.input.newDay {
        var k :| 0 <= k < |passes[1..]| && passes[1..][k].input.newDay;
        assert passes[k + 1].input.newDay;
      }
    }
  }

  /** A study added to the chart never trades before its first new trading day. */
  lemma NoTradingBeforeFirstDay(bars: seq<Bar>, ma: seq<real>, passes: seq<Pass>, c: Config)
    requires ValidConfig(c) && |ma| == |bars| && PassesFit(bars, passes)
    requires forall k :: 0 <= k < |passes| ==> !passes[k].input.newDay
    ensures !Run(Initial(bars), bars, ma, passes, c).tradingEnabled
  {
    EnabledOnlyByNewDay(Initial(bars), bars, ma, passes, c);
  }

  // ---------------------------------------------------------------------------
  // Cumulative delta over a run

  /** Running the passes one at a time: the last pass follows the others. */
  lemma {:induction false} RunSnoc(s: State, bars: seq<Bar>, ma: seq<real>, passes: seq<Pass>, c: Config)
    requires ValidConfig(c) && Fits(s, bars) && |ma| == |bars| && PassesFit(bars, passes) && |passes| > 0
    ensures var n := |passes| - 1;
      PassesFit(bars, passes[..n]) &&
      Run(s, bars, ma, passes, c) ==
        Step(Run(s, bars, ma, passes[..n], c), bars, ma, passes[n].host, passes[n].i, passes[n].input, c).state
    decreases |passes|
  {
    var n := |passes| - 1;
    assert PassesFit(bars, passes[..n]);
    if n > 0 {
      var p := passes[0];
      var s' := Step(s, bars, ma, p.host, p.i, p.input, c).state;
      var rest := passes[1..];
      assert PassesFit(bars, rest);
      RunSnoc(s', bars, ma, rest, c);
      assert rest[..n - 1] == passes[..n][1..];
      assert passes[..n][0] == p;
      assert rest[n - 1] == passes[n];
      RunUnfold(s, bars, ma, passes[..n], c);
      RunUnfold(s, bars, ma, passes, c);
      // both runs continue from the state after the first pass
      assert Run(s, bars, ma, passes[..n], c) == Run(s', bars, ma, rest[..n - 1], c);
      assert Run(s, bars, ma, passes, c) == Run(s', bars, ma, rest, c);
    } else {
      assert passes[..n] == [];
    }
  }

  /** Run takes the first pass, then runs the rest. */
  lemma RunUnfold(s: State, bars: seq<Bar>, ma: seq<real>, passes: seq<Pass>, c: Config)
    requires ValidConfig(c) && Fits(s, bars) && |ma| == |bars| && PassesFit(bars, passes) && |passes| > 0
    ensures PassesFit(bars, passes[1..])
    ensures Run(s, bars, ma, passes, c) ==
      Run(Step(s, bars, ma, passes[0].host, passes[0].i, passes[0].input, c).state, bars, ma, passes[1..], c)
  {
  }

  /** The state the `k`-th pass starts from. */
  function StateBefore(s: State, bars: seq<Bar>, ma: seq<real>, passes: seq<Pass>, c: Config, k: int): (r: State)
    requires ValidConfig(c) && Fits(s, bars) && |ma| == |bars| && PassesFit(bars, passes) && 0 <= k <= |passes|
    ensures Fits(r, bars)
  {
    assert PassesFit(bars, passes[..k]);
    Run(s, bars, ma, passes[..k], c)
  }

  /** The `k`-th pass reaches the flow update with a new bar past index 0:
      every gate open after the day reset. */
  predicate Counted(s: State, bars: seq<Bar>, ma: seq<real>, passes: seq<Pass>, c: Config, k: int)
    requires ValidConfig(c) && Fits(s, bars) && |ma| == |bars| && PassesFit(bars, passes) && 0 <= k < |passes|
  {
    var p := passes[k];
    GatesOpen(DayStart(StateBefore(s, bars, ma, passes, c, k), p.input), p.input, c) && p.input.newBar && 1 <= p.host
  }

  /** The deltas of the counted passes with index in [lo, hi). */
  function CountedDelta(s: State, bars: seq<Bar>, ma: seq<real>, passes: seq<Pass>, c: Config, lo: int, hi: int): real
    requires ValidConfig(c) && Fits(s, bars) && |ma| == |bars| && PassesFit(bars, passes) && 0 <= lo <= hi <= |passes|
    decreases hi
  {
    if hi == lo then 0.0
    else
      var host := passes[hi - 1].host;
      var d := if Counted(s, bars, ma, passes, c, hi - 1) then Delta(bars[host]) else 0.0;
      CountedDelta(s, bars, ma, passes, c, lo, hi - 1) + d
  }

  /** The index of the last pass that opens a trading day, or -1. */
  function LastNewDay(passes: seq<Pass>): (r: int)
    ensures -1 <= r < |passes|
    ensures r >= 0 ==> passes[r].input.newDay
    ensures forall k :: r < k < |passes| ==> !passes[k].input.newDay
  {
    if |passes| == 0 then -1
    else if passes[|passes| - 1].input.newDay then |passes| - 1
    else LastNewDay(passes[..|passes| - 1])
  }

  /** Earlier passes are counted the same whatever follows them. */
  lemma {:induction false} CountedDeltaPrefix(s: State, bars: seq<Bar>, ma: seq<real>, passes: seq<Pass>, c: Config,
                                              n: int, lo: int, hi: int)
    requires ValidConfig(c) && Fits(s, bars) && |ma| == |bars| && PassesFit(bars, passes)
    requires 0 <= lo <= hi <= n <= |passes|
    ensures PassesFit(bars, passes[..n])
    ensures CountedDelta(s, bars, ma, passes[..n], c, lo, hi) == CountedDelta(s, bars, ma, passes, c, lo, hi)
    decreases hi
  {
    assert PassesFit(bars, passes[..n]);
    if lo < hi {
      CountedDeltaPrefix(s, bars, ma, passes, c, n, lo, hi - 1);
      assert passes[..n][..hi - 1] == passes[..hi - 1];
      assert passes[..n][hi - 1] == passes[hi - 1];
    }
  }

  /** The cumulative delta after a run is the sum of the bar deltas the flow
      update saw since the last new trading day (0 at that day's start), or,
      when no pass opens a day, the starting value plus every counted delta. */
  lemma {:induction false} RunCumDeltaIsSessionSum(s: State, bars: seq<Bar>, ma: seq<real>, passes: seq<Pass>, c: Config)
    requires ValidConfig(c) && Fits(s, bars) && |ma| == |bars| && PassesFit(bars, passes)
    ensures var last := LastNewDay(passes);
      Run(s, bars, ma, passes, c).flow.cumDelta ==
        (if last >= 0 then 0.0 else s.flow.cumDelta) + CountedDelta(s, bars, ma, passes, c, MaxInt(0, last), |passes|)
    decreases |passes|
  {
    var n := |passes|;
    if n > 0 {
      var pre := passes[..n - 1];
      var p := passes[n - 1];
      RunSnoc(s, bars, ma, passes, c);
      var s' := Run(s, bars, ma, pre, c);
      var lo := MaxInt(0, LastNewDay(passes));
      assert StateBefore(s, bars, ma, passes, c, n - 1) == s';
      CountedDeltaLast(s, bars, ma, passes, c, lo);
      if !p.input.newDay {
        assert LastNewDay(passes) == LastNewDay(pre);
        RunCumDeltaIsSessionSum(s, bars, ma, pre, c);
      }
    }
  }

  /** Splitting off the last pass of a counted sum. */
  lemma CountedDeltaLast(s: State, bars: seq<Bar>, ma: seq<real>, passes: seq<Pass>, c: Config, lo: int)
    requires ValidConfig(c) && Fits(s, bars) && |ma| == |bars| && PassesFit(bars, passes)
    requires 0 <= lo < |passes|
    ensures var n := |passes| - 1;
      PassesFit(bars, passes[..n]) &&
      CountedDelta(s, bars, ma, passes, c, lo, n + 1) ==
        CountedDelta(s, bars, ma, passes[..n], c, lo, n)
          + (if Counted(s, bars, ma, passes, c, n) then Delta(bars[passes[n].host]) else 0.0)
  {
    CountedDeltaPrefix(s, bars, ma, passes, c, |passes| - 1, lo, |passes| - 1);
  }
}
