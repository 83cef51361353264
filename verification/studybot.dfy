/** The per-call logic of the simpler study (scsf_OrderFlowTradingBot): skip
    early and already processed bars, check the switches and the risk
    limits, collect the order flow, advance cumulative delta and run the
    enabled strategies in their fixed order. */
module StudyBot {
  import opened Bars
  import opened Signals
  import opened StudyFlow
  import opened StudyStrategies

  /** Persistent int 1 and persistent float 2. */
  datatype BotState = BotState(lastProcessed: int, cumulativeDelta: real)

  /** What one call leaves behind, and the trades it built. */
  datatype Outcome = Outcome(state: BotState, trades: seq<Trade>)

  /** IsStrategyEnabled: "Run All" or at least one switch. */
  predicate AnyEnabled(c: StudyConfig) {
    c.runAll || c.enabled != {}
  }

  predicate Runs(c: StudyConfig, k: Kind) {
    c.runAll || k in c.enabled
  }

  /** PassesRiskChecks: the daily loss limit and the concurrent-trade cap. */
  function PassesRiskChecks(dailyPnL: real, activeTrades: int, maxDailyLoss: real, maxConcurrentTrades: int): (ok: bool)
    ensures ok ==> dailyPnL > -maxDailyLoss && activeTrades < maxConcurrentTrades
    ensures dailyPnL > -maxDailyLoss && activeTrades < maxConcurrentTrades ==> ok
  {
    if dailyPnL <= -maxDailyLoss then false
    else if activeTrades >= maxConcurrentTrades then false
    else true
  }

  /** Stop and first-target distance, in ticks, of each trading strategy. */
  function Offsets(k: Kind): (r: (real, real))
    ensures k != Lvn && k != CumulativeDelta ==> 0.0 < r.0 < r.1
  {
    match k
    case Absorption => (4.0, 8.0)
    case Iceberg => (6.0, 12.0)
    case Traps => (3.0, 8.0)
    case Breakout => (6.0, 15.0)
    case StopRun => (4.0, 10.0)
    case Imbalance => (5.0, 10.0)
    case Divergence => (6.0, 12.0)
    case Hvn => (4.0, 8.0)
    case Lvn => (0.0, 0.0)
    case CumulativeDelta => (0.0, 0.0)
  }

  /** A trade a strategy of the study can build. */
  predicate Proper(t: Trade, tick: real) {
    t.kind != Lvn && t.kind != CumulativeDelta && Shaped(t, Offsets(t.kind).0, Offsets(t.kind).1, tick)
  }

  /** Every trade comes from a switched-on strategy and is built the way
      that strategy builds trades. */
  predicate Admissible(ts: seq<Trade>, c: StudyConfig) {
    forall t :: t in ts ==> Runs(c, t.kind) && (0.0 < c.tickSize ==> Proper(t, c.tickSize))
  }

  /** Which iceberg and breakout strategies run: the ones c.cpp runs, or the
      corrected ones of the findings. Every other strategy is the same in both. */
  datatype Variant = AsWritten | Corrected

  /** Position of a strategy in ExecuteStrategies' fixed order. */
  function ExecRank(k: Kind): (r: int)
    ensures 0 <= r < 10
  {
    match k
    case Absorption => 0
    case Iceberg => 1
    case Traps => 2
    case Breakout => 3
    case StopRun => 4
    case Imbalance => 5
    case Divergence => 6
    case Hvn => 7
    case Lvn => 8
    case CumulativeDelta => 9
  }

  /** The trade strategy `k` builds on the bar, if any. */
  function StrategyTrade(bars: seq<Bar>, index: int, f: FlowRecord, c: StudyConfig, v: Variant, k: Kind): (r: Option<Trade>)
    requires 1 <= index < |bars|
    ensures r.Some? ==> r.value.kind == k && (0.0 < c.tickSize ==> Proper(r.value, c.tickSize))
    ensures k == Lvn || k == CumulativeDelta ==> r.None?
    // entered at the bar's close, with the configured size or, for a stop run, 80% of it
    ensures r.Some? ==> r.value.entry == bars[index].close
    ensures r.Some? ==> r.value.quantity == (if k == StopRun then TruncToInt((Quantity(c) as real) * 0.8) else Quantity(c))
  {
    match k
    case Absorption => AbsorptionTrade(bars, index, f, c)
    case Iceberg => if v == AsWritten then IcebergTradeAsWritten(bars, index, f, c) else IcebergTrade(bars, index, f, c)
    case Traps => TrapTrade(bars, index, c)
    case Breakout => if v == AsWritten then BreakoutTradeAsWritten(bars, index, f, c) else BreakoutTrade(bars, index, f, c)
    case StopRun => StopRunTrade(bars, index, c)
    case Imbalance => ImbalanceTrade(bars, index, f, c)
    case Divergence => DivergenceTrade(bars, index, f, c)
    case Hvn => HvnTrade(bars, index, c)
    case Lvn => None
    case CumulativeDelta => None
  }

  /** The trades appear in the strategies' execution order. */
  predicate KindOrdered(ts: seq<Trade>) {
    forall i, j :: 0 <= i < j < |ts| ==> ExecRank(ts[i].kind) < ExecRank(ts[j].kind)
  }

  /** Runs the strategies `kinds`, in that order, each only if its switch is
      on; `built(k)` is what strategy `k` builds on the bar. */
  function RunKinds(c: StudyConfig, built: Kind -> Option<Trade>, kinds: seq<Kind>): (r: seq<Trade>)
    requires forall k :: built(k).Some? ==> built(k).value.kind == k
    requires forall i, j :: 0 <= i < j < |kinds| ==> ExecRank(kinds[i]) < ExecRank(kinds[j])
    ensures |r| <= |kinds|
    ensures forall t :: t in r <==> t.kind in kinds && Runs(c, t.kind) && built(t.kind) == Some(t)
    ensures KindOrdered(r)
    decreases |kinds|
  {
    if |kinds| == 0 then []
    else
      var k := kinds[0];
      var rest := RunKinds(c, built, kinds[1..]);
      var r := if Runs(c, k) && built(k).Some? then [built(k).value] + rest else rest;
      RunKindsMembers(c, built, kinds, rest, r);
      RunKindsOrder(built, kinds, rest, r);
      r
  }

  /** The first strategy's trade, if it runs, joins the trades of the rest. */
  lemma RunKindsMembers(c: StudyConfig, built: Kind -> Option<Trade>, kinds: seq<Kind>, rest: seq<Trade>, r: seq<Trade>)
    requires |kinds| > 0
    requires forall t :: t in rest <==> t.kind in kinds[1..] && Runs(c, t.kind) && built(t.kind) == Some(t)
    requires r == if Runs(c, kinds[0]) && built(kinds[0]).Some? then [built(kinds[0]).value] + rest else rest
    requires forall k :: built(k).Some? ==> built(k).value.kind == k
    ensures forall t :: t in r <==> t.kind in kinds && Runs(c, t.kind) && built(t.kind) == Some(t)
  {
    assert forall x :: x in kinds <==> x == kinds[0] || x in kinds[1..];
  }

  /** The first strategy ranks below every later one, so its trade goes in front. */
  lemma RunKindsOrder(built: Kind -> Option<Trade>, kinds: seq<Kind>, rest: seq<Trade>, r: seq<Trade>)
    requires |kinds| > 0
    requires forall i, j :: 0 <= i < j < |kinds| ==> ExecRank(kinds[i]) < ExecRank(kinds[j])
    requires forall t :: t in rest ==> t.kind in kinds[1..]
    requires KindOrdered(rest) && |rest| <= |kinds| - 1
    requires r == rest || (built(kinds[0]).Some? && r == [built(kinds[0]).value] + rest)
    requires forall k :: built(k).Some? ==> built(k).value.kind == k
    ensures KindOrdered(r) && |r| <= |kinds|
  {
    if r != rest {
      forall t | t in rest ensures ExecRank(kinds[0]) < ExecRank(t.kind) {
        var i :| 0 <= i < |kinds[1..]| && kinds[1..][i] == t.kind;
        assert kinds[i + 1] == t.kind;
      }
      assert forall j :: 1 <= j < |r| ==> r[j] == rest[j - 1] && r[j] in rest;
    }
  }

  /** ExecuteStrategies' order: absorption, iceberg, traps, breakout, stop
      run, imbalance, divergence, HVN, LVN, cumulative delta. */
  const Schedule: seq<Kind> := [Absorption, Iceberg, Traps, Breakout, StopRun,
                                Imbalance, Divergence, Hvn, Lvn, CumulativeDelta]

  /** ExecuteStrategies: every switched-on strategy in the fixed order; the
      LVN and cumulative-delta strategies are empty. */
  function ExecuteStrategies(bars: seq<Bar>, index: int, f: FlowRecord, c: StudyConfig, v: Variant): (r: seq<Trade>)
    requires 1 <= index < |bars|
    ensures |r| <= 8
    // a trade is present exactly when its strategy is switched on and builds it
    ensures forall t :: t in r <==> Runs(c, t.kind) && StrategyTrade(bars, index, f, c, v, t.kind) == Some(t)
    // in execution order, so at most one per strategy
    ensures KindOrdered(r)
    ensures Admissible(r, c)
  {
    var r := RunKinds(c, k => StrategyTrade(bars, index, f, c, v, k), Schedule);
    forall t: Trade | Runs(c, t.kind) && StrategyTrade(bars, index, f, c, v, t.kind) == Some(t) ensures t in r {
      ScheduleCovers(t.kind);
    }
    OrderedLength(r);
    r
  }

  /** Every strategy has its place in the schedule. */
  lemma ScheduleCovers(k: Kind)
    ensures k in Schedule
  {
    assert Schedule[ExecRank(k)] == k;
  }

  /** A list whose kinds strictly increase in rank, with no LVN or
      cumulative-delta trade, has at most eight entries. */
  lemma OrderedLength(r: seq<Trade>)
    requires KindOrdered(r) && forall t :: t in r ==> t.kind != Lvn && t.kind != CumulativeDelta
    ensures |r| <= 8
  {
    if |r| > 8 {
      RankAtLeastPosition(r, 8);
      assert false;
    }
  }

  /** In a kind-ordered list the j-th trade's rank is at least j. */
  lemma {:induction false} RankAtLeastPosition(r: seq<Trade>, j: int)
    requires KindOrdered(r) && 0 <= j < |r|
    ensures j <= ExecRank(r[j].kind)
  {
    if j > 0 {
      RankAtLeastPosition(r, j - 1);
    }
  }

  /** The bar is one the study looks at: past bar 9 and not seen before. */
  predicate Fresh(s: BotState, index: int) {
    10 <= index && s.lastProcessed < index
  }

  /** One call for the host's current bar `index`. `dailyPnL` and
      `activeTrades` are the persistent values the study reads; `unset` is
      the absorption flag of the uninitialised local record. */
  function Process(s: BotState, bars: seq<Bar>, index: int, dailyPnL: real, activeTrades: int,
                   c: StudyConfig, unset: int, v: Variant): (r: Outcome)
    requires 0 <= index < |bars|
    ensures !Fresh(s, index) ==> r == Outcome(s, [])
    ensures Fresh(s, index) ==> r.state.lastProcessed == index
    ensures s.lastProcessed <= r.state.lastProcessed
    // cumulative delta advances by the estimated delta only past every gate
    ensures Fresh(s, index) && AnyEnabled(c) && PassesRiskChecks(dailyPnL, activeTrades, c.maxDailyLoss, c.maxConcurrentTrades) ==>
      && r.state.cumulativeDelta == s.cumulativeDelta + (Approximate(bars[index]).ask - Approximate(bars[index]).bid)
      && r.trades == ExecuteStrategies(bars, index, CollectOrderFlowData(bars, index, c.tickSize, unset), c, v)
    ensures !(Fresh(s, index) && AnyEnabled(c) && PassesRiskChecks(dailyPnL, activeTrades, c.maxDailyLoss, c.maxConcurrentTrades)) ==>
      r.state.cumulativeDelta == s.cumulativeDelta && r.trades == []
    ensures Admissible(r.trades, c)
  {
    if index < 10 || index <= s.lastProcessed then Outcome(s, [])
    else
      var s1 := s.(lastProcessed := index);
      if !AnyEnabled(c) then Outcome(s1, [])
      else if !PassesRiskChecks(dailyPnL, activeTrades, c.maxDailyLoss, c.maxConcurrentTrades) then Outcome(s1, [])
      else
        var f := CollectOrderFlowData(bars, index, c.tickSize, unset);
        var s2 := s1.(cumulativeDelta := s1.cumulativeDelta + f.delta);
        Outcome(s2, ExecuteStrategies(bars, index, f, c, v))
  }

  predicate Increasing(xs: seq<int>) {
    forall i, j :: 0 <= i < j < |xs| ==> xs[i] < xs[j]
  }

  /** The call for `indices[k]` gets past the index guard: from bar 10 on,
      above the starting last-processed index `start` and above every
      earlier call's index. */
  predicate Admitted(start: int, indices: seq<int>, k: int)
    requires 0 <= k < |indices|
  {
    10 <= indices[k] && start < indices[k] && forall j :: 0 <= j < k ==> indices[j] < indices[k]
  }

  /** The last-processed index after processing `processed` from `start`. */
  function Latest(start: int, processed: seq<int>): int {
    if |processed| == 0 then start else processed[|processed| - 1]
  }

  /** The index guard alone, over a sequence of calls: the indices it lets
      through, in call order. */
  function Guarded(start: int, indices: seq<int>): (p: seq<int>)
    // no index is let through twice, and never one before bar 10
    ensures Increasing(p)
    ensures forall k :: 0 <= k < |p| ==> 10 <= p[k] && start < p[k]
    ensures forall x :: x in p ==> x in indices
    // the last one let through bounds every call index from bar 10 on
    ensures start <= Latest(start, p)
    ensures forall k :: 0 <= k < |indices| && 10 <= indices[k] ==> indices[k] <= Latest(start, p)
    decreases |indices|
  {
    if |indices| == 0 then []
    else
      var n := |indices| - 1;
      var before := Guarded(start, indices[..n]);
      var x := indices[n];
      var p := if 10 <= x && Latest(start, before) < x then before + [x] else before;
      GuardOrder(start, indices, before, p);
      assert forall y :: y in indices[..n] ==> y in indices;
      p
  }

  /** Exactly the admitted calls get through the guard. */
  lemma {:induction false} GuardedExactly(start: int, indices: seq<int>)
    ensures forall x :: x in Guarded(start, indices) <==>
      exists k :: 0 <= k < |indices| && indices[k] == x && Admitted(start, indices, k)
    decreases |indices|
  {
    if |indices| > 0 {
      var n := |indices| - 1;
      var prefix := indices[..n];
      var before := Guarded(start, prefix);
      GuardedExactly(start, prefix);
      PrefixAdmitted(start, indices, n);
      LastAdmitted(start, indices, Latest(start, before), before);
      GuardMembers(start, indices, prefix, before, Guarded(start, indices));
    }
  }

  /** The calls let through after one more are the admitted ones. */
  lemma GuardMembers(start: int, indices: seq<int>, prefix: seq<int>, before: seq<int>, p: seq<int>)
    requires 0 < |indices| && prefix == indices[..|indices| - 1]
    requires forall x :: x in before <==> exists k :: 0 <= k < |prefix| && prefix[k] == x && Admitted(start, prefix, k)
    requires forall k :: 0 <= k < |prefix| ==> (Admitted(start, prefix, k) <==> Admitted(start, indices, k))
    requires p == before + [indices[|indices| - 1]] || p == before
    requires p == before + [indices[|indices| - 1]] <==> Admitted(start, indices, |indices| - 1)
    requires p == before ==> !Admitted(start, indices, |indices| - 1)
    ensures forall x :: x in p <==> exists k :: 0 <= k < |indices| && indices[k] == x && Admitted(start, indices, k)
    ensures forall x :: x in p ==> x in indices
  {
    var n := |indices| - 1;
    forall y ensures y in p <==> exists k :: 0 <= k < |indices| && indices[k] == y && Admitted(start, indices, k) {
      if exists k :: 0 <= k < |indices| && indices[k] == y && Admitted(start, indices, k) {
        var k :| 0 <= k < |indices| && indices[k] == y && Admitted(start, indices, k);
        if k < n {
          assert prefix[k] == y && Admitted(start, prefix, k);
        }
      }
      if y in before {
        var k :| 0 <= k < n && prefix[k] == y && Admitted(start, prefix, k);
        assert indices[k] == y && Admitted(start, indices, k);
      }
    }
  }

  /** One more call keeps the let-through indices increasing and bounded. */
  lemma GuardOrder(start: int, indices: seq<int>, before: seq<int>, p: seq<int>)
    requires 0 < |indices|
    requires Increasing(before)
    requires forall k :: 0 <= k < |before| ==> 10 <= before[k] && start < before[k]
    requires start <= Latest(start, before)
    requires forall k :: 0 <= k < |indices| - 1 && 10 <= indices[k] ==> indices[k] <= Latest(start, before)
    requires var x := indices[|indices| - 1]; p == if 10 <= x && Latest(start, before) < x then before + [x] else before
    ensures Increasing(p)
    ensures forall k :: 0 <= k < |p| ==> 10 <= p[k] && start < p[k]
    ensures start <= Latest(start, p)
    ensures forall k :: 0 <= k < |indices| && 10 <= indices[k] ==> indices[k] <= Latest(start, p)
  {
  }

  /** A sequence of calls: the state, the bars that got past the index guard
      in call order, and every trade built. */
  datatype Replay = Replay(state: BotState, processed: seq<int>, trades: seq<Trade>)

  function Calls(s: BotState, bars: seq<Bar>, indices: seq<int>, dailyPnL: real, activeTrades: int,
                 c: StudyConfig, unset: int, v: Variant): (r: Replay)
    requires forall x :: x in indices ==> 0 <= x < |bars|
    // the calls that are processed are exactly those the index guard admits
    ensures r.processed == Guarded(s.lastProcessed, indices)
    ensures r.state.lastProcessed == Latest(s.lastProcessed, r.processed)
  {
    if |indices| == 0 then Replay(s, [], [])
    else
      var n := |indices| - 1;
      PrefixMembers(indices, n);
      var before := Calls(s, bars, indices[..n], dailyPnL, activeTrades, c, unset, v);
      var index := indices[n];
      assert index in indices;
      var out := Process(before.state, bars, index, dailyPnL, activeTrades, c, unset, v);
      var processed := if Fresh(before.state, index) then before.processed + [index] else before.processed;
      Replay(out.state, processed, before.trades + out.trades)
  }

  lemma PrefixMembers(xs: seq<int>, n: int)
    requires 0 <= n <= |xs|
    ensures forall x :: x in xs[..n] ==> x in xs
  {
    assert forall k :: 0 <= k < n ==> xs[..n][k] == xs[k];
  }

  /** Whether an earlier call is admitted does not depend on later calls. */
  lemma PrefixAdmitted(start: int, indices: seq<int>, n: int)
    requires 0 <= n < |indices|
    ensures forall k :: 0 <= k < n ==> (Admitted(start, indices[..n], k) <==> Admitted(start, indices, k))
  {
    forall k | 0 <= k < n ensures Admitted(start, indices[..n], k) <==> Admitted(start, indices, k) {
      assert forall j :: 0 <= j <= k ==> indices[..n][j] == indices[j];
    }
  }

  /** After the first `n` calls the last-processed index bounds every earlier
      index from bar 10 on, and it is the starting value or one of them; so
      the guard lets call `n` through exactly when it is admitted. */
  lemma LastAdmitted(start: int, indices: seq<int>, last: int, processed: seq<int>)
    requires 0 < |indices|
    requires forall x :: x in processed ==> x in indices[..|indices| - 1]
    requires last == Latest(start, processed)
    requires start <= last
    requires forall k :: 0 <= k < |indices| - 1 && 10 <= indices[k] ==> indices[k] <= last
    ensures (10 <= indices[|indices| - 1] && last < indices[|indices| - 1]) <==> Admitted(start, indices, |indices| - 1)
  {
    var n := |indices| - 1;
    if Admitted(start, indices, n) && |processed| > 0 {
      assert processed[|processed| - 1] in processed;
      assert last in indices[..n];
    }
  }
}
