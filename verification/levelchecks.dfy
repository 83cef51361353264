/** The bot's evaluators that trade around price levels: stop runs through
    recent swing points, rejections from high-volume nodes, breakouts through
    low-volume nodes, and momentum breakouts of the recent range. */
module LevelEvaluators {
  import opened Bars
  import opened Signals
  import opened Settings
  import opened Chart
  import Swings

  /** Average volume of the ten bars before `index`; missing bars count as
      zero and the sum is still divided by ten. */
  function TenBarAverage(bars: seq<Bar>, index: int): (r: real)
    requires 0 <= index < |bars|
    ensures AllWellFormed(bars) ==> 0.0 <= r
  {
    VolumeBack(bars, index, 10) / 10.0
  }

  // ---------------------------------------------------------------------------
  // Stop-run anticipation

  /** The bar's high cleared `swing` by at most three ticks on volume above
      1.5 times the average. */
  predicate RanAbove(b: Bar, swing: real, avg: real, tick: real) {
    b.high > swing && Abs(b.high - swing) <= 3.0 * tick && b.volume > avg * 1.5
  }

  /** The bar's low cleared `swing` by at most three ticks on volume above
      1.5 times the average. */
  predicate RanBelow(b: Bar, swing: real, avg: real, tick: real) {
    b.low < swing && Abs(b.low - swing) <= 3.0 * tick && b.volume > avg * 1.5
  }

  /** After a run above `swing`: fade it when the close stays below two ticks
      above the swing, otherwise ride it. */
  function RunAboveSignal(b: Bar, swing: real, tick: real): (r: TradeSignal)
    requires 0.0 < tick
    ensures b.close < swing + 2.0 * tick ==> r.direction == -1 && r.confidence == 0.7
    ensures !(b.close < swing + 2.0 * tick) ==>
      r.direction == 1 && r.confidence == 0.65 && WellOrdered(r) && Reward(r) == 2.0 * Risk(r)
  {
    if b.close < swing + 2.0 * tick then
      TradeSignal(-1, 0.7, StopRunAnticipation, b.close - tick, b.high + 2.0 * tick, swing - 3.0 * tick)
    else
      LongR(StopRunAnticipation, 0.65, b.close + tick, swing - tick, 2.0)
  }

  /** After a run below `swing`: fade it when the close stays above two ticks
      below the swing, otherwise ride it. */
  function RunBelowSignal(b: Bar, swing: real, tick: real): (r: TradeSignal)
    requires 0.0 < tick
    ensures b.close > swing - 2.0 * tick ==> r.direction == 1 && r.confidence == 0.7
    ensures !(b.close > swing - 2.0 * tick) ==>
      r.direction == -1 && r.confidence == 0.65 && WellOrdered(r) && Reward(r) == 2.0 * Risk(r)
  {
    if b.close > swing - 2.0 * tick then
      TradeSignal(1, 0.7, StopRunAnticipation, b.close + tick, b.low - 2.0 * tick, swing + 3.0 * tick)
    else
      ShortR(StopRunAnticipation, 0.65, b.close - tick, swing + tick, 2.0)
  }

  /** The radius-5 swing highs (lows) up to the host's current bar. */
  function SwingList(m: Market, highs: bool): seq<real>
    requires Consistent(m)
  {
    Swings.SwingPoints(m.bars, 5, highs, m.host)
  }

  /** The first swing high the bar ran through, or -1. */
  function FirstRunAbove(m: Market, index: int, tick: real): (k: int)
    requires Consistent(m) && 0 <= index < |m.bars|
    ensures -1 <= k < |SwingList(m, true)|
    ensures k == -1 <==> forall j :: 0 <= j < |SwingList(m, true)| ==>
      !RanAbove(m.bars[index], SwingList(m, true)[j], TenBarAverage(m.bars, index), tick)
    ensures 0 <= k ==>
      && RanAbove(m.bars[index], SwingList(m, true)[k], TenBarAverage(m.bars, index), tick)
      && forall j :: 0 <= j < k ==> !RanAbove(m.bars[index], SwingList(m, true)[j], TenBarAverage(m.bars, index), tick)
  {
    var b := m.bars[index];
    var avg := TenBarAverage(m.bars, index);
    FirstWhere(SwingList(m, true), s => RanAbove(b, s, avg, tick))
  }

  /** The first swing low the bar ran through, or -1. */
  function FirstRunBelow(m: Market, index: int, tick: real): (k: int)
    requires Consistent(m) && 0 <= index < |m.bars|
    ensures -1 <= k < |SwingList(m, false)|
    ensures k == -1 <==> forall j :: 0 <= j < |SwingList(m, false)| ==>
      !RanBelow(m.bars[index], SwingList(m, false)[j], TenBarAverage(m.bars, index), tick)
    ensures 0 <= k ==>
      && RanBelow(m.bars[index], SwingList(m, false)[k], TenBarAverage(m.bars, index), tick)
      && forall j :: 0 <= j < k ==> !RanBelow(m.bars[index], SwingList(m, false)[j], TenBarAverage(m.bars, index), tick)
  {
    var b := m.bars[index];
    var avg := TenBarAverage(m.bars, index);
    FirstWhere(SwingList(m, false), s => RanBelow(b, s, avg, tick))
  }

  /** CheckStopRunAnticipation: the first swing high run through decides;
      swing lows are looked at only when no swing high produced a signal. */
  function CheckStopRunAnticipation(m: Market, index: int, c: Config): (r: TradeSignal)
    requires ValidConfig(c) && Consistent(m) && 0 <= index < |m.bars|
    ensures r.strategy == StopRunAnticipation
    ensures index < 20 ==> r.direction == 0
    ensures 20 <= index && 0 <= FirstRunAbove(m, index, c.tickSize) ==>
      r == RunAboveSignal(m.bars[index], SwingList(m, true)[FirstRunAbove(m, index, c.tickSize)], c.tickSize)
    ensures 20 <= index && FirstRunAbove(m, index, c.tickSize) == -1 && 0 <= FirstRunBelow(m, index, c.tickSize) ==>
      r == RunBelowSignal(m.bars[index], SwingList(m, false)[FirstRunBelow(m, index, c.tickSize)], c.tickSize)
    // a signal needs a run through some swing point, on above-average volume
    ensures r.direction != 0 <==> (20 <= index &&
      ((exists j :: 0 <= j < |SwingList(m, true)| &&
          RanAbove(m.bars[index], SwingList(m, true)[j], TenBarAverage(m.bars, index), c.tickSize)) ||
       (exists j :: 0 <= j < |SwingList(m, false)| &&
          RanBelow(m.bars[index], SwingList(m, false)[j], TenBarAverage(m.bars, index), c.tickSize))))
    ensures r.direction != 0 ==> r.confidence == 0.65 || r.confidence == 0.7
  {
    if index < 20 then NoSignal(StopRunAnticipation)
    else
      var b := m.bars[index];
      var t := c.tickSize;
      var above := FirstRunAbove(m, index, t);
      if 0 <= above then RunAboveSignal(b, SwingList(m, true)[above], t)
      else
        var below := FirstRunBelow(m, index, t);
        if 0 <= below then RunBelowSignal(b, SwingList(m, false)[below], t)
        else NoSignal(StopRunAnticipation)
  }

  /** The fade short after a run above a swing high has its target below its
      entry exactly when the close is above the swing minus two ticks;
      otherwise the signal is malformed and validation turns it down. */
  lemma FadeShortOrdering(b: Bar, swing: real, tick: real)
    requires 0.0 < tick && WellFormed(b) && b.close < swing + 2.0 * tick
    ensures WellOrdered(RunAboveSignal(b, swing, tick)) <==> b.close > swing - 2.0 * tick
  {
  }

  // ---------------------------------------------------------------------------
  // HVN rejection

  /** The low came within the proximity band of the node, the high reached it,
      and the close fell back at least two ticks below it. */
  predicate RejectedBelowNode(b: Bar, level: real, c: Config)
    requires 0.0 < c.tickSize
  {
    var band := (c.proximityTicks as real) * c.tickSize;
    && level - band <= b.low <= level + band
    && b.close < level && b.high >= level
    && (level - b.close) / c.tickSize >= 2.0
  }

  /** The high came within the proximity band of the node, the low reached
      it, and the close held at least two ticks above it. */
  predicate RejectedAboveNode(b: Bar, level: real, c: Config)
    requires 0.0 < c.tickSize
  {
    var band := (c.proximityTicks as real) * c.tickSize;
    && level - band <= b.high <= level + band
    && b.close > level && b.low <= level
    && (b.close - level) / c.tickSize >= 2.0
  }

  predicate RejectedAt(b: Bar, level: real, c: Config)
    requires 0.0 < c.tickSize
  {
    RejectedBelowNode(b, level, c) || RejectedAboveNode(b, level, c)
  }

  function RejectionConfidence(strength: real): (r: real)
    requires 2.0 <= strength
    ensures 0.85 <= r <= 0.9
  {
    0.65 + Min(0.25, strength / 10.0)
  }

  /** The trade at a rejecting node: short below it, long above it. */
  function RejectionSignal(b: Bar, level: real, c: Config): (r: TradeSignal)
    requires 0.0 < c.tickSize && RejectedAt(b, level, c)
    ensures RejectedBelowNode(b, level, c) ==> r.direction == -1 && r.stop == level + 2.0 * c.tickSize
    ensures !RejectedBelowNode(b, level, c) ==> r.direction == 1 && r.stop == level - 2.0 * c.tickSize
    ensures 0.85 <= r.confidence <= 0.9
    ensures WellOrdered(r) && Reward(r) == 1.5 * Risk(r)
  {
    var t := c.tickSize;
    if RejectedBelowNode(b, level, c) then
      ShortR(HvnRejection, RejectionConfidence((level - b.close) / t), b.close - t, level + 2.0 * t, 1.5)
    else
      LongR(HvnRejection, RejectionConfidence((b.close - level) / t), b.close + t, level - 2.0 * t, 1.5)
  }

  /** CheckHVNRejection: the first node (in ascending price order) the bar
      rejected decides, the check below the node before the one above it. */
  function CheckHVNRejection(m: Market, index: int, c: Config): (r: TradeSignal)
    requires ValidConfig(c) && 0 <= index < |m.bars|
    ensures r.strategy == HvnRejection
    ensures |m.hvn| == 0 ==> r.direction == 0
    ensures r.direction != 0 <==> exists k :: 0 <= k < |m.hvn| && RejectedAt(m.bars[index], m.hvn[k], c)
    ensures r.direction != 0 ==>
      exists k ::
        && 0 <= k < |m.hvn|
        && RejectedAt(m.bars[index], m.hvn[k], c)
        && (forall j :: 0 <= j < k ==> !RejectedAt(m.bars[index], m.hvn[j], c))
        && r == RejectionSignal(m.bars[index], m.hvn[k], c)
    // geometry holds for every bar: the close is already past the node
    ensures r.direction != 0 ==> WellOrdered(r) && Reward(r) == 1.5 * Risk(r)
    ensures r.direction != 0 ==> 0.85 <= r.confidence <= 0.9
  {
    if |m.hvn| == 0 then NoSignal(HvnRejection)
    else
      var b := m.bars[index];
      var k := FirstWhere(m.hvn, level => RejectedAt(b, level, c));
      if k == -1 then NoSignal(HvnRejection) else RejectionSignal(b, m.hvn[k], c)
  }

  // ---------------------------------------------------------------------------
  // LVN breakout

  /** The previous bar's low was at or under the node, this bar's high is past
      the node by more than the proximity band, on volume above 1.2 times the
      ten-bar average. */
  predicate BreaksUpThrough(bars: seq<Bar>, index: int, level: real, c: Config)
    requires 1 <= index < |bars|
  {
    && bars[index - 1].low <= level
    && bars[index].high > level + (c.proximityTicks as real) * c.tickSize
    && bars[index].volume > TenBarAverage(bars, index) * 1.2
  }

  /** The mirror image, downward. */
  predicate BreaksDownThrough(bars: seq<Bar>, index: int, level: real, c: Config)
    requires 1 <= index < |bars|
  {
    && bars[index - 1].high >= level
    && bars[index].low < level - (c.proximityTicks as real) * c.tickSize
    && bars[index].volume > TenBarAverage(bars, index) * 1.2
  }

  predicate BreaksThrough(bars: seq<Bar>, index: int, level: real, c: Config)
    requires 1 <= index < |bars|
  {
    BreaksUpThrough(bars, index, level, c) || BreaksDownThrough(bars, index, level, c)
  }

  /** The trade through a node: long when it broke up, otherwise short; the
      stop sits a tick back on the node's other side. */
  function BreakoutSignal(bars: seq<Bar>, index: int, level: real, c: Config): (r: TradeSignal)
    requires ValidConfig(c) && 1 <= index < |bars| && BreaksThrough(bars, index, level, c)
    ensures BreaksUpThrough(bars, index, level, c) ==> r.direction == 1 && r.stop == level - c.tickSize
    ensures !BreaksUpThrough(bars, index, level, c) ==> r.direction == -1 && r.stop == level + c.tickSize
    ensures AllWellFormed(bars) ==> 0.6 <= r.confidence <= 0.9
    ensures StopBehindEntry(r) ==> WellOrdered(r) && Reward(r) == 2.0 * Risk(r)
  {
    var b := bars[index];
    var t := c.tickSize;
    var confidence := 0.6 + VolumeBonus(b.volume, TenBarAverage(bars, index));
    if BreaksUpThrough(bars, index, level, c) then
      LongR(LvnBreakout, confidence, b.close + t, level - t, 2.0)
    else
      ShortR(LvnBreakout, confidence, b.close - t, level + t, 2.0)
  }

  /** CheckLVNBreakout: the first node (ascending) the bar broke through
      decides, the upward check before the downward one. At index 0 there is
      no previous bar and the evaluator declines. */
  function CheckLVNBreakout(m: Market, index: int, c: Config): (r: TradeSignal)
    requires ValidConfig(c) && 0 <= index < |m.bars|
    ensures r.strategy == LvnBreakout
    ensures |m.lvn| == 0 || index < 1 ==> r.direction == 0
    ensures r.direction != 0 <==>
      1 <= index && exists k :: 0 <= k < |m.lvn| && BreaksThrough(m.bars, index, m.lvn[k], c)
    ensures r.direction != 0 ==>
      exists k ::
        && 0 <= k < |m.lvn|
        && BreaksThrough(m.bars, index, m.lvn[k], c)
        && (forall j :: 0 <= j < k ==> !BreaksThrough(m.bars, index, m.lvn[j], c))
        && r == BreakoutSignal(m.bars, index, m.lvn[k], c)
    ensures r.direction != 0 && AllWellFormed(m.bars) ==> 0.6 <= r.confidence <= 0.9
  {
    if |m.lvn| == 0 || index < 1 then NoSignal(LvnBreakout)
    else
      var k := FirstWhere(m.lvn, level => BreaksThrough(m.bars, index, level, c));
      if k == -1 then NoSignal(LvnBreakout) else BreakoutSignal(m.bars, index, m.lvn[k], c)
  }

  // ---------------------------------------------------------------------------
  // Momentum breakout

  /** Highest high and lowest low of the `breakoutLookback` bars before `index`. */
  function RangeHigh(bars: seq<Bar>, index: int, c: Config): (r: real)
    requires ValidConfig(c) && c.breakoutLookback <= index < |bars|
    ensures forall j :: index - c.breakoutLookback <= j < index ==> bars[j].high <= r
  {
    bars[Swings.HighestIndex(bars, index - c.breakoutLookback, index - 1)].high
  }

  function RangeLow(bars: seq<Bar>, index: int, c: Config): (r: real)
    requires ValidConfig(c) && c.breakoutLookback <= index < |bars|
    ensures forall j :: index - c.breakoutLookback <= j < index ==> r <= bars[j].low
  {
    bars[Swings.LowestIndex(bars, index - c.breakoutLookback, index - 1)].low
  }

  function LookbackAverage(bars: seq<Bar>, index: int, c: Config): (r: real)
    requires ValidConfig(c) && 0 <= index < |bars|
    ensures AllWellFormed(bars) ==> 0.0 <= r
  {
    VolumeBack(bars, index, c.breakoutLookback) / (c.breakoutLookback as real)
  }

  /** Of the `momentumConfirmation` previous bars, those that closed up (down). */
  function MomentumBars(bars: seq<Bar>, index: int, c: Config, up: bool): (r: nat)
    requires ValidConfig(c) && 0 <= index < |bars|
    ensures r <= c.momentumConfirmation
  {
    CountBack(bars, index, c.momentumConfirmation,
              (b: Bar) => if up then b.close > b.open else b.close < b.open)
  }

  /** A high above the range high on volume of at least the multiplier times
      the average, closing in the top 30% of the bar, with at least 60% of the
      confirmation bars closing up. */
  predicate UpwardBreakout(bars: seq<Bar>, index: int, c: Config)
    requires ValidConfig(c) && c.breakoutLookback <= index < |bars|
  {
    var b := bars[index];
    && b.high > RangeHigh(bars, index, c)
    && b.volume >= LookbackAverage(bars, index, c) * c.breakoutVolumeMult
    && ClosePosition(b, c.tickSize) >= 0.7
    && (MomentumBars(bars, index, c, true) as real) >= (c.momentumConfirmation as real) * 0.6
  }

  /** The mirror image, downward. */
  predicate DownwardBreakout(bars: seq<Bar>, index: int, c: Config)
    requires ValidConfig(c) && c.breakoutLookback <= index < |bars|
  {
    var b := bars[index];
    && b.low < RangeLow(bars, index, c)
    && b.volume >= LookbackAverage(bars, index, c) * c.breakoutVolumeMult
    && ClosePosition(b, c.tickSize) <= 0.3
    && (MomentumBars(bars, index, c, false) as real) >= (c.momentumConfirmation as real) * 0.6
  }

  function MomentumConfidence(volume: real, avg: real, multiplier: real): (r: real)
    requires 1.1 <= multiplier && 0.0 <= avg && volume >= avg * multiplier
    ensures 0.6 <= r <= 0.9
  {
    assert avg <= avg * multiplier;
    0.6 + VolumeBonus(volume, avg)
  }

  /** The confidence of a momentum breakout: 0.6 plus the capped volume bonus. */
  function BreakoutConfidence(bars: seq<Bar>, index: int, c: Config): (r: real)
    requires ValidConfig(c) && c.breakoutLookback <= index < |bars|
    ensures AllWellFormed(bars) && bars[index].volume >= LookbackAverage(bars, index, c) * c.breakoutVolumeMult
      ==> 0.6 <= r <= 0.9
  {
    var avg := LookbackAverage(bars, index, c);
    if 0.0 <= avg && bars[index].volume >= avg * c.breakoutVolumeMult
    then MomentumConfidence(bars[index].volume, avg, c.breakoutVolumeMult)
    else 0.6 + VolumeBonus(bars[index].volume, avg)
  }

  /** The long of CheckMomentumBreakout: entry a tick above the close, stop a
      tick below the range low, target at twice the risk. */
  function MomentumLong(bars: seq<Bar>, index: int, c: Config): (r: TradeSignal)
    requires ValidConfig(c) && c.breakoutLookback <= index < |bars|
    ensures r.strategy == MomentumBreakout && r.direction != -1
    ensures r.direction == 1 <==> UpwardBreakout(bars, index, c)
    ensures r.direction == 1 ==> forall j :: index - c.breakoutLookback <= j < index ==>
      bars[j].high < bars[index].high
    ensures r.direction != 0 && AllWellFormed(bars) ==> 0.6 <= r.confidence <= 0.9
    ensures StopBehindEntry(r) ==> WellOrdered(r) && Reward(r) == 2.0 * Risk(r)
  {
    if UpwardBreakout(bars, index, c) then
      LongR(MomentumBreakout, BreakoutConfidence(bars, index, c), bars[index].close + c.tickSize,
            RangeLow(bars, index, c) - c.tickSize, 2.0)
    else NoSignal(MomentumBreakout)
  }

  /** The short of CheckMomentumBreakout, mirrored around the range high. */
  function MomentumShort(bars: seq<Bar>, index: int, c: Config): (r: TradeSignal)
    requires ValidConfig(c) && c.breakoutLookback <= index < |bars|
    ensures r.strategy == MomentumBreakout && r.direction != 1
    ensures r.direction == -1 <==> DownwardBreakout(bars, index, c)
    ensures r.direction == -1 ==> forall j :: index - c.breakoutLookback <= j < index ==>
      bars[index].low < bars[j].low
    ensures r.direction != 0 && AllWellFormed(bars) ==> 0.6 <= r.confidence <= 0.9
    ensures StopBehindEntry(r) ==> WellOrdered(r) && Reward(r) == 2.0 * Risk(r)
  {
    if DownwardBreakout(bars, index, c) then
      ShortR(MomentumBreakout, BreakoutConfidence(bars, index, c), bars[index].close - c.tickSize,
             RangeHigh(bars, index, c) + c.tickSize, 2.0)
    else NoSignal(MomentumBreakout)
  }

  /** CheckMomentumBreakout. */
  function CheckMomentumBreakout(m: Market, index: int, c: Config): (r: TradeSignal)
    requires ValidConfig(c) && 0 <= index < |m.bars|
    ensures r.strategy == MomentumBreakout
    ensures index < c.breakoutLookback + c.momentumConfirmation ==> r.direction == 0
    // the downward check runs second and wins
    ensures r.direction == -1 <==>
      c.breakoutLookback + c.momentumConfirmation <= index && DownwardBreakout(m.bars, index, c)
    ensures r.direction == 1 <==>
      c.breakoutLookback + c.momentumConfirmation <= index && UpwardBreakout(m.bars, index, c)
      && !DownwardBreakout(m.bars, index, c)
    // a long needs a high above every high of the range, a short a low below every low
    ensures r.direction == 1 ==> forall j :: index - c.breakoutLookback <= j < index ==>
      m.bars[j].high < m.bars[index].high
    ensures r.direction == -1 ==> forall j :: index - c.breakoutLookback <= j < index ==>
      m.bars[index].low < m.bars[j].low
    ensures r.direction != 0 && AllWellFormed(m.bars) ==> 0.6 <= r.confidence <= 0.9
    ensures StopBehindEntry(r) ==> WellOrdered(r) && Reward(r) == 2.0 * Risk(r)
  {
    if index < c.breakoutLookback + c.momentumConfirmation then NoSignal(MomentumBreakout)
    else Later(Later(NoSignal(MomentumBreakout), MomentumLong(m.bars, index, c)), MomentumShort(m.bars, index, c))
  }
}
