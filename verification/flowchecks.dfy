/** The bot's evaluators that read order flow and the shape of the current
    bar: liquidity absorption, iceberg detection, delta divergence, volume
    imbalance, cumulative-delta trend and liquidity traps.

    Each evaluator starts from "no signal", runs its long and its short check
    in source order, and a check that fires overwrites what an earlier one
    produced (`Later`). */
module FlowEvaluators {
  import opened Bars
  import opened Signals
  import opened Settings
  import opened Chart
  import Swings

  /** a / t >= k with t > 0 means a is at least k ticks. */
  lemma TicksAtLeast(a: real, t: real, k: real)
    requires 0.0 < t && a / t >= k
    ensures a >= k * t
  {
    var q := a / t;
    assert q * t == a;
    assert q * t >= k * t;
  }

  /** The converse: a >= k * n with n > 0 means a / n >= k. */
  lemma QuotientAtLeast(a: real, n: real, k: real)
    requires 0.0 < n && a >= n * k
    ensures a / n >= k
  {
    var q := a / n;
    assert q * n == a;
    if q < k {
      assert q * n < k * n;
    }
  }

  // ---------------------------------------------------------------------------
  // Liquidity absorption

  /** Previous bars (up to `confirmationBars` of them) whose bid (or ask)
      volume reaches 70% of the absorption threshold. */
  function Confirmations(bars: seq<Bar>, index: int, c: Config, bids: bool): (r: nat)
    requires ValidConfig(c) && 0 <= index < |bars|
    ensures r <= c.confirmationBars
  {
    var threshold := (c.absorptionVolume as real) * 0.7;
    CountBack(bars, index, c.confirmationBars,
              (b: Bar) => (if bids then b.bidVolume else b.askVolume) >= threshold)
  }

  /** Heavy passive buying at a stalled bar that closes off its low, seen on
      enough of the previous bars too. */
  predicate AbsorbedAtLow(bars: seq<Bar>, index: int, c: Config)
    requires ValidConfig(c) && 0 <= index < |bars|
  {
    var b := bars[index];
    && b.bidVolume >= c.absorptionVolume as real
    && Range(b) / c.tickSize <= c.stallTicks as real
    && b.close > b.low + Range(b) * 0.6
    && Confirmations(bars, index, c, true) >= c.confirmationBars - 1
  }

  /** Heavy passive selling at a stalled bar that closes off its high. */
  predicate AbsorbedAtHigh(bars: seq<Bar>, index: int, c: Config)
    requires ValidConfig(c) && 0 <= index < |bars|
  {
    var b := bars[index];
    && b.askVolume >= c.absorptionVolume as real
    && Range(b) / c.tickSize <= c.stallTicks as real
    && b.close < b.low + Range(b) * 0.4
    && Confirmations(bars, index, c, false) >= c.confirmationBars - 1
  }

  function AbsorptionConfidence(count: nat, n: int): (r: real)
    requires 1 <= n && n - 1 <= count <= n
    ensures 0.75 <= r <= 1.0
  {
    FractionBounds(count as real, n as real);
    0.75 + (count as real) / (n as real) * 0.25
  }

  /** CheckLiquidityAbsorption. Entry is a tick beyond the close, the stop two
      ticks beyond the bar's extreme, and the target twice the close-to-stop
      distance from the close (not from the entry). */
  function CheckLiquidityAbsorption(m: Market, index: int, c: Config): (r: TradeSignal)
    requires ValidConfig(c) && 0 <= index < |m.bars|
    ensures r.strategy == LiquidityAbsorption
    ensures index < 5 ==> r.direction == 0
    // the short check runs second and wins
    ensures r.direction == -1 <==> 5 <= index && AbsorbedAtHigh(m.bars, index, c)
    ensures r.direction == 1 <==> 5 <= index && AbsorbedAtLow(m.bars, index, c) && !AbsorbedAtHigh(m.bars, index, c)
    ensures r.direction != 0 ==> 0.75 <= r.confidence <= 1.0
    // stop and target on the right sides, the reward at least the risk
    ensures r.direction != 0 && WellFormed(m.bars[index]) ==> WellOrdered(r) && Risk(r) <= Reward(r)
  {
    if index < 5 then NoSignal(LiquidityAbsorption)
    else
      var b := m.bars[index];
      var t := c.tickSize;
      var n := c.confirmationBars;
      var long :=
        if AbsorbedAtLow(m.bars, index, c) then
          var stop := b.low - 2.0 * t;
          TradeSignal(1, AbsorptionConfidence(Confirmations(m.bars, index, c, true), n), LiquidityAbsorption,
                      b.close + t, stop, b.close + (b.close - stop) * 2.0)
        else NoSignal(LiquidityAbsorption);
      var short :=
        if AbsorbedAtHigh(m.bars, index, c) then
          var stop := b.high + 2.0 * t;
          TradeSignal(-1, AbsorptionConfidence(Confirmations(m.bars, index, c, false), n), LiquidityAbsorption,
                      b.close - t, stop, b.close - (stop - b.close) * 2.0)
        else NoSignal(LiquidityAbsorption);
      Later(Later(NoSignal(LiquidityAbsorption), long), short)
  }

  // ---------------------------------------------------------------------------
  // Iceberg detection

  /** Hit count and the integer volume accumulator of one iceberg scan. */
  datatype Tally = Tally(hits: int, volume: int)

  /** The iceberg scan over bars index, index-1, ..., index-k+1: a bar is a hit
      when its low (high) lies within `tolerance` of `level` and its bid (ask)
      volume reaches `minHit`. The accumulator is an `int`, so each addition
      of a float volume is truncated back to an integer. */
  function IcebergTally(bars: seq<Bar>, index: int, k: nat, level: real, tolerance: real,
                        minHit: int, buy: bool): (r: Tally)
    requires k <= index + 1 && index < |bars|
    ensures 0 <= r.hits <= k
    ensures 0 <= minHit ==> minHit * r.hits <= r.volume
  {
    if k == 0 then Tally(0, 0)
    else
      var before := IcebergTally(bars, index, k - 1, level, tolerance, minHit, buy);
      var b := bars[index - (k - 1)];
      var price := if buy then b.low else b.high;
      var volume := if buy then b.bidVolume else b.askVolume;
      if Abs(price - level) <= tolerance && volume >= minHit as real then
        TallyStep(before.volume, before.hits, minHit, volume);
        Tally(before.hits + 1, TruncToInt(before.volume as real + volume))
      else before
  }

  /** One more hit keeps the accumulator at least minHit per hit. */
  lemma TallyStep(volume: int, hits: int, minHit: int, added: real)
    requires 0 <= hits && added >= minHit as real
    ensures 0 <= minHit && minHit * hits <= volume ==> minHit * (hits + 1) <= TruncToInt(volume as real + added)
  {
    if 0 <= minHit && minHit * hits <= volume {
      var sum := volume as real + added;
      assert (volume + minHit) as real <= sum;
      assert minHit * (hits + 1) == minHit * hits + minHit;
      assert volume + minHit <= TruncToInt(sum);
    }
  }

  function IcebergLevel(b: Bar, buy: bool): real {
    if buy then b.low else b.high
  }

  function IcebergScan(bars: seq<Bar>, index: int, c: Config, buy: bool): (r: Tally)
    requires ValidConfig(c) && c.icebergBars <= index < |bars|
    ensures 0 <= r.hits <= c.icebergBars
    ensures c.icebergMinHit * r.hits <= r.volume
  {
    IcebergTally(bars, index, c.icebergBars, IcebergLevel(bars[index], buy),
                 (c.icebergTolerance as real) * c.tickSize, c.icebergMinHit, buy)
  }

  /** Repeated large hits at the bar's low (high) over the detection window,
      and the close bouncing more than a tick away from that level. */
  predicate IcebergAt(bars: seq<Bar>, index: int, c: Config, buy: bool)
    requires ValidConfig(c) && c.icebergBars <= index < |bars|
  {
    var scan := IcebergScan(bars, index, c, buy);
    var level := IcebergLevel(bars[index], buy);
    && (scan.hits as real) >= (c.icebergBars as real) * 0.6
    && scan.volume >= c.icebergMinHit * c.icebergBars
    && (if buy then bars[index].close > level + c.tickSize else bars[index].close < level - c.tickSize)
  }

  function IcebergConfidence(hits: int, n: int): (r: real)
    requires 1 <= n && (hits as real) >= (n as real) * 0.6 && hits <= n
    ensures 0.78 <= r <= 0.9
  {
    var q := (hits as real) / (n as real);
    assert q * (n as real) == hits as real;
    QuotientAtLeast(hits as real, n as real, 0.6);
    FractionBounds(hits as real, n as real);
    0.6 + q * 0.3
  }

  /** CheckIcebergDetection. */
  function CheckIcebergDetection(m: Market, index: int, c: Config): (r: TradeSignal)
    requires ValidConfig(c) && 0 <= index < |m.bars|
    ensures r.strategy == IcebergDetection
    ensures index < c.icebergBars ==> r.direction == 0
    // the sell check runs second and wins
    ensures r.direction == -1 <==> c.icebergBars <= index && IcebergAt(m.bars, index, c, false)
    ensures r.direction == 1 <==>
      c.icebergBars <= index && IcebergAt(m.bars, index, c, true) && !IcebergAt(m.bars, index, c, false)
    ensures r.direction != 0 ==> 0.78 <= r.confidence <= 0.9
    // geometry holds for every bar: the bounce condition puts the close past the level
    ensures r.direction != 0 ==> WellOrdered(r) && Reward(r) == 1.5 * Risk(r)
  {
    if index < c.icebergBars then NoSignal(IcebergDetection)
    else
      var b := m.bars[index];
      var t := c.tickSize;
      var n := c.icebergBars;
      var long :=
        if IcebergAt(m.bars, index, c, true) then
          LongR(IcebergDetection, IcebergConfidence(IcebergScan(m.bars, index, c, true).hits, n),
                b.close + t, b.low - 2.0 * t, 1.5)
        else NoSignal(IcebergDetection);
      var short :=
        if IcebergAt(m.bars, index, c, false) then
          ShortR(IcebergDetection, IcebergConfidence(IcebergScan(m.bars, index, c, false).hits, n),
                 b.close - t, b.high + 2.0 * t, 1.5)
        else NoSignal(IcebergDetection);
      Later(Later(NoSignal(IcebergDetection), long), short)
  }

  // ---------------------------------------------------------------------------
  // Delta divergence

  /** `num / |den| >= threshold` for num > 0 as the float code evaluates it: a
      zero denominator gives +inf, which passes. */
  predicate RatioReaches(num: real, den: real, threshold: real) {
    den == 0.0 || num / Abs(den) >= threshold
  }

  /** `std::min(cap, num / |den|)` with the same +inf convention. */
  function CappedRatio(num: real, den: real, cap: real): (r: real)
    ensures r <= cap
    ensures RatioReaches(num, den, 0.1) && 0.1 <= cap ==> 0.1 <= r
  {
    if den == 0.0 then cap else Min(cap, num / Abs(den))
  }

  /** A new high above the lookback window's highest high by at least three
      ticks while cumulative delta stays at least 10% below its value there. */
  predicate BearishDivergence(m: Market, index: int, c: Config)
    requires ValidConfig(c) && c.divergenceLookback + 5 <= index < |m.bars| && |m.cd| == |m.bars|
  {
    var k := Swings.HighestIndex(m.bars, index - c.divergenceLookback, index - 1);
    && m.bars[index].high > m.bars[k].high
    && m.cd[index] < m.cd[k]
    && (m.bars[index].high - m.bars[k].high) / c.tickSize >= 3.0
    && RatioReaches(m.cd[k] - m.cd[index], m.cd[k], 0.1)
  }

  /** A new low below the window's lowest low by at least three ticks while
      cumulative delta stays at least 10% above its value there. */
  predicate BullishDivergence(m: Market, index: int, c: Config)
    requires ValidConfig(c) && c.divergenceLookback + 5 <= index < |m.bars| && |m.cd| == |m.bars|
  {
    var k := Swings.LowestIndex(m.bars, index - c.divergenceLookback, index - 1);
    && m.bars[index].low < m.bars[k].low
    && m.cd[index] > m.cd[k]
    && (m.bars[k].low - m.bars[index].low) / c.tickSize >= 3.0
    && RatioReaches(m.cd[index] - m.cd[k], m.cd[k], 0.1)
  }

  /** CheckDeltaDivergence. */
  function CheckDeltaDivergence(m: Market, index: int, c: Config): (r: TradeSignal)
    requires ValidConfig(c) && 0 <= index < |m.bars| && |m.cd| == |m.bars|
    ensures r.strategy == DeltaDivergence
    ensures index < c.divergenceLookback + 5 ==> r.direction == 0
    // the bullish check runs second and wins
    ensures r.direction == 1 <==> c.divergenceLookback + 5 <= index && BullishDivergence(m, index, c)
    ensures r.direction == -1 <==>
      c.divergenceLookback + 5 <= index && BearishDivergence(m, index, c) && !BullishDivergence(m, index, c)
    // a bearish signal means a high at least three ticks above every high of the window
    ensures r.direction == -1 ==> forall j :: index - c.divergenceLookback <= j < index ==>
      m.bars[j].high + 3.0 * c.tickSize <= m.bars[index].high
    ensures r.direction == 1 ==> forall j :: index - c.divergenceLookback <= j < index ==>
      m.bars[index].low + 3.0 * c.tickSize <= m.bars[j].low
    ensures r.direction != 0 ==> 0.8 <= r.confidence <= 0.95
    ensures r.direction != 0 && WellFormed(m.bars[index]) ==> WellOrdered(r) && Reward(r) == 2.0 * Risk(r)
  {
    if index < c.divergenceLookback + 5 then NoSignal(DeltaDivergence)
    else
      var b := m.bars[index];
      var t := c.tickSize;
      var lo := index - c.divergenceLookback;
      var kh := Swings.HighestIndex(m.bars, lo, index - 1);
      var kl := Swings.LowestIndex(m.bars, lo, index - 1);
      var bearish :=
        if BearishDivergence(m, index, c) then
          TicksAtLeast(b.high - m.bars[kh].high, t, 3.0);
          ShortR(DeltaDivergence, 0.7 + CappedRatio(m.cd[kh] - m.cd[index], m.cd[kh], 0.25),
                 b.close - t, b.high + 2.0 * t, 2.0)
        else NoSignal(DeltaDivergence);
      var bullish :=
        if BullishDivergence(m, index, c) then
          TicksAtLeast(m.bars[kl].low - b.low, t, 3.0);
          LongR(DeltaDivergence, 0.7 + CappedRatio(m.cd[index] - m.cd[kl], m.cd[kl], 0.25),
                b.close + t, b.low - 2.0 * t, 2.0)
        else NoSignal(DeltaDivergence);
      Later(Later(NoSignal(DeltaDivergence), bearish), bullish)
  }

  // ---------------------------------------------------------------------------
  // Volume imbalance

  /** At least 75% of the bar's traded volume on the ask (bid) side, at least
      30 contracts traded, and the close in the upper (lower) 40% of the bar. */
  predicate StrongImbalance(b: Bar, tick: real, buying: bool)
    requires 0.0 < tick
  {
    var total := b.askVolume + b.bidVolume;
    && total != 0.0
    && 30.0 <= total
    && (if buying then b.askVolume / total >= 0.75 && ClosePosition(b, tick) >= 0.6
        else b.bidVolume / total >= 0.75 && ClosePosition(b, tick) <= 0.4)
  }

  function ImbalanceConfidence(side: real, total: real): (r: real)
    requires 0.0 < total && side / total >= 0.75
    ensures 0.65 <= r
    ensures 0.0 <= side <= total ==> r <= 1.0
  {
    var ratio := side / total;
    FractionBounds(side, total);
    0.65 + (ratio - 0.75) * 1.4
  }

  /** One side's share of at least 75% means it traded at least three times the other. */
  lemma ShareAtLeastThreeTimes(side: real, other: real)
    requires 0.0 < side + other && side / (side + other) >= 0.75
    ensures side >= 3.0 * other
  {
    TicksAtLeast(side, side + other, 0.75);
  }

  /** CheckVolumeImbalance. */
  function CheckVolumeImbalance(m: Market, index: int, c: Config): (r: TradeSignal)
    requires ValidConfig(c) && 0 <= index < |m.bars|
    ensures r.strategy == VolumeImbalance
    ensures index < 2 ==> r.direction == 0
    // the bearish check runs second and wins
    ensures r.direction == -1 <==> 2 <= index && StrongImbalance(m.bars[index], c.tickSize, false)
    ensures r.direction == 1 <==>
      2 <= index && StrongImbalance(m.bars[index], c.tickSize, true) && !StrongImbalance(m.bars[index], c.tickSize, false)
    // a long means the ask side traded at least three times the bid side, a short the reverse
    ensures r.direction == 1 ==> m.bars[index].askVolume >= 3.0 * m.bars[index].bidVolume
    ensures r.direction == -1 ==> m.bars[index].bidVolume >= 3.0 * m.bars[index].askVolume
    ensures r.direction != 0 ==> 0.65 <= r.confidence
    ensures r.direction != 0 && WellFormed(m.bars[index]) ==> r.confidence <= 1.0
    ensures r.direction == 1 ==> WellOrdered(r) && Reward(r) == 1.5 * Risk(r)
    ensures r.direction == -1 && WellFormed(m.bars[index]) ==> WellOrdered(r) && Reward(r) == 1.5 * Risk(r)
  {
    if index < 2 then NoSignal(VolumeImbalance)
    else
      var b := m.bars[index];
      var t := c.tickSize;
      var total := b.askVolume + b.bidVolume;
      var long :=
        if StrongImbalance(b, t, true) then
          ShareAtLeastThreeTimes(b.askVolume, b.bidVolume);
          LongR(VolumeImbalance, ImbalanceConfidence(b.askVolume, total), b.close + t, b.low - t, 1.5)
        else NoSignal(VolumeImbalance);
      var short :=
        if StrongImbalance(b, t, false) then
          assert b.bidVolume + b.askVolume == total;
          ShareAtLeastThreeTimes(b.bidVolume, b.askVolume);
          ShortR(VolumeImbalance, ImbalanceConfidence(b.bidVolume, total), b.close - t, b.high + t, 1.5)
        else NoSignal(VolumeImbalance);
      Later(Later(NoSignal(VolumeImbalance), long), short)
  }

  // ---------------------------------------------------------------------------
  // Cumulative delta trend

  /** |change of cumulative delta| / max(1, |cumulative delta|). */
  function TrendStrength(current: real, previous: real): (r: real)
    ensures 0.0 <= r
  {
    var den := Max(1.0, Abs(current));
    assert 0.0 < den;
    Abs(current - previous) / den
  }

  /** Cumulative delta above its average, both rising, price rising with it,
      and delta moving by at least 5% of its size. */
  predicate BullishDeltaTrend(m: Market, index: int)
    requires 1 <= index < |m.bars| && |m.cd| == |m.bars| && |m.ma| == |m.bars|
  {
    && m.cd[index] - m.cd[index - 1] > 0.0
    && m.bars[index].close - m.bars[index - 1].close > 0.0
    && m.cd[index] > m.ma[index]
    && m.ma[index] - m.ma[index - 1] > 0.0
    && TrendStrength(m.cd[index], m.cd[index - 1]) >= 0.05
  }

  /** The mirror image: delta at or below its average, neither rising, price
      falling with delta, and the same 5% strength. */
  predicate BearishDeltaTrend(m: Market, index: int)
    requires 1 <= index < |m.bars| && |m.cd| == |m.bars| && |m.ma| == |m.bars|
  {
    && m.cd[index] - m.cd[index - 1] < 0.0
    && m.bars[index].close - m.bars[index - 1].close < 0.0
    && !(m.cd[index] > m.ma[index])
    && !(m.ma[index] - m.ma[index - 1] > 0.0)
    && TrendStrength(m.cd[index], m.cd[index - 1]) >= 0.05
  }

  function TrendConfidence(strength: real): (r: real)
    requires 0.05 <= strength
    ensures 0.85 <= r <= 0.9
  {
    0.6 + Min(0.3, strength * 5.0)
  }

  /** CheckCumulativeDeltaTrend. */
  function CheckCumulativeDeltaTrend(m: Market, index: int, c: Config): (r: TradeSignal)
    requires ValidConfig(c) && 0 <= index < |m.bars| && |m.cd| == |m.bars| && |m.ma| == |m.bars|
    ensures r.strategy == CumulativeDeltaTrend
    ensures index < 20 ==> r.direction == 0
    ensures r.direction == 1 <==> 20 <= index && BullishDeltaTrend(m, index)
    ensures r.direction == -1 <==> 20 <= index && BearishDeltaTrend(m, index)
    ensures r.direction != 0 ==> 0.85 <= r.confidence <= 0.9
    ensures r.direction != 0 && WellFormed(m.bars[index]) ==> WellOrdered(r) && Reward(r) == 1.5 * Risk(r)
  {
    if index < 20 then NoSignal(CumulativeDeltaTrend)
    else
      var b := m.bars[index];
      var t := c.tickSize;
      var strength := TrendStrength(m.cd[index], m.cd[index - 1]);
      var long :=
        if BullishDeltaTrend(m, index) then
          LongR(CumulativeDeltaTrend, TrendConfidence(strength), b.close + t, b.low - 2.0 * t, 1.5)
        else NoSignal(CumulativeDeltaTrend);
      var short :=
        if BearishDeltaTrend(m, index) then
          ShortR(CumulativeDeltaTrend, TrendConfidence(strength), b.close - t, b.high + 2.0 * t, 1.5)
        else NoSignal(CumulativeDeltaTrend);
      Later(Later(NoSignal(CumulativeDeltaTrend), long), short)
  }

  // ---------------------------------------------------------------------------
  // Liquidity traps

  /** Pattern 1: volume above twice the 10-bar average on a range below 70%
      of the 10-bar average range. */
  predicate HeavySmallBar(bars: seq<Bar>, index: int)
    requires 0 <= index < |bars|
  {
    var avgVolume := VolumeBack(bars, index, 10) / 10.0;
    var avgRange := RangeBack(bars, index, 10) / 10.0;
    bars[index].volume > avgVolume * 2.0 && Range(bars[index]) < avgRange * 0.7
  }

  /** Pattern 2, upward: a high more than three ticks above the previous high
      and a close more than two ticks below it. */
  predicate SpikeUp(bars: seq<Bar>, index: int, tick: real)
    requires 1 <= index < |bars|
  {
    bars[index].high > bars[index - 1].high + 3.0 * tick && bars[index].close < bars[index].high - 2.0 * tick
  }

  /** Pattern 2, downward: the mirror image. */
  predicate SpikeDown(bars: seq<Bar>, index: int, tick: real)
    requires 1 <= index < |bars|
  {
    bars[index].low < bars[index - 1].low - 3.0 * tick && bars[index].close > bars[index].low + 2.0 * tick
  }

  /** CheckLiquidityTraps: pattern 1 (fade a heavy small bar's close) is
      overwritten by pattern 2 (fade a spike), downward spikes last. */
  function CheckLiquidityTraps(m: Market, index: int, c: Config): (r: TradeSignal)
    requires ValidConfig(c) && 0 <= index < |m.bars|
    ensures r.strategy == LiquidityTraps
    ensures index < 10 ==> r.direction == 0
    ensures 10 <= index && SpikeDown(m.bars, index, c.tickSize) ==> r.direction == 1 && r.confidence == 0.7
    ensures 10 <= index && SpikeUp(m.bars, index, c.tickSize) && !SpikeDown(m.bars, index, c.tickSize)
      ==> r.direction == -1 && r.confidence == 0.7
    // without a spike only pattern 1 can fire, and only on a heavy small bar
    ensures 10 <= index && !SpikeUp(m.bars, index, c.tickSize) && !SpikeDown(m.bars, index, c.tickSize)
      ==> (r.direction != 0 ==> HeavySmallBar(m.bars, index) && r.confidence == 0.65)
    ensures r.direction != 0 ==> r.confidence == 0.65 || r.confidence == 0.7
    ensures r.direction != 0 && WellFormed(m.bars[index]) ==> WellOrdered(r)
  {
    if index < 10 then NoSignal(LiquidityTraps)
    else
      var b := m.bars[index];
      var t := c.tickSize;
      var range := Range(b);
      var heavy := HeavySmallBar(m.bars, index);
      var bullTrap :=
        if heavy && b.close < b.low + range * 0.3 then LongR(LiquidityTraps, 0.65, b.close + t, b.low - t, 2.0)
        else NoSignal(LiquidityTraps);
      var bearTrap :=
        if heavy && b.close > b.low + range * 0.7 then ShortR(LiquidityTraps, 0.65, b.close - t, b.high + t, 2.0)
        else NoSignal(LiquidityTraps);
      var upSpike :=
        if SpikeUp(m.bars, index, t) then ShortR(LiquidityTraps, 0.7, b.close - t, b.high + t, 1.5)
        else NoSignal(LiquidityTraps);
      var downSpike :=
        if SpikeDown(m.bars, index, t) then LongR(LiquidityTraps, 0.7, b.close + t, b.low - t, 1.5)
        else NoSignal(LiquidityTraps);
      Later(Later(Later(Later(NoSignal(LiquidityTraps), bullTrap), bearTrap), upSpike), downSpike)
  }
}
