/** The order-flow record of the simpler study (the "Advanced Order Flow
    Trading Bot" DLL, scsf_OrderFlowTradingBot): bid/ask volumes estimated
    from the bar's direction, the absorption and iceberg flags and the
    liquidity imbalance. */
module StudyFlow {
  import opened Bars

  /** The study's per-bar OrderFlowData, without the volume-at-price array
      and the timestamp. */
  datatype FlowRecord = FlowRecord(
    bidVolume: real,
    askVolume: real,
    delta: real,
    absorptionLevel: int,
    icebergDetected: int,
    liquidityImbalance: real)

  datatype Split = Split(ask: real, bid: real)

  /** Without volume-at-price data an up bar is credited 60% to the ask and
      40% to the bid, any other bar the reverse. */
  function Approximate(b: Bar): (r: Split)
    ensures r.ask + r.bid == b.volume
    ensures b.close > b.open ==> r.ask - r.bid == 0.2 * b.volume
    ensures b.close <= b.open ==> r.bid - r.ask == 0.2 * b.volume
    // with traded volume, the estimated delta has the sign of the bar
    ensures 0.0 < b.volume ==> (r.ask > r.bid <==> b.close > b.open)
  {
    if b.close > b.open then Split(b.volume * 0.6, b.volume * 0.4)
    else Split(b.volume * 0.4, b.volume * 0.6)
  }

  /** DetectAbsorption: volume above 1.5 times the mean of the three previous
      volumes on a range below 0.7 times their mean range. Before bar 3 the
      flag is left as it was (`unset`). */
  function DetectAbsorption(bars: seq<Bar>, index: int, unset: int): (r: int)
    requires 0 <= index < |bars|
    ensures index < 3 ==> r == unset
    ensures 3 <= index ==> r == 0 || r == 1
    // division-free: the volume exceeds half the three volumes' sum, and
    // thirty times the range is under seven times the three ranges' sum
    ensures 3 <= index ==> (r == 1 <==>
      && 2.0 * bars[index].volume > VolumeBack(bars, index, 3)
      && 30.0 * Range(bars[index]) < 7.0 * RangeBack(bars, index, 3))
  {
    if index < 3 then unset
    else
      assert VolumeBack(bars, index, 3) == bars[index - 1].volume + bars[index - 2].volume + bars[index - 3].volume by {
        assert VolumeBack(bars, index, 1) == bars[index - 1].volume;
        assert VolumeBack(bars, index, 2) == bars[index - 1].volume + bars[index - 2].volume;
      }
      assert RangeBack(bars, index, 3) == Range(bars[index - 1]) + Range(bars[index - 2]) + Range(bars[index - 3]) by {
        assert RangeBack(bars, index, 1) == Range(bars[index - 1]);
        assert RangeBack(bars, index, 2) == Range(bars[index - 1]) + Range(bars[index - 2]);
      }
      var avgVolume := (bars[index - 1].volume + bars[index - 2].volume + bars[index - 3].volume) / 3.0;
      var typicalRange := (Range(bars[index - 1]) + Range(bars[index - 2]) + Range(bars[index - 3])) / 3.0;
      if bars[index].volume > avgVolume * 1.5 && Range(bars[index]) < typicalRange * 0.7 then 1 else 0
  }

  /** The close `k` bars back is within two ticks of the current close. */
  predicate Similar(bars: seq<Bar>, index: int, k: int, tick: real)
    requires 0 <= k <= index < |bars|
  {
    Abs(bars[index - k].close - bars[index].close) <= 2.0 * tick
  }

  datatype Similarity = Similarity(count: nat, volume: real)

  /** Count and summed volume of the similar closes among the `n` previous bars. */
  function SimilarTally(bars: seq<Bar>, index: int, n: nat, tick: real): (r: Similarity)
    requires n <= index < |bars|
    ensures r.count <= n
    ensures AllWellFormed(bars) ==> 0.0 <= r.volume
  {
    if n == 0 then Similarity(0, 0.0)
    else
      var t := SimilarTally(bars, index, n - 1, tick);
      if Similar(bars, index, n, tick) then Similarity(t.count + 1, t.volume + bars[index - n].volume)
      else t
  }

  /** Which of the `n` previous bars closed near the current close. */
  function SimilarSet(bars: seq<Bar>, index: int, n: nat, tick: real): set<int>
    requires n <= index < |bars|
  {
    set k | 1 <= k <= n && Similar(bars, index, k, tick)
  }

  /** The tally counts exactly the bars whose close is similar. */
  lemma {:induction false} TallyCountsSimilar(bars: seq<Bar>, index: int, n: nat, tick: real)
    requires n <= index < |bars|
    ensures SimilarTally(bars, index, n, tick).count == |SimilarSet(bars, index, n, tick)|
  {
    if n == 0 {
      assert SimilarSet(bars, index, n, tick) == {};
    } else {
      TallyCountsSimilar(bars, index, n - 1, tick);
      var before := SimilarSet(bars, index, n - 1, tick);
      assert n !in before;
      if Similar(bars, index, n, tick) {
        assert SimilarSet(bars, index, n, tick) == before + {n};
      } else {
        assert SimilarSet(bars, index, n, tick) == before;
      }
    }
  }

  /** DetectIcebergOrders: at least two of the four previous closes within two
      ticks of this close, together carrying more than three times this
      bar's volume; a buy iceberg on an up bar, a sell iceberg otherwise. */
  function DetectIcebergOrders(bars: seq<Bar>, index: int, tick: real): (r: int)
    requires 0 <= index < |bars|
    ensures -1 <= r <= 1
    ensures index < 5 ==> r == 0
    ensures r != 0 <==>
      && 5 <= index
      && |SimilarSet(bars, index, 4, tick)| >= 2
      && SimilarTally(bars, index, 4, tick).volume > bars[index].volume * 3.0
    ensures r == 1 <==> r != 0 && bars[index].close > bars[index].open
  {
    if index < 5 then 0
    else
      var t := SimilarTally(bars, index, 4, tick);
      TallyCountsSimilar(bars, index, 4, tick);
      if t.count >= 2 && t.volume > bars[index].volume * 3.0 then
        (if bars[index].close > bars[index].open then 1 else -1)
      else 0
  }

  /** CalculateLiquidityImbalance: (ask - bid) / (ask + bid), 0 when nothing traded. */
  function LiquidityImbalance(ask: real, bid: real): (r: real)
    ensures ask + bid <= 0.0 ==> r == 0.0
    ensures 0.0 <= ask && 0.0 <= bid ==> -1.0 <= r <= 1.0
    ensures 0.0 < ask + bid ==> (0.0 < r <==> bid < ask) && (r < 0.0 <==> ask < bid)
  {
    if ask + bid > 0.0 then
      SignedShareBounds(ask, bid);
      (ask - bid) / (ask + bid)
    else 0.0
  }

  /** The signed share lies in [-1, 1] for non-negative volumes and has the
      sign of ask - bid. */
  lemma SignedShareBounds(ask: real, bid: real)
    requires 0.0 < ask + bid
    ensures 0.0 <= ask && 0.0 <= bid ==> -1.0 <= (ask - bid) / (ask + bid) <= 1.0
    ensures 0.0 < (ask - bid) / (ask + bid) <==> bid < ask
    ensures (ask - bid) / (ask + bid) < 0.0 <==> ask < bid
  {
    var total := ask + bid;
    var r := (ask - bid) / total;
    assert r * total == ask - bid;
    ProductSign(r, total);
    ProductSign(1.0 - r, total);
    ProductSign(r + 1.0, total);
    assert (1.0 - r) * total == 2.0 * bid;
    assert (r + 1.0) * total == 2.0 * ask;
  }

  /** Scaling by a positive factor keeps the sign. */
  lemma ProductSign(x: real, t: real)
    requires 0.0 < t
    ensures 0.0 < x <==> 0.0 < x * t
    ensures x < 0.0 <==> x * t < 0.0
  {
    if 0.0 < x {
      assert 0.0 < x * t;
    } else if x < 0.0 {
      assert (-x) * t > 0.0;
    }
  }

  /** CollectOrderFlowData on the approximation path, which is the path taken
      whenever the host has no volume-at-price data for the bar. */
  function CollectOrderFlowData(bars: seq<Bar>, index: int, tick: real, unset: int): (r: FlowRecord)
    requires 0 <= index < |bars|
    ensures r.askVolume + r.bidVolume == bars[index].volume
    ensures r.delta == r.askVolume - r.bidVolume
    ensures 0.0 < bars[index].volume ==> (0.0 < r.delta <==> bars[index].close > bars[index].open)
    ensures r.absorptionLevel == DetectAbsorption(bars, index, unset)
    ensures r.icebergDetected == DetectIcebergOrders(bars, index, tick)
    ensures 0.0 <= bars[index].volume ==> -1.0 <= r.liquidityImbalance <= 1.0
  {
    var split := Approximate(bars[index]);
    var ask := split.ask;
    var bid := split.bid;
    FlowRecord(bid, ask, ask - bid,
               DetectAbsorption(bars, index, unset),
               DetectIcebergOrders(bars, index, tick),
               LiquidityImbalance(ask, bid))
  }
}
