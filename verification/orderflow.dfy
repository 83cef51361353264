/** The order-flow aggregator of the bot (UpdateOrderFlowData): running
    cumulative delta, the cumulative-delta curve the evaluators read, and the
    per-bar imbalance and absorption figures.

    The delta moving average is computed by a host library call over the
    curve; it is an input sequence `ma` here. */
module OrderFlow {
  import opened Bars

  /** The bot's OrderFlowData record; its profile levels live in Profile. */
  datatype FlowData = FlowData(
    cumulativeDelta: real,
    deltaMA: real,
    volumeImbalance: real,
    absorptionStrength: real)

  /** What one aggregator update leaves behind: the persistent cumulative delta,
      the cumulative-delta curve (one value per bar) and the flow record. */
  datatype FlowState = FlowState(cumDelta: real, curve: seq<real>, data: FlowData)

  /** |ask - bid| / (ask + bid): the share of the bar's traded volume that is
      one-sided. */
  function Imbalance(b: Bar): (r: real)
    requires b.askVolume + b.bidVolume > 0.0
    ensures 0.0 <= b.askVolume && 0.0 <= b.bidVolume ==> 0.0 <= r <= 1.0
    ensures r == 0.0 <==> b.askVolume == b.bidVolume
  {
    var total := b.askVolume + b.bidVolume;
    ImbalanceBounds(Abs(b.askVolume - b.bidVolume), total, b.askVolume, b.bidVolume);
    Abs(b.askVolume - b.bidVolume) / total
  }

  lemma ImbalanceBounds(num: real, total: real, a: real, b: real)
    requires total == a + b && total > 0.0 && num == Abs(a - b)
    ensures 0.0 <= a && 0.0 <= b ==> num / total <= 1.0
    ensures 0.0 <= num / total
    ensures num / total == 0.0 <==> a == b
  {
    var q := num / total;
    assert q * total == num;
    if 0.0 <= a && 0.0 <= b && q > 1.0 {
      assert num <= total;
      assert q * total > 1.0 * total;
    }
  }

  /** UpdateOrderFlowData for the bar at the host's current index `host`
      (sc.Index in the source, which need not be the bar the bot's loop is on). */
  function UpdateOrderFlowData(bars: seq<Bar>, host: int, ma: seq<real>, tick: real, s: FlowState): (r: FlowState)
    requires 0 <= host < |bars| && |s.curve| == |bars| && |ma| == |bars|
    requires 0.0 < tick
    ensures host < 1 ==> r == s
    ensures host >= 1 ==> r.cumDelta == s.cumDelta + bars[host].askVolume - bars[host].bidVolume
    ensures |r.curve| == |s.curve|
    ensures host >= 1 ==> r.curve[host] == r.cumDelta
    ensures forall k :: 0 <= k < |s.curve| && k != host ==> r.curve[k] == s.curve[k]
    ensures host >= 1 ==> r.data.cumulativeDelta == r.cumDelta && r.data.deltaMA == ma[host]
    ensures host >= 1 && bars[host].askVolume + bars[host].bidVolume > 0.0 && WellFormed(bars[host])
      ==> 0.0 <= r.data.volumeImbalance <= 1.0
    ensures host >= 1 && bars[host].askVolume + bars[host].bidVolume > 0.0
      ==> r.data.volumeImbalance == Imbalance(bars[host])
    ensures bars[host].askVolume + bars[host].bidVolume <= 0.0
      ==> r.data.volumeImbalance == s.data.volumeImbalance
    // a bar without range or without volume leaves the absorption figure as it was
    ensures !(Range(bars[host]) > 0.0 && bars[host].askVolume + bars[host].bidVolume > 0.0)
      ==> r.data.absorptionStrength == s.data.absorptionStrength
    ensures bars[host].askVolume + bars[host].bidVolume > 0.0 && Range(bars[host]) > 0.0 && host >= 1
      ==> r.data.absorptionStrength * (Range(bars[host]) / tick) == bars[host].askVolume + bars[host].bidVolume
  {
    if host < 1 then s
    else
      var b := bars[host];
      var cd := s.cumDelta + Delta(b);
      var total := b.askVolume + b.bidVolume;
      var imbalance := if total > 0.0 then Imbalance(b) else s.data.volumeImbalance;
      var range := Range(b);
      var absorption := if range > 0.0 && total > 0.0 then total / (range / tick) else s.data.absorptionStrength;
      FlowState(cd, s.curve[host := cd], FlowData(cd, ma[host], imbalance, absorption))
  }
}
