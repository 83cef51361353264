/** What the bot's evaluators read from the chart besides the bars: the
    cumulative-delta curve and its moving average (subgraphs 0 and 1), the
    HVN and LVN price lists of the latest volume profile, and the host's
    current index. Also the small helpers several evaluators share. */
module Chart {
  import opened Bars

  datatype Market = Market(
    bars: seq<Bar>,
    cd: seq<real>,     // cumulative delta per bar
    ma: seq<real>,     // its moving average per bar
    hvn: seq<real>,    // HVN prices, ascending
    lvn: seq<real>,    // LVN prices, ascending
    host: int)         // sc.Index

  /** One curve value per bar, and a host index inside the chart. */
  predicate Consistent(m: Market) {
    |m.cd| == |m.bars| && |m.ma| == |m.bars| && 0 <= m.host < |m.bars|
  }

  /** Where the close sits in the bar, 0 at the low and 1 at the high; bars
      narrower than a tick are measured against one tick. */
  function ClosePosition(b: Bar, tick: real): (r: real)
    requires 0.0 < tick
    ensures r >= 0.0 <==> b.close >= b.low
    ensures 0.0 < r ==> b.low < b.close
    ensures WellFormed(b) ==> 0.0 <= r <= 1.0
  {
    var den := Max(tick, Range(b));
    assert 0.0 < den;
    var r := (b.close - b.low) / den;
    assert r * den == b.close - b.low;
    assert WellFormed(b) ==> b.close - b.low <= den;
    FractionBounds(b.close - b.low, den);
    r
  }

  /** `std::min(cap, volume / avg - 1)` as the float code evaluates it: a zero
      average makes the quotient +inf (or NaN for 0/0), and std::min returns
      its first argument, the cap, in both cases. */
  function VolumeBonus(volume: real, avg: real): (r: real)
    ensures r <= 0.3
    ensures avg == 0.0 ==> r == 0.3
    ensures 0.0 < avg && avg * 1.2 < volume ==> 0.2 < r
    ensures 0.0 < avg && avg <= volume ==> 0.0 <= r
  {
    if avg == 0.0 then 0.3
    else
      var q := volume / avg;
      assert q * avg == volume;
      Min(0.3, q - 1.0)
  }

  /** Index of the first element of `s` satisfying `p`, or -1 if none does:
      a range-for loop that breaks at its first hit. */
  function FirstWhere(s: seq<real>, p: real -> bool): (k: int)
    ensures -1 <= k < |s|
    ensures k == -1 <==> forall j :: 0 <= j < |s| ==> !p(s[j])
    ensures 0 <= k ==> p(s[k]) && forall j :: 0 <= j < k ==> !p(s[j])
  {
    if |s| == 0 then -1
    else if p(s[0]) then 0
    else
      var k := FirstWhere(s[1..], p);
      assert forall j :: 1 <= j < |s| ==> s[j] == s[1..][j - 1];
      if k == -1 then -1 else k + 1
  }

  /** k / n lies in [0, 1] for 0 <= k <= n. */
  lemma FractionBounds(k: real, n: real)
    ensures 0.0 <= k <= n && 0.0 < n ==> 0.0 <= k / n <= 1.0
  {
    if n == 0.0 { return; }
    var q := k / n;
    assert q * n == k;
  }
}
