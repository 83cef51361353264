/** The volume profile of the bot (ProcessVolumeProfile): a price-bucketed
    histogram of the volume of a trailing window of bars, each bar's volume
    spread evenly over the tick levels from its low upward, and the
    classification of the buckets into high- and low-volume nodes.

    The source accumulates into a `std::map<float, float>` keyed by price and
    then walks it in ascending key order. Here the histogram is a list of
    buckets kept in strictly ascending price order, which is that map together
    with its iteration order. */
module Profile {
  import opened Bars

  datatype Bucket = Bucket(price: real, volume: real)

  /** A classified profile level (the source's VolumeProfileLevel). */
  datatype Level = Level(price: real, volume: real, isHvn: bool, isLvn: bool)

  /** The profile levels plus the HVN and LVN price lists the evaluators read. */
  datatype VolumeProfile = VolumeProfile(levels: seq<Level>, hvn: seq<real>, lvn: seq<real>)

  function EmptyProfile(): VolumeProfile {
    VolumeProfile([], [], [])
  }

  // ---------------------------------------------------------------------------
  // The histogram

  /** Buckets in strictly ascending price order: no price occurs twice. */
  predicate Ascending(h: seq<Bucket>) {
    forall i, j :: 0 <= i < j < |h| ==> h[i].price < h[j].price
  }

  function Prices(h: seq<Bucket>): set<real> {
    set k | 0 <= k < |h| :: h[k].price
  }

  function Total(h: seq<Bucket>): real {
    if |h| == 0 then 0.0 else h[0].volume + Total(h[1..])
  }

  /** The volume the histogram holds at price `q` (0 when no bucket has it). */
  function VolumeAt(h: seq<Bucket>, q: real): real {
    if |h| == 0 then 0.0 else (if h[0].price == q then h[0].volume else 0.0) + VolumeAt(h[1..], q)
  }

  lemma VolumeAtCons(b: Bucket, t: seq<Bucket>)
    ensures forall q :: VolumeAt([b] + t, q) == (if b.price == q then b.volume else 0.0) + VolumeAt(t, q)
  {
    assert ([b] + t)[1..] == t;
  }

  /** In an ascending histogram the volume at a bucket's price is that bucket's. */
  lemma {:induction false} VolumeAtBucket(h: seq<Bucket>, k: int)
    requires Ascending(h) && 0 <= k < |h|
    ensures VolumeAt(h, h[k].price) == h[k].volume
  {
    if k == 0 {
      VolumeAtAbsent(h[1..], h[0].price);
    } else {
      assert h[1..][k - 1] == h[k];
      VolumeAtBucket(h[1..], k - 1);
    }
  }

  /** No volume below the first bucket's price. */
  lemma {:induction false} VolumeAtAbsent(h: seq<Bucket>, q: real)
    requires Ascending(h) && (|h| > 0 ==> q < h[0].price)
    ensures VolumeAt(h, q) == 0.0
  {
    if |h| > 0 {
      VolumeAtAbsent(h[1..], q);
    }
  }

  lemma PricesCons(b: Bucket, t: seq<Bucket>)
    ensures Prices([b] + t) == {b.price} + Prices(t)
  {
    var r := [b] + t;
    forall q | q in Prices(r) ensures q in {b.price} + Prices(t) {
      var k :| 0 <= k < |r| && r[k].price == q;
      if k > 0 { assert t[k - 1].price == q; }
    }
    forall q | q in Prices(t) ensures q in Prices(r) {
      var k :| 0 <= k < |t| && t[k].price == q;
      assert r[k + 1].price == q;
    }
    assert r[0].price == b.price;
  }

  /** Adds `v` to the bucket at price `p`, creating it if absent
      (`volumeAtPrice[p] += v`). */
  function Deposit(h: seq<Bucket>, p: real, v: real): (r: seq<Bucket>)
    requires Ascending(h)
    ensures Ascending(r)
    ensures Prices(r) == Prices(h) + {p}
    ensures Total(r) == Total(h) + v
    ensures |r| > 0 && r[0].price == (if |h| == 0 || p < h[0].price then p else h[0].price)
    // `v` more at price `p`, the same volume at every other price
    ensures forall q {:trigger VolumeAt(r, q)} :: VolumeAt(r, q) == VolumeAt(h, q) + (if q == p then v else 0.0)
  {
    if |h| == 0 || p < h[0].price then
      DepositInFront(h, p, v);
      [Bucket(p, v)] + h
    else
      var rest := h[1..];
      assert [h[0]] + rest == h;
      if p == h[0].price then
        DepositOnFirst(h[0], rest, v);
        [Bucket(p, h[0].volume + v)] + rest
      else
        var tail := Deposit(rest, p, v);
        DepositBehind(h[0], rest, tail, p, v);
        [h[0]] + tail
  }

  /** A price below every bucket gets a new bucket in front. */
  lemma DepositInFront(h: seq<Bucket>, p: real, v: real)
    requires Ascending(h) && (|h| == 0 || p < h[0].price)
    ensures var r := [Bucket(p, v)] + h;
      && Ascending(r)
      && Prices(r) == Prices(h) + {p}
      && Total(r) == Total(h) + v
      && r[0].price == p
      && forall q {:trigger VolumeAt(r, q)} :: VolumeAt(r, q) == VolumeAt(h, q) + (if q == p then v else 0.0)
  {
    Cons(Bucket(p, v), h);
  }

  /** The first bucket's own price adds to that bucket. */
  lemma DepositOnFirst(b: Bucket, rest: seq<Bucket>, v: real)
    requires Ascending([b] + rest)
    ensures var r := [Bucket(b.price, b.volume + v)] + rest; var h := [b] + rest;
      && Ascending(r)
      && Prices(r) == Prices(h) + {b.price}
      && Total(r) == Total(h) + v
      && r[0].price == b.price
      && forall q {:trigger VolumeAt(r, q)} :: VolumeAt(r, q) == VolumeAt(h, q) + (if q == b.price then v else 0.0)
  {
    Cons(b, rest);
    Cons(Bucket(b.price, b.volume + v), rest);
    assert Ascending(rest) by {
      forall i, j | 0 <= i < j < |rest| ensures rest[i].price < rest[j].price {
        assert ([b] + rest)[i + 1] == rest[i] && ([b] + rest)[j + 1] == rest[j];
      }
    }
    if |rest| > 0 {
      assert ([b] + rest)[1] == rest[0];
    }
  }

  /** Depositing behind the first bucket keeps it in front. */
  lemma DepositBehind(b: Bucket, rest: seq<Bucket>, tail: seq<Bucket>, p: real, v: real)
    requires Ascending([b] + rest) && b.price < p
    requires Ascending(tail)
    requires Prices(tail) == Prices(rest) + {p}
    requires Total(tail) == Total(rest) + v
    requires |tail| > 0 && tail[0].price == (if |rest| == 0 || p < rest[0].price then p else rest[0].price)
    requires forall q {:trigger VolumeAt(tail, q)} :: VolumeAt(tail, q) == VolumeAt(rest, q) + (if q == p then v else 0.0)
    ensures var r := [b] + tail; var h := [b] + rest;
      && Ascending(r)
      && Prices(r) == Prices(h) + {p}
      && Total(r) == Total(h) + v
      && r[0].price == h[0].price
      && forall q {:trigger VolumeAt(r, q)} :: VolumeAt(r, q) == VolumeAt(h, q) + (if q == p then v else 0.0)
  {
    Cons(b, tail);
    Cons(b, rest);
    if |rest| > 0 {
      assert ([b] + rest)[1] == rest[0];
    }
  }

  /** What putting one bucket in front of a histogram does to its prices,
      total, volume per price and order. */
  lemma Cons(b: Bucket, t: seq<Bucket>)
    ensures Prices([b] + t) == {b.price} + Prices(t)
    ensures Total([b] + t) == b.volume + Total(t)
    ensures forall q {:trigger VolumeAt([b] + t, q)} :: VolumeAt([b] + t, q) == (if b.price == q then b.volume else 0.0) + VolumeAt(t, q)
    ensures Ascending(t) && (|t| > 0 ==> b.price < t[0].price) ==> Ascending([b] + t)
  {
    PricesCons(b, t);
    VolumeAtCons(b, t);
    assert ([b] + t)[1..] == t;
  }

  /** The price of level `j` of a bar whose lowest level is `low`. */
  function LevelPrice(low: real, tick: real, j: int): real {
    low + (j as real) * tick
  }

  /** The prices of levels `k .. n-1`. */
  function LevelPrices(low: real, tick: real, k: int, n: int): set<real> {
    set j: int | k <= j < n :: LevelPrice(low, tick, j)
  }

  lemma LevelPricesSplit(low: real, tick: real, k: int, n: int)
    requires k < n
    ensures LevelPrices(low, tick, k, n) == {LevelPrice(low, tick, k)} + LevelPrices(low, tick, k + 1, n)
  {
    forall q | q in LevelPrices(low, tick, k, n)
      ensures q in {LevelPrice(low, tick, k)} + LevelPrices(low, tick, k + 1, n)
    {
      var j :| k <= j < n && LevelPrice(low, tick, j) == q;
      if j > k { assert q in LevelPrices(low, tick, k + 1, n); }
    }
  }

  lemma UnionRegroup(a: set<real>, x: real, b: set<real>)
    ensures (a + {x}) + b == a + ({x} + b)
  {
  }

  /** With a positive tick, later levels lie strictly higher. */
  lemma LevelPriceIncreasing(low: real, tick: real, k: int, j: int)
    requires 0.0 < tick && k < j
    ensures LevelPrice(low, tick, k) < LevelPrice(low, tick, j)
  {
    assert LevelPrice(low, tick, j) - LevelPrice(low, tick, k) == ((j - k) as real) * tick;
  }

  /** Deposits `per` at each of the level prices j in [k, n). */
  function Spread(h: seq<Bucket>, low: real, tick: real, per: real, k: int, n: int): (r: seq<Bucket>)
    requires Ascending(h) && k <= n && 0.0 < tick
    ensures Ascending(r)
    ensures Prices(r) == Prices(h) + LevelPrices(low, tick, k, n)
    ensures Total(r) == Total(h) + Shares(n - k, per)
    // one share more at each of the levels, nothing elsewhere
    ensures forall q {:trigger VolumeAt(r, q)} :: VolumeAt(r, q) == VolumeAt(h, q) + (if q in LevelPrices(low, tick, k, n) then per else 0.0)
    decreases n - k
  {
    if k == n then
      assert LevelPrices(low, tick, k, n) == {};
      h
    else
      var d := Deposit(h, LevelPrice(low, tick, k), per);
      var r := Spread(d, low, tick, per, k + 1, n);
      LevelPricesSplit(low, tick, k, n);
      LevelNotLater(low, tick, k, n);
      SpreadStep(h, d, r, LevelPrice(low, tick, k), LevelPrices(low, tick, k + 1, n), LevelPrices(low, tick, k, n), per, n - k);
      r
  }

  /** One share at `p` followed by one share at each price of `rest`, with `p`
      not in `rest`, is one share at each price of `all` = `{p} + rest`. */
  lemma SpreadStep(h: seq<Bucket>, d: seq<Bucket>, r: seq<Bucket>, p: real, rest: set<real>, all: set<real>, per: real, m: int)
    requires p !in rest && all == {p} + rest && 1 <= m
    requires Prices(d) == Prices(h) + {p} && Prices(r) == Prices(d) + rest
    requires Total(d) == Total(h) + per && Total(r) == Total(d) + Shares(m - 1, per)
    requires forall q {:trigger VolumeAt(d, q)} :: VolumeAt(d, q) == VolumeAt(h, q) + (if q == p then per else 0.0)
    requires forall q {:trigger VolumeAt(r, q)} :: VolumeAt(r, q) == VolumeAt(d, q) + (if q in rest then per else 0.0)
    ensures Prices(r) == Prices(h) + all
    ensures Total(r) == Total(h) + Shares(m, per)
    ensures forall q {:trigger VolumeAt(r, q)} :: VolumeAt(r, q) == VolumeAt(h, q) + (if q in all then per else 0.0)
  {
    UnionRegroup(Prices(h), p, rest);
  }

  /** Level k is not among levels k+1 .. n-1. */
  lemma LevelNotLater(low: real, tick: real, k: int, n: int)
    requires 0.0 < tick
    ensures LevelPrice(low, tick, k) !in LevelPrices(low, tick, k + 1, n)
  {
    if LevelPrice(low, tick, k) in LevelPrices(low, tick, k + 1, n) {
      var j :| k + 1 <= j < n && LevelPrice(low, tick, j) == LevelPrice(low, tick, k);
      LevelPriceIncreasing(low, tick, k, j);
      assert false;
    }
  }

  /** How many tick levels a bar's volume is spread over:
      max(1, (int)((high - low) / tick)). */
  function LevelCount(b: Bar, tick: real): (n: int)
    requires 0.0 < tick
    ensures 1 <= n
    ensures 0.0 <= Range(b) ==> n == MaxInt(1, (Range(b) / tick).Floor)
  {
    MaxInt(1, TruncToInt(Range(b) / tick))
  }

  /** The tick levels one bar covers. */
  function BarLevels(b: Bar, tick: real): set<real>
    requires 0.0 < tick
  {
    LevelPrices(b.low, tick, 0, LevelCount(b, tick))
  }

  /** `m` equal shares of `per`, added one at a time. */
  function Shares(m: int, per: real): real
    decreases m
  {
    if m <= 0 then 0.0 else per + Shares(m - 1, per)
  }

  /** Spreading `total` in `n` equal shares puts back exactly `total`. */
  lemma {:induction false} SharesAddUp(total: real, n: int)
    requires 0 < n
    ensures Shares(n, total / (n as real)) == total
  {
    SharesIsProduct(n, total / (n as real));
  }

  lemma {:induction false} SharesIsProduct(m: nat, per: real)
    ensures Shares(m, per) == (m as real) * per
  {
    if m > 0 {
      SharesIsProduct(m - 1, per);
      assert (m as real) * per == ((m - 1) as real) * per + 1.0 * per;
    }
  }

  /** Spreads one bar's volume evenly over its levels. */
  function AddBar(h: seq<Bucket>, b: Bar, tick: real): (r: seq<Bucket>)
    requires Ascending(h) && 0.0 < tick
    ensures Ascending(r)
    ensures Prices(r) == Prices(h) + BarLevels(b, tick)
    ensures Total(r) == Total(h) + b.volume
    ensures |r| > 0
    // each of the bar's levels gains an equal share of its volume
    ensures forall q {:trigger VolumeAt(r, q)} :: VolumeAt(r, q) == VolumeAt(h, q) + BarShareAt(b, tick, q)
  {
    var n := LevelCount(b, tick);
    var per := b.volume / (n as real);
    SharesAddUp(b.volume, n);
    assert LevelPrice(b.low, tick, 0) in BarLevels(b, tick);
    var r := Spread(h, b.low, tick, per, 0, n);
    assert LevelPrice(b.low, tick, 0) in Prices(r);
    r
  }

  /** The share of a bar's volume that falls on price `q`: volume / levels
      at each of its levels, nothing elsewhere. */
  function BarShareAt(b: Bar, tick: real, q: real): real
    requires 0.0 < tick
  {
    if q in BarLevels(b, tick) then b.volume / (LevelCount(b, tick) as real) else 0.0
  }

  /** The volume at price `q` summed bar by bar over the bars with index in
      [lo, hi] that exist. */
  function WindowVolumeAt(bars: seq<Bar>, lo: int, hi: int, tick: real, q: real): real
    requires 0.0 < tick
    decreases hi - lo
  {
    if hi < lo then 0.0
    else WindowVolumeAt(bars, lo, hi - 1, tick, q) + (if 0 <= hi < |bars| then BarShareAt(bars[hi], tick, q) else 0.0)
  }

  /** Total volume of the bars with index in [lo, hi] that exist. */
  function WindowVolume(bars: seq<Bar>, lo: int, hi: int): real
    decreases hi - lo
  {
    if hi < lo then 0.0
    else WindowVolume(bars, lo, hi - 1) + (if 0 <= hi < |bars| then bars[hi].volume else 0.0)
  }

  /** All tick levels covered by the bars with index in [lo, hi] that exist. */
  function WindowLevels(bars: seq<Bar>, lo: int, hi: int, tick: real): set<real>
    requires 0.0 < tick
    decreases hi - lo
  {
    if hi < lo then {}
    else WindowLevels(bars, lo, hi - 1, tick) + (if 0 <= hi < |bars| then BarLevels(bars[hi], tick) else {})
  }

  /** Some index in [lo, hi] is a bar of the chart. */
  predicate WindowHasBar(bars: seq<Bar>, lo: int, hi: int) {
    lo <= hi && 0 <= hi && lo < |bars| && 0 < |bars|
  }

  /** The histogram of bars lo..hi, oldest bar first; indices outside the
      chart are skipped. */
  function Histogram(bars: seq<Bar>, lo: int, hi: int, tick: real): (r: seq<Bucket>)
    requires 0.0 < tick
    ensures Ascending(r)
    ensures Prices(r) == WindowLevels(bars, lo, hi, tick)
    ensures Total(r) == WindowVolume(bars, lo, hi)
    ensures |r| == 0 <==> !WindowHasBar(bars, lo, hi)
    // the volume at each price is the window's bar-by-bar sum there
    ensures forall q {:trigger VolumeAt(r, q)} :: VolumeAt(r, q) == WindowVolumeAt(bars, lo, hi, tick, q)
    decreases hi - lo
  {
    if hi < lo then []
    else
      var before := Histogram(bars, lo, hi - 1, tick);
      if 0 <= hi < |bars| then AddBar(before, bars[hi], tick) else before
  }

  // ---------------------------------------------------------------------------
  // Classification

  function LevelsTotal(levels: seq<Level>): real {
    if |levels| == 0 then 0.0 else levels[0].volume + LevelsTotal(levels[1..])
  }

  /** Average volume per level: total / number of levels. */
  function AverageVolume(levels: seq<Level>): real
    requires |levels| > 0
  {
    LevelsTotal(levels) / (|levels| as real)
  }

  function ClassifyBuckets(h: seq<Bucket>, hvnThreshold: real, lvnThreshold: real): (r: seq<Level>)
    ensures |r| == |h|
    ensures forall k :: 0 <= k < |h| ==>
      r[k] == Level(h[k].price, h[k].volume, h[k].volume >= hvnThreshold, h[k].volume <= lvnThreshold)
    ensures LevelsTotal(r) == Total(h)
    ensures FlaggedAgainst(r, hvnThreshold, lvnThreshold)
  {
    if |h| == 0 then []
    else
      var r := [Level(h[0].price, h[0].volume, h[0].volume >= hvnThreshold, h[0].volume <= lvnThreshold)]
        + ClassifyBuckets(h[1..], hvnThreshold, lvnThreshold);
      assert r[1..] == ClassifyBuckets(h[1..], hvnThreshold, lvnThreshold);
      r
  }

  /** The prices of the HVN levels, in level order. */
  function HvnPrices(levels: seq<Level>): (r: seq<real>)
    ensures |r| <= |levels|
  {
    if |levels| == 0 then []
    else if levels[0].isHvn then [levels[0].price] + HvnPrices(levels[1..])
    else HvnPrices(levels[1..])
  }

  /** The prices of the LVN levels, in level order. */
  function LvnPrices(levels: seq<Level>): (r: seq<real>)
    ensures |r| <= |levels|
  {
    if |levels| == 0 then []
    else if levels[0].isLvn then [levels[0].price] + LvnPrices(levels[1..])
    else LvnPrices(levels[1..])
  }

  /** A price is in the HVN list exactly when some HVN level has it. */
  lemma {:induction false} HvnMembership(levels: seq<Level>, p: real)
    ensures p in HvnPrices(levels) <==> exists k :: 0 <= k < |levels| && levels[k].price == p && levels[k].isHvn
  {
    if |levels| > 0 {
      HvnMembership(levels[1..], p);
      if exists k :: 0 <= k < |levels| && levels[k].price == p && levels[k].isHvn {
        var k :| 0 <= k < |levels| && levels[k].price == p && levels[k].isHvn;
        if k > 0 { assert levels[1..][k - 1] == levels[k]; }
      }
      if exists k :: 0 <= k < |levels[1..]| && levels[1..][k].price == p && levels[1..][k].isHvn {
        var k :| 0 <= k < |levels[1..]| && levels[1..][k].price == p && levels[1..][k].isHvn;
        assert levels[k + 1] == levels[1..][k];
      }
    }
  }

  /** A price is in the LVN list exactly when some LVN level has it. */
  lemma {:induction false} LvnMembership(levels: seq<Level>, p: real)
    ensures p in LvnPrices(levels) <==> exists k :: 0 <= k < |levels| && levels[k].price == p && levels[k].isLvn
  {
    if |levels| > 0 {
      LvnMembership(levels[1..], p);
      if exists k :: 0 <= k < |levels| && levels[k].price == p && levels[k].isLvn {
        var k :| 0 <= k < |levels| && levels[k].price == p && levels[k].isLvn;
        if k > 0 { assert levels[1..][k - 1] == levels[k]; }
      }
      if exists k :: 0 <= k < |levels[1..]| && levels[1..][k].price == p && levels[1..][k].isLvn {
        var k :| 0 <= k < |levels[1..]| && levels[1..][k].price == p && levels[1..][k].isLvn;
        assert levels[k + 1] == levels[1..][k];
      }
    }
  }

  predicate LevelsAscending(levels: seq<Level>) {
    forall i, j :: 0 <= i < j < |levels| ==> levels[i].price < levels[j].price
  }

  predicate StrictlyIncreasing(s: seq<real>) {
    forall i, j :: 0 <= i < j < |s| ==> s[i] < s[j]
  }

  /** Picking out the HVN (or LVN) prices of ascending levels keeps them ascending. */
  lemma {:induction false} SelectedPricesAscending(levels: seq<Level>)
    requires LevelsAscending(levels)
    ensures StrictlyIncreasing(HvnPrices(levels))
    ensures StrictlyIncreasing(LvnPrices(levels))
  {
    if |levels| > 0 {
      var tail := levels[1..];
      assert LevelsAscending(tail);
      SelectedPricesAscending(tail);
      forall p | p in HvnPrices(tail) ensures levels[0].price < p {
        HvnMembership(tail, p);
        var k :| 0 <= k < |tail| && tail[k].price == p && tail[k].isHvn;
        assert levels[k + 1] == tail[k];
      }
      forall p | p in LvnPrices(tail) ensures levels[0].price < p {
        LvnMembership(tail, p);
        var k :| 0 <= k < |tail| && tail[k].price == p && tail[k].isLvn;
        assert levels[k + 1] == tail[k];
      }
      var h := HvnPrices(tail);
      var l := LvnPrices(tail);
      assert forall k :: 0 <= k < |h| ==> h[k] in h;
      assert forall k :: 0 <= k < |l| ==> l[k] in l;
    }
  }

  /** Every level is flagged HVN exactly when its volume reaches
      `hvnThreshold`, and LVN exactly when it is at most `lvnThreshold`. */
  predicate FlaggedAgainst(levels: seq<Level>, hvnThreshold: real, lvnThreshold: real) {
    forall k :: 0 <= k < |levels| ==>
      && (levels[k].isHvn <==> levels[k].volume >= hvnThreshold)
      && (levels[k].isLvn <==> levels[k].volume <= lvnThreshold)
  }

  /** The flags are taken against avg * hvnMultiplier and avg * lvnMultiplier,
      avg being the mean volume per level. */
  predicate FlagsMatch(levels: seq<Level>, hvnMultiplier: real, lvnMultiplier: real) {
    |levels| > 0 ==>
      FlaggedAgainst(levels, AverageVolume(levels) * hvnMultiplier, AverageVolume(levels) * lvnMultiplier)
  }

  /** The set of prices of some levels. */
  function LevelSet(levels: seq<Level>): set<real> {
    set k | 0 <= k < |levels| :: levels[k].price
  }

  lemma SamePrices(h: seq<Bucket>, levels: seq<Level>)
    requires |levels| == |h|
    requires forall k :: 0 <= k < |h| ==> levels[k].price == h[k].price
    ensures LevelSet(levels) == Prices(h)
  {
    forall q | q in Prices(h) ensures q in LevelSet(levels) {
      var k :| 0 <= k < |h| && h[k].price == q;
      assert levels[k].price == q;
    }
    forall q | q in LevelSet(levels) ensures q in Prices(h) {
      var k :| 0 <= k < |levels| && levels[k].price == q;
      assert h[k].price == q;
    }
  }

  /** Classifies a non-empty histogram against the thresholds
      avg * hvnMultiplier and avg * lvnMultiplier, avg being the mean volume
      per level. */
  function Classify(h: seq<Bucket>, hvnMultiplier: real, lvnMultiplier: real): (r: VolumeProfile)
    requires |h| > 0 && Ascending(h)
    ensures |r.levels| == |h| && LevelSet(r.levels) == Prices(h)
    ensures LevelsTotal(r.levels) == Total(h)
    ensures LevelsAscending(r.levels)
    ensures forall k :: 0 <= k < |r.levels| ==>
      r.levels[k].price == h[k].price && r.levels[k].volume == h[k].volume
    ensures FlagsMatch(r.levels, hvnMultiplier, lvnMultiplier)
    ensures r.hvn == HvnPrices(r.levels) && r.lvn == LvnPrices(r.levels)
  {
    var avg := Total(h) / (|h| as real);
    var levels := ClassifyBuckets(h, avg * hvnMultiplier, avg * lvnMultiplier);
    SamePrices(h, levels);
    AverageFlags(levels, avg, hvnMultiplier, lvnMultiplier);
    VolumeProfile(levels, HvnPrices(levels), LvnPrices(levels))
  }

  /** Levels flagged against their own mean volume scaled by the multipliers
      satisfy FlagsMatch. */
  lemma AverageFlags(levels: seq<Level>, avg: real, hvnMultiplier: real, lvnMultiplier: real)
    requires |levels| > 0 && avg == AverageVolume(levels)
    requires FlaggedAgainst(levels, avg * hvnMultiplier, avg * lvnMultiplier)
    ensures FlagsMatch(levels, hvnMultiplier, lvnMultiplier)
  {
  }

  /** The lookback window of ProcessVolumeProfile: bars
      max(0, host - lookback) .. host. */
  function WindowStart(host: int, lookback: int): int {
    MaxInt(0, host - lookback)
  }

  /** ProcessVolumeProfile at the host's current index `host`. The previous
      profile is not an input: the result replaces it entirely. */
  function ProcessVolumeProfile(bars: seq<Bar>, host: int, lookback: int, tick: real,
                                hvnMultiplier: real, lvnMultiplier: real): (r: VolumeProfile)
    requires 0.0 < tick
    // the levels are the window's tick levels, each once, in ascending price order
    ensures LevelsAscending(r.levels)
    ensures LevelSet(r.levels) == WindowLevels(bars, WindowStart(host, lookback), host, tick)
    // spreading is conservative: the levels hold exactly the window's volume
    ensures LevelsTotal(r.levels) == WindowVolume(bars, WindowStart(host, lookback), host)
    // an empty window gives an empty profile
    ensures |r.levels| == 0 <==> !WindowHasBar(bars, WindowStart(host, lookback), host)
    ensures |r.levels| == 0 ==> r.hvn == [] && r.lvn == []
    // each level holds the window's bar-by-bar volume at its price
    ensures forall k :: 0 <= k < |r.levels| ==>
      r.levels[k].volume == WindowVolumeAt(bars, WindowStart(host, lookback), host, tick, r.levels[k].price)
    // HVN/LVN flags against the average volume per level
    ensures FlagsMatch(r.levels, hvnMultiplier, lvnMultiplier)
    // the HVN and LVN lists are exactly the flagged prices, in ascending order
    ensures r.hvn == HvnPrices(r.levels) && r.lvn == LvnPrices(r.levels)
    ensures StrictlyIncreasing(r.hvn) && StrictlyIncreasing(r.lvn)
  {
    var h := Histogram(bars, WindowStart(host, lookback), host, tick);
    if |h| == 0 then
      assert Prices(h) == {};
      assert LevelSet([]) == {};
      EmptyProfile()
    else
      var r := Classify(h, hvnMultiplier, lvnMultiplier);
      SelectedPricesAscending(r.levels);
      forall k | 0 <= k < |r.levels|
        ensures r.levels[k].volume == WindowVolumeAt(bars, WindowStart(host, lookback), host, tick, r.levels[k].price)
      {
        VolumeAtBucket(h, k);
      }
      r
  }

  lemma PositiveQuotient(a: real, b: real)
    requires 0.0 < a && 0.0 < b
    ensures 0.0 < a / b
  {
  }

  /** A positive average scaled by an LVN multiplier (at most 0.8) stays below
      the same average scaled by an HVN multiplier (at least 1.2). */
  lemma ScaleBelow(avg: real, lvnMultiplier: real, hvnMultiplier: real)
    requires 0.0 < avg && lvnMultiplier <= 0.8 && 1.2 <= hvnMultiplier
    ensures avg * lvnMultiplier < avg * hvnMultiplier
  {
    assert avg * (hvnMultiplier - lvnMultiplier) > 0.0;
  }

  /** With volume present and multipliers on either side of 1, no level is
      flagged both HVN and LVN. */
  lemma NoBothFlags(levels: seq<Level>, hvnMultiplier: real, lvnMultiplier: real, k: int)
    requires FlagsMatch(levels, hvnMultiplier, lvnMultiplier) && 0 <= k < |levels|
    requires 0.0 < LevelsTotal(levels) && 1.2 <= hvnMultiplier && lvnMultiplier <= 0.8
    ensures !(levels[k].isHvn && levels[k].isLvn)
  {
    ThresholdsApart(levels, hvnMultiplier, lvnMultiplier);
    FlaggedBelow(levels, AverageVolume(levels) * hvnMultiplier, AverageVolume(levels) * lvnMultiplier, k);
  }

  /** With volume present, the LVN threshold lies below the HVN threshold. */
  lemma ThresholdsApart(levels: seq<Level>, hvnMultiplier: real, lvnMultiplier: real)
    requires |levels| > 0 && 0.0 < LevelsTotal(levels) && 1.2 <= hvnMultiplier && lvnMultiplier <= 0.8
    ensures AverageVolume(levels) * lvnMultiplier < AverageVolume(levels) * hvnMultiplier
  {
    PositiveQuotient(LevelsTotal(levels), |levels| as real);
    ScaleBelow(AverageVolume(levels), lvnMultiplier, hvnMultiplier);
  }

  /** Below-average and above-average thresholds that do not meet cannot both
      flag a level. */
  lemma FlaggedBelow(levels: seq<Level>, hvnThreshold: real, lvnThreshold: real, k: int)
    requires FlaggedAgainst(levels, hvnThreshold, lvnThreshold) && 0 <= k < |levels|
    ensures lvnThreshold < hvnThreshold ==> !(levels[k].isHvn && levels[k].isLvn)
  {
  }

  /** Hence no price of ascending, correctly flagged levels is in both lists. */
  lemma NoLevelBoth(levels: seq<Level>, hvnMultiplier: real, lvnMultiplier: real, p: real)
    requires LevelsAscending(levels) && FlagsMatch(levels, hvnMultiplier, lvnMultiplier)
    requires 0.0 < LevelsTotal(levels) && 1.2 <= hvnMultiplier && lvnMultiplier <= 0.8
    ensures !(p in HvnPrices(levels) && p in LvnPrices(levels))
  {
    HvnMembership(levels, p);
    LvnMembership(levels, p);
    if p in HvnPrices(levels) && p in LvnPrices(levels) {
      var i :| 0 <= i < |levels| && levels[i].price == p && levels[i].isHvn;
      var j :| 0 <= j < |levels| && levels[j].price == p && levels[j].isLvn;
      NoBothFlags(levels, hvnMultiplier, lvnMultiplier, i);
      assert false;
    }
  }

  /** With volume in the window and the declared multiplier limits (HVN at
      least 1.2, LVN at most 0.8), no price is both an HVN and an LVN. */
  lemma NodesDisjoint(bars: seq<Bar>, host: int, lookback: int, tick: real,
                      hvnMultiplier: real, lvnMultiplier: real, p: real)
    requires 0.0 < tick && 1.2 <= hvnMultiplier && lvnMultiplier <= 0.8
    requires WindowVolume(bars, WindowStart(host, lookback), host) > 0.0
    ensures var r := ProcessVolumeProfile(bars, host, lookback, tick, hvnMultiplier, lvnMultiplier);
      !(p in r.hvn && p in r.lvn)
  {
    var r := ProcessVolumeProfile(bars, host, lookback, tick, hvnMultiplier, lvnMultiplier);
    NoLevelBoth(r.levels, hvnMultiplier, lvnMultiplier, p);
  }
}
