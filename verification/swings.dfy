/** Price extremes over bar history: the host's index-of-highest/lowest
    queries and the bot's swing-point scan. */
module Swings {
  import opened Bars

  /** Index of the highest `high` in bars[lo..hi] (inclusive), the first one
      on ties: the host's GetIndexOfHighestValue over the High array. */
  function HighestIndex(bars: seq<Bar>, lo: int, hi: int): (k: int)
    requires 0 <= lo <= hi < |bars|
    decreases hi - lo
    ensures lo <= k <= hi
    ensures forall j :: lo <= j <= hi ==> bars[j].high <= bars[k].high
    ensures forall j :: lo <= j < k ==> bars[j].high < bars[k].high
  {
    if lo == hi then lo
    else
      var rest := HighestIndex(bars, lo + 1, hi);
      if bars[lo].high >= bars[rest].high then lo else rest
  }

  /** Index of the lowest `low` in bars[lo..hi] (inclusive), the first one on
      ties: the host's GetIndexOfLowestValue over the Low array. */
  function LowestIndex(bars: seq<Bar>, lo: int, hi: int): (k: int)
    requires 0 <= lo <= hi < |bars|
    decreases hi - lo
    ensures lo <= k <= hi
    ensures forall j :: lo <= j <= hi ==> bars[k].low <= bars[j].low
    ensures forall j :: lo <= j < k ==> bars[k].low < bars[j].low
  {
    if lo == hi then lo
    else
      var rest := LowestIndex(bars, lo + 1, hi);
      if bars[lo].low <= bars[rest].low then lo else rest
  }

  function Extreme(b: Bar, highs: bool): real {
    if highs then b.high else b.low
  }

  /** Bar `i` is a swing high (low) of radius `radius` when every other bar
      within `radius` of it has a strictly lower high (strictly higher low). */
  ghost predicate IsSwing(bars: seq<Bar>, i: int, radius: nat, highs: bool)
    requires radius <= i && i + radius < |bars|
  {
    forall j :: i - radius <= j <= i + radius && j != i ==>
      if highs then bars[j].high < bars[i].high else bars[j].low > bars[i].low
  }

  /** The swing values of the bars whose index lies in [lo, hi), oldest first. */
  ghost function SwingsBetween(bars: seq<Bar>, radius: nat, highs: bool, lo: int, hi: int): seq<real>
    requires radius <= lo && (hi <= lo || hi - 1 + radius < |bars|)
    decreases hi - lo
  {
    if hi <= lo then []
    else
      SwingsBetween(bars, radius, highs, lo, hi - 1)
        + (if IsSwing(bars, hi - 1, radius, highs) then [Extreme(bars[hi - 1], highs)] else [])
  }

  /** FindSwingPoints, the declarative way: the swings whose whole window fits
      between bar 0 and bar `host`, where `host` is the host's current index. */
  ghost function SwingPointsSpec(bars: seq<Bar>, radius: nat, highs: bool, host: int): seq<real>
    requires host < |bars|
  {
    SwingsBetween(bars, radius, highs, radius, host - radius + 1)
  }

  /** Whether bar `i` is a swing, computed; agrees with IsSwing. */
  function SwingAt(bars: seq<Bar>, i: int, radius: nat, highs: bool): (b: bool)
    requires radius <= i && i + radius < |bars|
    ensures b <==> IsSwing(bars, i, radius, highs)
  {
    forall j | i - radius <= j <= i + radius && j != i ::
      if highs then bars[j].high < bars[i].high else bars[j].low > bars[i].low
  }

  /** The swing values the evaluators consume. */
  function SwingPoints(bars: seq<Bar>, radius: nat, highs: bool, host: int): (r: seq<real>)
    requires host < |bars|
    ensures r == SwingPointsSpec(bars, radius, highs, host)
  {
    SwingsUpTo(bars, radius, highs, radius, host - radius + 1)
  }

  function SwingsUpTo(bars: seq<Bar>, radius: nat, highs: bool, lo: int, hi: int): (r: seq<real>)
    requires radius <= lo && (hi <= lo || hi - 1 + radius < |bars|)
    ensures r == SwingsBetween(bars, radius, highs, lo, hi)
    decreases hi - lo
  {
    if hi <= lo then []
    else
      SwingsUpTo(bars, radius, highs, lo, hi - 1)
        + (if SwingAt(bars, hi - 1, radius, highs) then [Extreme(bars[hi - 1], highs)] else [])
  }

  /** FindSwingPoints as the source writes it: for each candidate bar an inner
      scan over its neighbours that stops at the first one that disqualifies it. */
  method FindSwingPoints(bars: seq<Bar>, radius: nat, highs: bool, host: int) returns (points: seq<real>)
    requires host < |bars|
    ensures points == SwingPointsSpec(bars, radius, highs, host)
    ensures forall k :: 0 <= k < |points| ==>
      exists i :: radius <= i <= host - radius && points[k] == Extreme(bars[i], highs)
  {
    points := [];
    var i := radius;
    while i <= host - radius
      invariant radius <= i
      invariant i <= host - radius + 1 || (i == radius && host - radius + 1 < radius)
      invariant points == SwingsBetween(bars, radius, highs, radius, i)
      invariant forall k :: 0 <= k < |points| ==>
        exists i' :: radius <= i' < i && points[k] == Extreme(bars[i'], highs)
    {
      var isSwing := true;
      var current := Extreme(bars[i], highs);
      var j := i - radius;
      while j <= i + radius && isSwing
        invariant i - radius <= j <= i + radius + 1
        invariant isSwing <==> forall j' :: i - radius <= j' < j && j' != i ==>
          if highs then bars[j'].high < bars[i].high else bars[j'].low > bars[i].low
      {
        if j != i {
          var compare := Extreme(bars[j], highs);
          if highs && compare >= current {
            isSwing := false;
          } else if !highs && compare <= current {
            isSwing := false;
          }
        }
        j := j + 1;
      }
      assert isSwing <==> IsSwing(bars, i, radius, highs);
      if isSwing {
        points := points + [current];
      }
      i := i + 1;
    }
    if host - radius + 1 < radius {
      assert SwingsBetween(bars, radius, highs, radius, host - radius + 1) == [];
    }
  }
}
