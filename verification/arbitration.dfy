/** Signal arbitration of the bot's per-bar loop: the enabled evaluators run in
    a fixed order, their non-zero signals are collected, and the collected
    signal of highest confidence is chosen, the first one on a tie
    (`std::max_element` with a strict less-than on confidence). */
module Arbitration {
  import opened Bars
  import opened Signals
  import opened Settings
  import opened Chart
  import opened FlowEvaluators
  import opened LevelEvaluators

  /** The evaluator of strategy `s` on the bar at `index`. */
  function Evaluate(m: Market, index: int, c: Config, s: Strategy): (r: TradeSignal)
    requires ValidConfig(c) && Consistent(m) && 0 <= index < |m.bars|
    ensures r.strategy == s
  {
    match s
    case LiquidityAbsorption => CheckLiquidityAbsorption(m, index, c)
    case IcebergDetection => CheckIcebergDetection(m, index, c)
    case DeltaDivergence => CheckDeltaDivergence(m, index, c)
    case VolumeImbalance => CheckVolumeImbalance(m, index, c)
    case StopRunAnticipation => CheckStopRunAnticipation(m, index, c)
    case HvnRejection => CheckHVNRejection(m, index, c)
    case LvnBreakout => CheckLVNBreakout(m, index, c)
    case MomentumBreakout => CheckMomentumBreakout(m, index, c)
    case CumulativeDeltaTrend => CheckCumulativeDeltaTrend(m, index, c)
    case LiquidityTraps => CheckLiquidityTraps(m, index, c)
  }

  /** The ten evaluators' results at `index`, in evaluation order. */
  function AllSignals(m: Market, index: int, c: Config): (r: seq<TradeSignal>)
    requires ValidConfig(c) && Consistent(m) && 0 <= index < |m.bars|
    ensures |r| == 10
    ensures forall k :: 0 <= k < |r| ==> Rank(r[k].strategy) == k
  {
    seq(10, k requires 0 <= k < 10 => Evaluate(m, index, c, Ordered(k)))
  }

  /** A signal enters the candidate list when its evaluator is switched on
      and it has a direction. */
  predicate Eligible(c: Config, sig: TradeSignal) {
    Active(c, sig.strategy) && sig.direction != 0
  }

  /** Strategy ranks strictly increase along the list. */
  predicate RankOrdered(sigs: seq<TradeSignal>) {
    forall i, j :: 0 <= i < j < |sigs| ==> Rank(sigs[i].strategy) < Rank(sigs[j].strategy)
  }

  /** The `push_back` of every eligible signal, in order. */
  function Collect(sigs: seq<TradeSignal>, c: Config): (r: seq<TradeSignal>)
    ensures |r| <= |sigs|
    ensures forall sig :: sig in r <==> sig in sigs && Eligible(c, sig)
    ensures RankOrdered(sigs) ==> RankOrdered(r)
    ensures RankOrdered(sigs) && |sigs| > 0 && |r| > 0 ==> Rank(sigs[0].strategy) <= Rank(r[0].strategy)
  {
    if |sigs| == 0 then []
    else
      var rest := Collect(sigs[1..], c);
      assert forall sig :: sig in sigs <==> sig == sigs[0] || sig in sigs[1..];
      if Eligible(c, sigs[0]) then
        assert RankOrdered(sigs) && |rest| > 0 ==> Rank(sigs[0].strategy) < Rank(sigs[1].strategy) <= Rank(rest[0].strategy);
        [sigs[0]] + rest
      else rest
  }

  /** `k` is where `std::max_element` stops: no element beats it, and every
      element before it is strictly worse. */
  predicate IsFirstMax(sigs: seq<TradeSignal>, k: int) {
    && 0 <= k < |sigs|
    && (forall j :: 0 <= j < |sigs| ==> sigs[j].confidence <= sigs[k].confidence)
    && (forall j :: 0 <= j < k ==> sigs[j].confidence < sigs[k].confidence)
  }

  /** `std::max_element` with `a.confidence < b.confidence`: a left-to-right
      scan that moves only to a strictly larger confidence. */
  function MaxElement(sigs: seq<TradeSignal>): (k: int)
    requires |sigs| > 0
    ensures IsFirstMax(sigs, k)
  {
    if |sigs| == 1 then 0
    else
      var k := MaxElement(sigs[..|sigs| - 1]);
      assert forall j :: 0 <= j < |sigs| - 1 ==> sigs[..|sigs| - 1][j] == sigs[j];
      if sigs[k].confidence < sigs[|sigs| - 1].confidence then |sigs| - 1 else k
  }

  /** There is only one first maximum, so the choice is determined by the list. */
  lemma FirstMaxUnique(sigs: seq<TradeSignal>, k1: int, k2: int)
    requires IsFirstMax(sigs, k1) && IsFirstMax(sigs, k2)
    ensures k1 == k2
  {
    BeatsEarlier(sigs, k1, k2);
    BeatsEarlier(sigs, k2, k1);
  }

  lemma BeatsEarlier(sigs: seq<TradeSignal>, k: int, j: int)
    ensures IsFirstMax(sigs, k) && 0 <= j < k ==> sigs[j].confidence < sigs[k].confidence
  {
  }

  /** Position k of the list holds the result of the evaluator of rank k. */
  predicate InEvaluationOrder(all: seq<TradeSignal>) {
    |all| == 10 && forall k :: 0 <= k < |all| ==> Rank(all[k].strategy) == k
  }

  /** The choice among the ten results: collect the eligible ones, then take
      the first of highest confidence. */
  function Pick(all: seq<TradeSignal>, c: Config): (r: Option<TradeSignal>)
    requires InEvaluationOrder(all)
    ensures r.None? <==> forall k :: 0 <= k < 10 ==> !Eligible(c, all[k])
    ensures r.Some? ==> Eligible(c, r.value) && r.value in all
    ensures r.Some? ==> forall k :: 0 <= k < 10 && Eligible(c, all[k]) ==>
      all[k].confidence <= r.value.confidence
    ensures r.Some? ==> forall k :: 0 <= k < Rank(r.value.strategy) && Eligible(c, all[k]) ==>
      all[k].confidence < r.value.confidence
  {
    var cands := Collect(all, c);
    if |cands| == 0 then
      forall k | 0 <= k < 10 ensures !Eligible(c, all[k]) {
        Collected(all, c, k);
      }
      None
    else
      var w := MaxElement(cands);
      var best := cands[w];
      assert best in all && Eligible(c, best);
      assert all[Rank(best.strategy)] == best;
      assert RankOrdered(all);
      forall k | 0 <= k < 10 && Eligible(c, all[k])
        ensures all[k].confidence <= best.confidence
        ensures k < Rank(best.strategy) ==> all[k].confidence < best.confidence
      {
        Collected(all, c, k);
        EarlierIsWorse(cands, w, all[k]);
      }
      Some(best)
  }

  /** Every eligible result is on the candidate list. */
  lemma Collected(all: seq<TradeSignal>, c: Config, k: int)
    requires 0 <= k < |all|
    ensures Eligible(c, all[k]) ==> all[k] in Collect(all, c)
  {
  }

  /** On a rank-ordered list, a candidate of lower rank than the first
      maximum comes before it, so it is strictly less confident. */
  lemma EarlierIsWorse(cands: seq<TradeSignal>, w: int, x: TradeSignal)
    requires RankOrdered(cands) && IsFirstMax(cands, w)
    ensures x in cands && Rank(x.strategy) < Rank(cands[w].strategy) ==> x.confidence < cands[w].confidence
  {
    if x in cands && Rank(x.strategy) < Rank(cands[w].strategy) {
      var j :| 0 <= j < |cands| && cands[j] == x;
      assert j < w;
    }
  }

  /** The signal the bar at `index` proposes, or None when no switched-on
      evaluator produced one. */
  function Arbitrate(m: Market, index: int, c: Config): (r: Option<TradeSignal>)
    requires ValidConfig(c) && Consistent(m) && 0 <= index < |m.bars|
    ensures r.None? <==> forall k :: 0 <= k < 10 ==> !Eligible(c, AllSignals(m, index, c)[k])
    ensures r.Some? ==> Eligible(c, r.value) && r.value in AllSignals(m, index, c)
    // the winner's confidence is the highest of any eligible signal ...
    ensures r.Some? ==> forall k :: 0 <= k < 10 && Eligible(c, AllSignals(m, index, c)[k]) ==>
      AllSignals(m, index, c)[k].confidence <= r.value.confidence
    // ... and every eligible signal evaluated before it has strictly less
    ensures r.Some? ==> forall k :: 0 <= k < Rank(r.value.strategy) && Eligible(c, AllSignals(m, index, c)[k]) ==>
      AllSignals(m, index, c)[k].confidence < r.value.confidence
  {
    Pick(AllSignals(m, index, c), c)
  }

  /** On a tie the earlier evaluator wins: of two 0.9 signals after a 0.6
      one, the second in the list is chosen. */
  lemma TieGoesToFirst(a: TradeSignal, b: TradeSignal, d: TradeSignal)
    requires a.confidence == 0.6 && b.confidence == 0.9 && d.confidence == 0.9
    ensures MaxElement([a, b, d]) == 1
  {
    assert IsFirstMax([a, b, d], 1);
    FirstMaxUnique([a, b, d], 1, MaxElement([a, b, d]));
  }
}
