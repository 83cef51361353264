/** The bot's last two checks before an entry: ValidateSignal, which turns
    down malformed or poorly paid signals and signals arriving while the
    portfolio is too hot, and CalculatePositionSize. */
module Validation {
  import opened Bars
  import opened Signals
  import opened Settings

  /** Everything ValidateSignal demands of a signal, stated without the
      division the source uses for the reward-to-risk test. */
  predicate Acceptable(sig: TradeSignal, heat: real, maxHeat: real) {
    && sig.direction != 0
    && sig.confidence >= 0.5
    && 0.0 < sig.entry && 0.0 < sig.stop && 0.0 < sig.target
    && WellOrdered(sig)
    && Reward(sig) >= 1.5 * Risk(sig)
    && heat <= maxHeat
  }

  /** ValidateSignal, check by check in the source's order; `heat` is the
      portfolio heat of the risk metrics and `maxHeat` its ceiling. */
  function ValidateSignal(sig: TradeSignal, heat: real, maxHeat: real): (ok: bool)
    ensures ok <==> Acceptable(sig, heat, maxHeat)
    // an accepted signal risks something, so the ratio test never divides by zero
    ensures ok ==> 0.0 < Risk(sig) && 0.0 < Reward(sig)
  {
    if sig.direction == 0 then false
    else if sig.confidence < 0.5 then false
    else if sig.entry <= 0.0 || sig.stop <= 0.0 || sig.target <= 0.0 then false
    else if sig.direction == 1 && sig.stop >= sig.entry then false
    else if sig.direction == -1 && sig.stop <= sig.entry then false
    else if sig.direction == 1 && sig.target <= sig.entry then false
    else if sig.direction == -1 && sig.target >= sig.entry then false
    else
      var risk := Risk(sig);
      var reward := Reward(sig);
      assert 0.0 < risk;
      RatioTest(reward, risk);
      if reward / risk < 1.5 then false
      else if heat > maxHeat then false
      else true
  }

  /** For a positive risk the quotient test `reward / risk < 1.5` rejects
      exactly the rewards below 1.5 times the risk. */
  lemma RatioTest(reward: real, risk: real)
    requires 0.0 < risk
    ensures reward / risk < 1.5 <==> reward < 1.5 * risk
  {
    var q := reward / risk;
    assert q * risk == reward;
    if q < 1.5 {
      assert q * risk < 1.5 * risk;
    } else {
      assert q * risk >= 1.5 * risk;
    }
  }

  /** The account balance the sizing assumes: the position's average price
      times 100000. */
  function AccountEstimate(averagePrice: real): real {
    averagePrice * 100000.0
  }

  /** The dollar amount one trade may lose: riskPercent percent of the
      estimated account. */
  function RiskAmount(c: Config, averagePrice: real): real {
    AccountEstimate(averagePrice) * (c.riskPercent / 100.0)
  }

  /** The unclamped size: contracts whose stop-out loses the risk amount,
      scaled by the signal's confidence. */
  function RawSize(sig: TradeSignal, c: Config, averagePrice: real): real
    requires 0.0 < Risk(sig) && 0.0 < c.pointValue
  {
    RiskAmount(c, averagePrice) / (Risk(sig) * c.pointValue) * sig.confidence
  }

  /** CalculatePositionSize; `averagePrice` is the average price of the
      position record the host returns. */
  function PositionSize(sig: TradeSignal, c: Config, averagePrice: real): (size: real)
    requires ValidConfig(c)
    ensures Risk(sig) <= 0.0 ==> size == c.baseQuantity as real
    ensures 0.0 < Risk(sig) ==> 1.0 <= size <= 3.0 * (c.baseQuantity as real)
    // inside the clamp the size carries exactly the confidence-scaled risk amount
    ensures 0.0 < Risk(sig) && 1.0 <= RawSize(sig, c, averagePrice) <= 3.0 * (c.baseQuantity as real) ==>
      size * Risk(sig) * c.pointValue == RiskAmount(c, averagePrice) * sig.confidence
    ensures 0.0 < Risk(sig) && RawSize(sig, c, averagePrice) <= 1.0 ==> size == 1.0
    ensures 0.0 < Risk(sig) && 3.0 * (c.baseQuantity as real) <= RawSize(sig, c, averagePrice) ==>
      size == 3.0 * (c.baseQuantity as real)
  {
    var stopDistance := Abs(sig.entry - sig.stop);
    if stopDistance <= 0.0 then c.baseQuantity as real
    else
      var raw := RawSize(sig, c, averagePrice);
      var unit := Risk(sig) * c.pointValue;
      assert 0.0 < unit;
      assert raw == RiskAmount(c, averagePrice) / unit * sig.confidence;
      assert raw * unit == RiskAmount(c, averagePrice) * sig.confidence;
      Min(3.0 * (c.baseQuantity as real), Max(1.0, raw))
  }

  /** A higher confidence never gives a smaller position. */
  lemma SizeMonotoneInConfidence(sig: TradeSignal, c: Config, averagePrice: real, confidence: real)
    requires ValidConfig(c) && sig.confidence <= confidence
    requires 0.0 <= averagePrice
    ensures PositionSize(sig, c, averagePrice) <= PositionSize(sig.(confidence := confidence), c, averagePrice)
  {
    var sig' := sig.(confidence := confidence);
    if 0.0 < Risk(sig) {
      var unit := Risk(sig) * c.pointValue;
      assert 0.0 < unit;
      var q := RiskAmount(c, averagePrice) / unit;
      NonNegativeQuotient(RiskAmount(c, averagePrice), unit);
      ScaleMonotone(q, sig.confidence, confidence);
      assert RawSize(sig, c, averagePrice) == q * sig.confidence;
      assert RawSize(sig', c, averagePrice) == q * confidence;
      ClampMonotone(RawSize(sig, c, averagePrice), RawSize(sig', c, averagePrice), 3.0 * (c.baseQuantity as real));
    }
  }

  lemma NonNegativeQuotient(a: real, b: real)
    requires 0.0 <= a && 0.0 < b
    ensures 0.0 <= a / b
  {
    assert (a / b) * b == a;
  }

  lemma ScaleMonotone(q: real, x: real, y: real)
    requires 0.0 <= q && x <= y
    ensures q * x <= q * y
  {
    assert q * y - q * x == q * (y - x);
  }

  lemma ClampMonotone(x: real, y: real, cap: real)
    requires x <= y
    ensures Min(cap, Max(1.0, x)) <= Min(cap, Max(1.0, y))
  {
  }

  /** The order quantity is the size cast to int; for every accepted signal
      it lies between 1 and three times the base quantity. */
  lemma AcceptedOrderQuantity(sig: TradeSignal, c: Config, heat: real, averagePrice: real)
    requires ValidConfig(c) && ValidateSignal(sig, heat, c.maxHeat)
    ensures 1 <= TruncToInt(PositionSize(sig, c, averagePrice)) <= 3 * c.baseQuantity
  {
    var size := PositionSize(sig, c, averagePrice);
    assert 1.0 <= size <= 3.0 * (c.baseQuantity as real);
    assert ((3 * c.baseQuantity) as real) == 3.0 * (c.baseQuantity as real);
  }

  /** A long risking nine quarter-point ticks for three ticks of reward is
      turned down, however confident. */
  lemma ThinRewardRejected()
    ensures !ValidateSignal(TradeSignal(1, 0.9, LiquidityAbsorption, 101.75, 99.5, 102.5), 0.0, 2.0)
  {
  }
}
