/** The inputs of the order-flow bot that its core reads, as one immutable
    record. Field comments give the host input slot and its declared limits. */
module Settings {
  import opened Signals

  datatype Config = Config(
    baseQuantity: int,          // Input[2]  Trade Quantity, 1..100
    maxDailyTrades: int,        // Input[3]  Max Daily Trades, 1..100
    runAll: bool,               // Input[5]  Run All Strategies
    maxDailyLoss: real,         // Input[11] Max Daily Loss ($), 100..10000
    dailyProfitTarget: real,    // Input[12] Daily Profit Target ($), 100..20000
    maxHeat: real,              // Input[13] Max Portfolio Heat (%), 0.5..10
    riskPercent: real,          // Input[14] Position Size Risk (%), 0.1..5
    enabled: set<Strategy>,     // Input[31..40] per-strategy switches
    absorptionVolume: int,      // Input[51] Absorption Volume Threshold, 10..1000
    stallTicks: int,            // Input[52] Absorption Price Stall (Ticks), 1..10
    confirmationBars: int,      // Input[53] Absorption Confirmation Bars, 1..5
    icebergMinHit: int,         // Input[61] Iceberg Min Hit Volume, 10..500
    icebergBars: int,           // Input[62] Iceberg Detection Bars, 3..20
    icebergTolerance: int,      // Input[63] Iceberg Price Tolerance (Ticks), 0..3
    divergenceLookback: int,    // Input[72] Divergence Lookback Period, 10..50
    hvnMultiplier: real,        // Input[81] HVN Threshold Multiplier, 1.2..5
    lvnMultiplier: real,        // Input[82] LVN Threshold Multiplier, 0.1..0.8
    profileLookback: int,       // Input[83] Profile Lookback Bars, 100..2000
    proximityTicks: int,        // Input[84] Level Proximity (Ticks), 1..10
    breakoutVolumeMult: real,   // Input[91] Breakout Volume Multiplier, 1.1..3
    breakoutLookback: int,      // Input[92] Breakout Lookback Period, 10..50
    momentumConfirmation: int,  // Input[93] Momentum Confirmation Period, 2..10
    tickSize: real,             // sc.TickSize of the chart
    pointValue: real)           // Input[94]: read by the sizing but never declared

  /** The limits the host enforces on every input, plus a positive tick size
      and point value. */
  predicate ValidConfig(c: Config) {
    && 1 <= c.baseQuantity <= 100
    && 1 <= c.maxDailyTrades <= 100
    && 100.0 <= c.maxDailyLoss <= 10000.0
    && 100.0 <= c.dailyProfitTarget <= 20000.0
    && 0.5 <= c.maxHeat <= 10.0
    && 0.1 <= c.riskPercent <= 5.0
    && 10 <= c.absorptionVolume <= 1000
    && 1 <= c.stallTicks <= 10
    && 1 <= c.confirmationBars <= 5
    && 10 <= c.icebergMinHit <= 500
    && 3 <= c.icebergBars <= 20
    && 0 <= c.icebergTolerance <= 3
    && 10 <= c.divergenceLookback <= 50
    && 1.2 <= c.hvnMultiplier <= 5.0
    && 0.1 <= c.lvnMultiplier <= 0.8
    && 100 <= c.profileLookback <= 2000
    && 1 <= c.proximityTicks <= 10
    && 1.1 <= c.breakoutVolumeMult <= 3.0
    && 10 <= c.breakoutLookback <= 50
    && 2 <= c.momentumConfirmation <= 10
    && 0.0 < c.tickSize
    && 0.0 < c.pointValue
  }

  /** An evaluator runs when "Run All Strategies" is set or its own switch is. */
  predicate Active(c: Config, s: Strategy) {
    c.runAll || s in c.enabled
  }
}
