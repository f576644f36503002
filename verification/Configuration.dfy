/** The configuration values that the modelled decisions read. */
module Configuration {

  datatype Settings = Settings(
    maxRiskPerTradePct: real,
    maxPositionValuePct: real,
    cashReservePct: real,
    minNetRewardRisk: real,
    roundTripCostBps: real,
    exitSlippageBps: real,
    maxDailyLossPct: real,
    maxWeeklyLossPct: real,
    maxMonthlyLossPct: real,
    maxMonthlyDrawdownPct: real,
    maxPortfolioHeatPct: real,
    maxCorrelatedExposurePct: real,
    maxSectorConcentrationPct: real,
    minConfidenceScore: real,
    maxOpenPositions: int,
    consecutiveLossReduce: int,
    consecutiveLossHalt: int,
    highVolSizeMultiplier: real,
    volThresholdReduce: real,
    kellyCapFraction: real,
    minDataQualityScore: real,
    enforceSectorCorrelationLimits: bool,
    maxEntryDeviationPct: real,
    sizingRiskBreachTolerance: real
  ) {
    /** The bounds the settings class itself enforces on its fields. */
    ghost predicate Valid() {
      && 0.0 < maxPositionValuePct <= 100.0
      && 0.0 <= cashReservePct < 100.0
      && 1.0 <= minNetRewardRisk
      && 0.0 <= roundTripCostBps
      && 0.0 <= exitSlippageBps
    }
  }
}
