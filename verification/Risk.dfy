/** The three risk layers: the base engine, the advanced multipliers and the unified gate. */
module Risk {
  import opened Common
  import opened Configuration
  import Sizing

  /** The base risk state together with the fields the advanced layer adds. */
  datatype RiskState = RiskState(
    equity: real,
    cash: real,
    dailyPnl: real,
    weeklyPnl: real,
    monthlyPnl: real,
    peakEquity: real,
    openPositions: nat,
    portfolioHeatPct: real,
    consecutiveLosses: int,
    emergencyHalt: bool,
    circuitBreaker: bool,
    blackSwanMode: bool,
    safeMode: bool,
    dataQualityScore: real,
    sectorExposure: map<string, real>,
    correlationExposure: map<string, real>,
    disabledStrategies: set<string>
  )

  datatype TradeProposal = TradeProposal(
    symbol: string,
    entry: real,
    stopLoss: real,
    takeProfit: real,
    qty: real,
    confidence: real,
    strategy: string,
    regime: string,
    liquidityScore: real,
    volatilityPct: real,
    correlationBucket: string
  )

  datatype CheckName =
    | NetRewardRisk | RemainingDailyBudget | Confidence | DailyLoss | WeeklyLoss | Drawdown
    | PositionCount | PerTradeRisk | PortfolioHeat | Liquidity | VolatilityCheck | RegimeClarity
    | LossStreakReduce | StrategyDisabled | SectorConcentration | Correlation | MonthlyLoss
    | HighVolReduce | StrategyGovernance | EntryValidation

  datatype RiskCheck = RiskCheck(name: CheckName, passed: bool)

  datatype Verdict = Approved | Rejected | Reduced | Halted

  datatype RiskDecision = RiskDecision(
    verdict: Verdict, approvedQty: real, checks: seq<RiskCheck>, sizeMultiplier: real)
  {
    predicate IsApproved() { verdict.Approved? || verdict.Reduced? }
  }

  predicate AllPassed(checks: seq<RiskCheck>) {
    forall i :: 0 <= i < |checks| ==> checks[i].passed
  }

  // ---- base engine ----

  predicate WellPosed(p: TradeProposal, st: RiskState) {
    && 0.0 < p.entry && 0.0 < p.stopLoss && 0.0 < p.takeProfit && 0.0 < p.qty && 0.0 < st.equity
    && p.stopLoss < p.entry < p.takeProfit
  }

  /** Loss of one share at the stop, with estimated costs and exit slippage. */
  function StressedLoss(cfg: Settings, p: TradeProposal): real {
    p.entry - p.stopLoss + p.entry * cfg.roundTripCostBps / 10000.0 + p.entry * cfg.exitSlippageBps / 10000.0
  }

  function NetReward(cfg: Settings, p: TradeProposal): real {
    p.takeProfit - p.entry - p.entry * cfg.roundTripCostBps / 10000.0 - p.entry * cfg.exitSlippageBps / 10000.0
  }

  predicate RewardPays(cfg: Settings, p: TradeProposal) {
    StressedLoss(cfg, p) != 0.0 && cfg.minNetRewardRisk <= NetReward(cfg, p) / StressedLoss(cfg, p)
  }

  predicate FitsDailyBudget(cfg: Settings, p: TradeProposal, st: RiskState) {
    StressedLoss(cfg, p) * p.qty
      <= Max(0.0, st.equity * cfg.maxDailyLossPct / 100.0 + Min(0.0, st.dailyPnl))
  }

  function PerTradeRiskPct(p: TradeProposal, st: RiskState): real {
    if p.entry <= p.stopLoss || st.equity <= 0.0 then 999.0
    else Abs(p.entry - p.stopLoss) * p.qty / st.equity * 100.0
  }

  predicate DrawdownOk(cfg: Settings, st: RiskState) {
    st.peakEquity <= 0.0
    || (st.peakEquity - st.equity) / st.peakEquity * 100.0 <= cfg.maxMonthlyDrawdownPct
  }

  function EntryChecks(cfg: Settings, p: TradeProposal, st: RiskState): seq<RiskCheck> {
    [ RiskCheck(NetRewardRisk, RewardPays(cfg, p)),
      RiskCheck(RemainingDailyBudget, FitsDailyBudget(cfg, p, st)) ]
  }

  function LimitChecks(cfg: Settings, p: TradeProposal, st: RiskState): seq<RiskCheck> {
    [ RiskCheck(Confidence, cfg.minConfidenceScore <= p.confidence),
      RiskCheck(DailyLoss, -(st.equity * cfg.maxDailyLossPct / 100.0) <= st.dailyPnl),
      RiskCheck(WeeklyLoss, -(st.equity * cfg.maxWeeklyLossPct / 100.0) <= st.weeklyPnl),
      RiskCheck(Drawdown, DrawdownOk(cfg, st)),
      RiskCheck(PositionCount, st.openPositions < cfg.maxOpenPositions),
      RiskCheck(PerTradeRisk, PerTradeRiskPct(p, st) <= cfg.maxRiskPerTradePct),
      RiskCheck(PortfolioHeat, st.portfolioHeatPct + PerTradeRiskPct(p, st) <= cfg.maxPortfolioHeatPct),
      RiskCheck(Liquidity, 0.6 <= p.liquidityScore),
      RiskCheck(VolatilityCheck, p.volatilityPct <= 50.0),
      RiskCheck(RegimeClarity, p.regime != "unclear" && p.regime != "crisis" && p.regime != "black_swan") ]
  }

  function Evaluate(cfg: Settings, p: TradeProposal, st: RiskState): RiskDecision {
    if !WellPosed(p, st) then RiskDecision(Rejected, 0.0, [], 1.0)
    else
      var first := EntryChecks(cfg, p, st);
      if st.emergencyHalt || st.circuitBreaker then RiskDecision(Halted, 0.0, first, 1.0)
      else
        var checks := first + LimitChecks(cfg, p, st);
        if !AllPassed(checks) then RiskDecision(Rejected, 0.0, checks, 1.0)
        else if cfg.consecutiveLossHalt <= st.consecutiveLosses then RiskDecision(Halted, 0.0, checks, 1.0)
        else if cfg.consecutiveLossReduce <= st.consecutiveLosses
        then RiskDecision(Reduced, p.qty * 0.5, checks + [RiskCheck(LossStreakReduce, true)], 0.5)
        else RiskDecision(Approved, p.qty, checks, 1.0)
  }

  // ---- advanced engine ----

  function Exposure(m: map<string, real>, bucket: string): real {
    if bucket in m then m[bucket] else 0.0
  }

  function AdvancedChecks(cfg: Settings, p: TradeProposal, st: RiskState): seq<RiskCheck> {
    var exposure :=
      if cfg.enforceSectorCorrelationLimits
      then [ RiskCheck(SectorConcentration,
                       Exposure(st.sectorExposure, p.correlationBucket) < cfg.maxSectorConcentrationPct),
             RiskCheck(Correlation,
                       Exposure(st.correlationExposure, p.correlationBucket) < cfg.maxCorrelatedExposurePct) ]
      else [ RiskCheck(SectorConcentration, true), RiskCheck(Correlation, true) ];
    var monthly := RiskCheck(MonthlyLoss, -(st.equity * cfg.maxMonthlyLossPct / 100.0) <= st.monthlyPnl);
    exposure + [monthly]
    + (if cfg.volThresholdReduce < p.volatilityPct then [RiskCheck(HighVolReduce, true)] else [])
  }

  function EvaluateAdvanced(cfg: Settings, p: TradeProposal, st: RiskState): RiskDecision {
    if st.blackSwanMode || st.safeMode then RiskDecision(Halted, 0.0, [], 1.0)
    else if p.strategy in st.disabledStrategies
    then RiskDecision(Rejected, 0.0, [RiskCheck(StrategyDisabled, false)], 1.0)
    else
      var base := Evaluate(cfg, p, st);
      if !base.IsApproved() then base
      else if st.dataQualityScore < cfg.minDataQualityScore then RiskDecision(Rejected, 0.0, base.checks, 1.0)
      else
        var checks := base.checks + AdvancedChecks(cfg, p, st);
        var multiplier :=
          if cfg.volThresholdReduce < p.volatilityPct
          then base.sizeMultiplier * cfg.highVolSizeMultiplier else base.sizeMultiplier;
        if !AllPassed(checks) then RiskDecision(Rejected, 0.0, checks, 1.0)
        else RiskDecision(if multiplier < 1.0 then Reduced else base.verdict, p.qty * multiplier, checks, multiplier)
  }

  // ---- unified engine ----

  datatype UnifiedVerdict = Allow | ReduceSize | Reject

  datatype UnifiedDecision = UnifiedDecision(verdict: UnifiedVerdict, finalQty: int, checks: seq<RiskCheck>) {
    predicate IsApproved() { !verdict.Reject? }
  }

  /** What the outside world answers while an entry is evaluated: the governance throttle
      (`None`: the strategy may not trade), whether the market is open when hours are enforced,
      and the last traded price (`None`: no real quote, entry blocked). */
  datatype Answers = Answers(throttle: Option<real>, marketOpen: bool, quote: Option<real>)

  /** The approved share count, or `None` with the entry refused. */
  function ValidateEntry(cfg: Settings, symbol: string, qty: real, entry: real, stopLoss: real,
                         held: seq<string>, ans: Answers): Option<int> {
    var approved := Trunc(qty);
    if approved < 1 then None
    else if stopLoss <= 0.0 || entry <= stopLoss then None
    else if exists i :: 0 <= i < |held| && Upper(held[i]) == Upper(symbol) then None
    else if !ans.marketOpen then None
    else if ans.quote.None? then None
    else if 0.0 < ans.quote.value && 0.0 < entry
            && cfg.maxEntryDeviationPct < Abs(ans.quote.value - entry) / entry * 100.0 then None
    else Some(approved)
  }

  function Throttled(qty: real, throttle: real): real { qty * throttle }

  function EvaluateTrade(cfg: Settings, p: TradeProposal, st: RiskState, held: seq<string>,
                         ans: Answers): UnifiedDecision {
    if ans.throttle.None? then UnifiedDecision(Reject, 0, [RiskCheck(StrategyGovernance, false)])
    else
      var advanced := EvaluateAdvanced(cfg, p, st);
      if !advanced.IsApproved() then UnifiedDecision(Reject, 0, advanced.checks)
      else
        var qty := ValidateEntry(cfg, p.symbol, Throttled(advanced.approvedQty, ans.throttle.value), p.entry,
                                 p.stopLoss, held, ans);
        if qty.None? then UnifiedDecision(Reject, 0, advanced.checks + [RiskCheck(EntryValidation, false)])
        else
          var finalQty := if qty.value < 1 then 1 else qty.value;
          UnifiedDecision(if advanced.sizeMultiplier < 1.0 || ans.throttle.value < 1.0 then ReduceSize else Allow,
                          finalQty, advanced.checks)
  }

  // ---- what approval means ----

  /** An approved trade passed every limit, is not a duplicate, and nothing was halted. */
  lemma ApprovedMeansWithinLimits(cfg: Settings, p: TradeProposal, st: RiskState, held: seq<string>, ans: Answers)
    ensures EvaluateTrade(cfg, p, st, held, ans).IsApproved() ==>
      && 1 <= EvaluateTrade(cfg, p, st, held, ans).finalQty
      && WellPosed(p, st)
      && FitsDailyBudget(cfg, p, st)
      && st.openPositions < cfg.maxOpenPositions
      && PerTradeRiskPct(p, st) <= cfg.maxRiskPerTradePct
      && st.portfolioHeatPct + PerTradeRiskPct(p, st) <= cfg.maxPortfolioHeatPct
      && !(exists i :: 0 <= i < |held| && Upper(held[i]) == Upper(p.symbol))
      && !st.emergencyHalt && !st.circuitBreaker && !st.blackSwanMode && !st.safeMode
      && st.consecutiveLosses < cfg.consecutiveLossHalt
  {
    hide FitsDailyBudget, RewardPays, PerTradeRiskPct, DrawdownOk, AdvancedChecks, Upper, Trunc;
    if EvaluateTrade(cfg, p, st, held, ans).IsApproved() {
      ApprovedChecks(cfg, p, st);
      var limits := LimitChecks(cfg, p, st);
      assert EntryChecks(cfg, p, st)[1] == RiskCheck(RemainingDailyBudget, FitsDailyBudget(cfg, p, st));
      assert limits[4].passed && limits[5].passed && limits[6].passed;
    }
  }

  /** Approval by the advanced layer is approval by the base layer, with all of its checks passed. */
  lemma ApprovedChecks(cfg: Settings, p: TradeProposal, st: RiskState)
    ensures EvaluateAdvanced(cfg, p, st).IsApproved() ==>
      && Evaluate(cfg, p, st).IsApproved()
      && AllPassed(EntryChecks(cfg, p, st))
      && AllPassed(LimitChecks(cfg, p, st))
  {
    hide FitsDailyBudget, RewardPays, PerTradeRiskPct, DrawdownOk, AdvancedChecks;
    var first, limits := EntryChecks(cfg, p, st), LimitChecks(cfg, p, st);
    if EvaluateAdvanced(cfg, p, st).IsApproved() {
      var checks := first + limits;
      assert AllPassed(checks);
      assert forall i :: 0 <= i < |first| ==> first[i] == checks[i];
      assert forall i :: 0 <= i < |limits| ==> limits[i] == checks[|first| + i];
    }
  }

  /** The factor a loss streak and high volatility put on an approved quantity. */
  function SizeFactor(cfg: Settings, p: TradeProposal, st: RiskState): real {
    (if cfg.consecutiveLossReduce <= st.consecutiveLosses then 0.5 else 1.0)
    * (if cfg.volThresholdReduce < p.volatilityPct then cfg.highVolSizeMultiplier else 1.0)
  }

  /** With the governance throttle, the whole multiplier: loss streak, volatility and throttle only. */
  function Multiplier(cfg: Settings, p: TradeProposal, st: RiskState, throttle: real): real {
    SizeFactor(cfg, p, st) * throttle
  }

  lemma AdvancedFactor(cfg: Settings, p: TradeProposal, st: RiskState)
    ensures EvaluateAdvanced(cfg, p, st).IsApproved() ==>
      EvaluateAdvanced(cfg, p, st).approvedQty == p.qty * SizeFactor(cfg, p, st)
  {
    hide AdvancedChecks, AllPassed, LimitChecks, EntryChecks, WellPosed;
  }

  /** The final quantity is the proposed one times the multiplier, truncated, so it exceeds a
      whole-share proposal exactly when loss streak, volatility multiplier and throttle together add at
      least one share. */
  lemma FinalQuantity(cfg: Settings, p: TradeProposal, st: RiskState, held: seq<string>, ans: Answers, shares: int)
    requires p.qty == shares as real
    ensures EvaluateTrade(cfg, p, st, held, ans).IsApproved() ==>
      var final := EvaluateTrade(cfg, p, st, held, ans).finalQty;
      var scaled := p.qty * Multiplier(cfg, p, st, ans.throttle.value);
      && final as real <= scaled < final as real + 1.0
      && (final <= shares <==> scaled < p.qty + 1.0)
  {
    hide EvaluateAdvanced, ValidateEntry, Trunc, Throttled, Multiplier;
    if EvaluateTrade(cfg, p, st, held, ans).IsApproved() {
      var advanced, throttle := EvaluateAdvanced(cfg, p, st), ans.throttle.value;
      ValidatedQuantity(cfg, p.symbol, Throttled(advanced.approvedQty, throttle), p.entry, p.stopLoss, held, ans);
      ThrottledIsMultiplied(cfg, p, st, throttle);
      WholePart(Throttled(advanced.approvedQty, throttle), shares);
    }
  }

  lemma ThrottledIsMultiplied(cfg: Settings, p: TradeProposal, st: RiskState, throttle: real)
    ensures EvaluateAdvanced(cfg, p, st).IsApproved() ==>
      Throttled(EvaluateAdvanced(cfg, p, st).approvedQty, throttle) == p.qty * Multiplier(cfg, p, st, throttle)
  {
    hide EvaluateAdvanced, SizeFactor;
    AdvancedFactor(cfg, p, st);
    Associate(p.qty, SizeFactor(cfg, p, st), throttle);
  }

  lemma ValidatedQuantity(cfg: Settings, symbol: string, qty: real, entry: real, stopLoss: real,
                          held: seq<string>, ans: Answers)
    ensures var r := ValidateEntry(cfg, symbol, qty, entry, stopLoss, held, ans);
            r.Some? ==> 1 <= r.value == Trunc(qty)
  {
    hide Trunc, Upper;
  }

  lemma WholePart(x: real, n: int)
    requires 1 <= Trunc(x)
    ensures Trunc(x) as real <= x < Trunc(x) as real + 1.0
    ensures Trunc(x) <= n <==> x < n as real + 1.0
  {
    assert Trunc(x) == x.Floor;
    if x < n as real + 1.0 {
      assert (x.Floor) as real < (n + 1) as real;
    }
  }

  /** With a throttle and a high-volatility multiplier between zero and one, no layer ever
      enlarges a whole-share proposal. */
  lemma ThrottledNeverGrows(cfg: Settings, p: TradeProposal, st: RiskState, held: seq<string>, ans: Answers,
                            shares: int)
    requires 0.0 <= cfg.highVolSizeMultiplier <= 1.0
    requires ans.throttle.Some? ==> 0.0 <= ans.throttle.value <= 1.0
    requires p.qty == shares as real
    ensures EvaluateTrade(cfg, p, st, held, ans).IsApproved() ==>
      1 <= EvaluateTrade(cfg, p, st, held, ans).finalQty <= shares
  {
    hide ValidateEntry, EvaluateAdvanced, Multiplier, FitsDailyBudget, PerTradeRiskPct;
    if EvaluateTrade(cfg, p, st, held, ans).IsApproved() {
      FinalQuantity(cfg, p, st, held, ans, shares);
      ApprovedMeansWithinLimits(cfg, p, st, held, ans);
      MultiplierAtMostOne(cfg, p, st, ans.throttle.value);
      ShrinkBelow(p.qty, Multiplier(cfg, p, st, ans.throttle.value));
    }
  }

  lemma ShrinkBelow(q: real, m: real)
    requires 0.0 < q && m <= 1.0
    ensures q * m < q + 1.0
  {
    ScaleUp(m, 1.0, q);
  }

  lemma MultiplierAtMostOne(cfg: Settings, p: TradeProposal, st: RiskState, throttle: real)
    requires 0.0 <= cfg.highVolSizeMultiplier <= 1.0 && 0.0 <= throttle <= 1.0
    ensures Multiplier(cfg, p, st, throttle) <= 1.0
  {
    ProductAtMostOne(SizeFactor(cfg, p, st), throttle);
  }

  lemma ProductAtMostOne(a: real, b: real)
    requires a <= 1.0 && 0.0 <= b <= 1.0
    ensures a * b <= 1.0
  {
    var ab := a * b;
    assert ab <= b by {
      ScaleUp(0.0, 1.0 - a, b);
      Distribute(b, 1.0, a);
      assert (1.0 - a) * b == b * (1.0 - a) == b - ab;
    }
  }

  /** The settings put no bound on the volatility multiplier: with one of 1.5, a volatile market turns an
      approved ten shares into fifteen. */
  lemma MultipliersGrow(cfg: Settings)
    requires cfg.minNetRewardRisk == 2.0 && cfg.roundTripCostBps == 0.0 && cfg.exitSlippageBps == 0.0
    requires cfg.maxDailyLossPct == 2.0 && cfg.maxWeeklyLossPct == 5.0 && cfg.maxMonthlyLossPct == 8.0
    requires cfg.maxMonthlyDrawdownPct == 10.0 && cfg.maxRiskPerTradePct == 1.0 && cfg.maxPortfolioHeatPct == 6.0
    requires cfg.minConfidenceScore == 0.6 && cfg.maxOpenPositions == 3 && cfg.minDataQualityScore == 0.7
    requires cfg.consecutiveLossReduce == 3 && cfg.consecutiveLossHalt == 5 && !cfg.enforceSectorCorrelationLimits
    requires cfg.volThresholdReduce == 30.0 && cfg.highVolSizeMultiplier == 1.5 && cfg.maxEntryDeviationPct == 1.0
    ensures var p := TradeProposal(
              "INFY", 100.0, 99.0, 110.0, 10.0, 0.8, "momentum", "trending", 0.85, 40.0, "momentum");
            var st := RiskState(100000.0, 100000.0, 0.0, 0.0, 0.0, 100000.0, 0, 0.0, 0, false, false, false, false, 0.9,
                                map[], map[], {});
            EvaluateTrade(cfg, p, st, [], Answers(Some(1.0), true, Some(100.0))).IsApproved()
            && EvaluateTrade(cfg, p, st, [], Answers(Some(1.0), true, Some(100.0))).finalQty == 15
  {
    hide Upper;
    var p := TradeProposal("INFY", 100.0, 99.0, 110.0, 10.0, 0.8, "momentum", "trending", 0.85, 40.0, "momentum");
    var st := RiskState(100000.0, 100000.0, 0.0, 0.0, 0.0, 100000.0, 0, 0.0, 0, false, false, false, false, 0.9,
                        map[], map[], {});
    assert PerTradeRiskPct(p, st) == 0.01;
    assert AllPassed(EntryChecks(cfg, p, st) + LimitChecks(cfg, p, st));
    assert Evaluate(cfg, p, st) == RiskDecision(Approved, 10.0, EntryChecks(cfg, p, st) + LimitChecks(cfg, p, st), 1.0);
    AdvancedFactor(cfg, p, st);
    assert EvaluateAdvanced(cfg, p, st).IsApproved();
    assert EvaluateAdvanced(cfg, p, st).approvedQty == 15.0;
  }

  // ---- sizing and risk agree ----

  /** The proposal and risk state built from the same signal and portfolio figures as `inp`. */
  ghost predicate SameFigures(inp: Sizing.SizeInput, p: TradeProposal, st: RiskState) {
    && p.entry == inp.entry && p.stopLoss == inp.stopLoss
    && st.equity == inp.equity && st.dailyPnl == inp.dailyPnl
    && st.portfolioHeatPct == inp.portfolioHeatPct
  }

  /** A positive size can fail neither the daily-budget, nor the per-trade, nor the heat check
      of the risk engine on the same figures, whatever sizing method produced it. */
  lemma SizePassesRiskChecks(cfg: Settings, inp: Sizing.SizeInput, how: Sizing.SizingMethod, p: TradeProposal,
                             st: RiskState)
    requires cfg.Valid() && SameFigures(inp, p, st)
    ensures SizedBy(cfg, inp, how, p) ==>
      var checks := Evaluate(cfg, p, st).checks;
      forall i :: 0 <= i < |checks| && IsBudgetCheck(checks[i].name) ==> checks[i].passed
  {
    hide RewardPays, DrawdownOk, WellPosed, SizedBy, FitsDailyBudget, PerTradeRiskPct, AllPassed, StressedLoss;
    if SizedBy(cfg, inp, how, p) {
      SizeMeetsLimits(cfg, inp, how, p, st);
    }
  }

  predicate IsBudgetCheck(name: CheckName) {
    name.RemainingDailyBudget? || name.PerTradeRisk? || name.PortfolioHeat?
  }

  /** The proposal carries a positive size computed by `how`. */
  ghost predicate SizedBy(cfg: Settings, inp: Sizing.SizeInput, how: Sizing.SizingMethod, p: TradeProposal) {
    var size := Sizing.Compute(cfg, inp, how);
    size.Some? && size.value.qty != 0 && p.qty == size.value.qty as real
  }

  /** The figures behind `SizePassesRiskChecks`: the risk engine's percentage is the sizer's own. */
  lemma SizeMeetsLimits(cfg: Settings, inp: Sizing.SizeInput, how: Sizing.SizingMethod, p: TradeProposal, st: RiskState)
    requires cfg.Valid() && SameFigures(inp, p, st)
    ensures SizedBy(cfg, inp, how, p) ==>
      && 0.0 < st.equity && p.stopLoss < p.entry
      && FitsDailyBudget(cfg, p, st)
      && PerTradeRiskPct(p, st) == Sizing.RiskPct(inp, Sizing.Compute(cfg, inp, how).value.qty)
      && PerTradeRiskPct(p, st) <= cfg.maxRiskPerTradePct
      && st.portfolioHeatPct + PerTradeRiskPct(p, st) <= cfg.maxPortfolioHeatPct
  {
    hide Sizing.Compute, Sizing.Lots, Sizing.FitsCapitalCaps, Sizing.StressedRisk, StressedLoss, Sizing.MaxRiskPct;
    if SizedBy(cfg, inp, how, p) {
      var q := Sizing.Compute(cfg, inp, how).value.qty;
      Sizing.SizeFitsEveryBudget(cfg, inp, how);
      SizeIsLots(cfg, inp, how);
      Sizing.LotsWithinRisk(cfg, inp, how);
      StressedLossIsStressedRisk(cfg, inp, p);
      assert q as real * Sizing.StressedRisk(cfg, inp) == StressedLoss(cfg, p) * p.qty;
      assert Sizing.PerShareRisk(inp) * p.qty == q as real * Sizing.PerShareRisk(inp);
      RiskLimitShare(cfg, inp);
    }
  }

  lemma SizeIsLots(cfg: Settings, inp: Sizing.SizeInput, how: Sizing.SizingMethod)
    ensures var size := Sizing.Compute(cfg, inp, how);
            size.Some? && size.value.qty != 0 ==>
              Sizing.HasLots(cfg, inp, how) && Sizing.Lots(cfg, inp, how).value == size.value.qty
  {
    hide Sizing.Lots, Sizing.BreachesLimit, Sizing.RiskPct, Sizing.CappedByValue, Round;
  }

  lemma RiskLimitShare(cfg: Settings, inp: Sizing.SizeInput)
    ensures 0.0 < Sizing.MaxRiskPct(cfg, inp) ==> Sizing.MaxRiskPct(cfg, inp) <= cfg.maxRiskPerTradePct
  {
    var share := Max(0.0, Min(1.0, inp.riskMultiplier));
    LimitFromShare(cfg.maxRiskPerTradePct, share);
    assert Sizing.MaxRiskPct(cfg, inp) == cfg.maxRiskPerTradePct * share;
  }

  lemma StressedLossIsStressedRisk(cfg: Settings, inp: Sizing.SizeInput, p: TradeProposal)
    requires p.entry == inp.entry && p.stopLoss == inp.stopLoss && p.stopLoss < p.entry
    ensures StressedLoss(cfg, p) == Sizing.StressedRisk(cfg, inp)
  {
  }

  lemma LimitFromShare(limit: real, share: real)
    requires 0.0 <= share <= 1.0
    ensures 0.0 < limit * share ==> limit * share <= limit
  {
    if 0.0 < limit { ScaleUp(share, 1.0, limit); }
    else { ScaleUp(0.0, share, -limit); }
  }
}
