/** Position sizing: how many shares a signal may buy. */
module Sizing {
  import opened Common
  import opened Configuration

  datatype SizingMethod = FixedRisk | Atr | Volatility | Kelly | Portfolio

  datatype SizeInput = SizeInput(
    equity: real,
    entry: real,
    stopLoss: real,
    buyingPower: Option<real>,
    cash: Option<real>,
    dailyPnl: real,
    openNotional: real,
    atr: real,
    volatilityPct: real,
    winRate: real,
    avgWinLossRatio: real,
    portfolioHeatPct: real,
    riskMultiplier: real
  )

  datatype SizeResult = SizeResult(qty: int, riskPct: real, riskRs: real, capped: bool)

  const NO_SIZE := SizeResult(0, 0.0, 0.0, true)

  function PerShareRisk(inp: SizeInput): real { Abs(inp.entry - inp.stopLoss) }

  /** Estimated round-trip cost and exit slippage of one share. */
  function PerShareCosts(cfg: Settings, inp: SizeInput): real {
    inp.entry * (cfg.roundTripCostBps + cfg.exitSlippageBps) / 10000.0
  }

  function MaxRiskPct(cfg: Settings, inp: SizeInput): real {
    cfg.maxRiskPerTradePct * Max(0.0, Min(1.0, inp.riskMultiplier))
  }

  function HeatRoomPct(cfg: Settings, inp: SizeInput): real {
    Max(0.0, cfg.maxPortfolioHeatPct - inp.portfolioHeatPct)
  }

  function RiskBudget(cfg: Settings, inp: SizeInput, how: SizingMethod): real {
    if how.Portfolio?
    then inp.equity * Min(MaxRiskPct(cfg, inp), HeatRoomPct(cfg, inp)) / 100.0
    else inp.equity * MaxRiskPct(cfg, inp) / 100.0
  }

  function DailyRoom(cfg: Settings, inp: SizeInput): real {
    Max(0.0, inp.equity * cfg.maxDailyLossPct / 100.0 + Min(0.0, inp.dailyPnl))
  }

  function HeatRoom(cfg: Settings, inp: SizeInput): real {
    inp.equity * HeatRoomPct(cfg, inp) / 100.0
  }

  /** Spendable cash ceiling; extra margin never raises it. */
  function CapBasis(inp: SizeInput): real {
    var cash := if inp.cash.None? then inp.equity else Max(0.0, inp.cash.value);
    var bp := if inp.buyingPower.None? then cash else Max(0.0, inp.buyingPower.value);
    Min(Min(inp.equity, cash), bp)
  }

  function MaxCapital(cfg: Settings, inp: SizeInput): real {
    var spendable := 1.0 - cfg.cashReservePct / 100.0;
    Min(Min(inp.equity * cfg.maxPositionValuePct / 100.0, CapBasis(inp) * spendable),
        Max(0.0, inp.equity * spendable - inp.openNotional))
  }

  /** The share count the chosen method asks for; `None` where the program divides by zero. */
  function MethodQty(cfg: Settings, inp: SizeInput, how: SizingMethod): Option<real> {
    var risk := PerShareRisk(inp);
    var budget := RiskBudget(cfg, inp, how);
    if risk == 0.0 then None
    else match how
    case Atr =>
      if 0.0 < inp.atr then Some(budget / Max(inp.atr * 1.5, risk)) else Some(budget / risk)
    case Volatility =>
      var adjust := Max(0.3, Min(1.0, 20.0 / Max(inp.volatilityPct, 1.0)));
      Some(budget / risk * adjust)
    case Kelly =>
      var w, r := inp.winRate / 100.0, inp.avgWinLossRatio;
      var edge := if 0.0 < r then Max(0.0, w - (1.0 - w) / r) else 0.0;
      var fraction := Min(edge, cfg.kellyCapFraction);
      if inp.entry == 0.0 then None else Some(inp.equity * fraction / inp.entry)
    case _ => Some(budget / risk)
  }

  /** The tightest of the trade, daily and heat budgets. */
  function LossBudget(cfg: Settings, inp: SizeInput, how: SizingMethod): real {
    Min(Min(RiskBudget(cfg, inp, how), DailyRoom(cfg, inp)), HeatRoom(cfg, inp))
  }

  function StressedRisk(cfg: Settings, inp: SizeInput): real {
    PerShareRisk(inp) + PerShareCosts(cfg, inp)
  }

  /** Shares the money `capital` buys at `entry`. */
  function Affordable(capital: real, entry: real): real {
    if 0.0 < entry then capital / entry else 0.0
  }

  /** `max(0, min(int(qty), int(max_qty)))`. */
  function WholeShares(qty: real, most: real): nat {
    var whole := if Trunc(most) < Trunc(qty) then Trunc(most) else Trunc(qty);
    if whole < 0 then 0 else whole
  }

  /** Whole shares within every budget and the value cap, before the minimum-lot test. */
  function Lots(cfg: Settings, inp: SizeInput, how: SizingMethod): Option<nat> {
    var asked := MethodQty(cfg, inp, how);
    if asked.None? || StressedRisk(cfg, inp) == 0.0 then None
    else
      Some(WholeShares(Min(asked.value, LossBudget(cfg, inp, how) / StressedRisk(cfg, inp)),
                       Affordable(MaxCapital(cfg, inp), inp.entry)))
  }

  predicate CappedByValue(cfg: Settings, inp: SizeInput, how: SizingMethod) {
    var asked := MethodQty(cfg, inp, how);
    asked.Some? && StressedRisk(cfg, inp) != 0.0
    && Affordable(MaxCapital(cfg, inp), inp.entry)
         < Min(asked.value, LossBudget(cfg, inp, how) / StressedRisk(cfg, inp))
  }

  ghost predicate HasLots(cfg: Settings, inp: SizeInput, how: SizingMethod) {
    Lots(cfg, inp, how).Some? && 0 < Lots(cfg, inp, how).value
  }

  function Tolerance(cfg: Settings): real {
    Max(1.0, if cfg.sizingRiskBreachTolerance == 0.0 then 1.01 else cfg.sizingRiskBreachTolerance)
  }

  /** Risk of `qty` shares as a percentage of equity, unrounded. */
  function RiskPct(inp: SizeInput, qty: int): real
    requires inp.equity != 0.0
  {
    qty as real * PerShareRisk(inp) / inp.equity * 100.0
  }

  predicate BreachesLimit(cfg: Settings, inp: SizeInput, qty: int)
    requires inp.equity != 0.0
  {
    MaxRiskPct(cfg, inp) * Tolerance(cfg) < RiskPct(inp, qty)
  }

  /** `q` shares, lost at the stop with costs and slippage, fit each loss budget. */
  ghost predicate FitsLossBudgets(cfg: Settings, inp: SizeInput, q: real) {
    var stressed := StressedRisk(cfg, inp);
    && q * stressed <= inp.equity * MaxRiskPct(cfg, inp) / 100.0
    && q * stressed <= Max(0.0, inp.equity * cfg.maxDailyLossPct / 100.0 + Min(0.0, inp.dailyPnl))
    && q * stressed <= inp.equity * HeatRoomPct(cfg, inp) / 100.0
  }

  /** `q` shares at the entry price fit the value, cash-reserve and total-exposure caps. */
  ghost predicate FitsCapitalCaps(cfg: Settings, inp: SizeInput, q: real) {
    var spendable := 1.0 - cfg.cashReservePct / 100.0;
    && q * inp.entry <= inp.equity * cfg.maxPositionValuePct / 100.0
    && q * inp.entry <= CapBasis(inp) * spendable
    && inp.openNotional + q * inp.entry <= inp.equity * spendable
  }

  /** The sizing decision; `None` where the program raises a division by zero. */
  function Compute(cfg: Settings, inp: SizeInput, how: SizingMethod): Option<SizeResult> {
    if inp.entry <= inp.stopLoss || inp.equity <= 0.0 then Some(NO_SIZE)
    else
      var lots := Lots(cfg, inp, how);
      if lots.None? then None
      else if lots.value < 1 then Some(NO_SIZE)
      else
        var pct := RiskPct(inp, lots.value);
        var rs := Round(lots.value as real * PerShareRisk(inp), 100.0);
        if BreachesLimit(cfg, inp, lots.value)
        then Some(SizeResult(0, Round(pct, 1000.0), rs, true))
        else Some(SizeResult(lots.value, Round(pct, 1000.0), rs, CappedByValue(cfg, inp, how)))
  }

  /** A positive share count fits the loss budget at the stressed per-share loss, and the
      capital at the entry price. */
  lemma WholeSharesFit(asked: real, budget: real, stressed: real, capital: real, entry: real)
    requires stressed != 0.0
    requires 0 < WholeShares(Min(asked, budget / stressed), Affordable(capital, entry))
    ensures 0.0 < entry
    ensures 0.0 < stressed ==>
      WholeShares(Min(asked, budget / stressed), Affordable(capital, entry)) as real * stressed <= budget
    ensures WholeShares(Min(asked, budget / stressed), Affordable(capital, entry)) as real * entry <= capital
  {
    var q := WholeShares(Min(asked, budget / stressed), Affordable(capital, entry));
    BelowQuotient(q as real, capital, entry);
    if 0.0 < stressed {
      BelowQuotient(q as real, budget, stressed);
    }
  }

  lemma CostsNonNegative(cfg: Settings, inp: SizeInput)
    requires cfg.Valid() && 0.0 < inp.entry
    ensures 0.0 <= PerShareCosts(cfg, inp)
  {
    ScaleUp(0.0, cfg.roundTripCostBps + cfg.exitSlippageBps, inp.entry);
  }

  /** A positive lot count: the entry is positive, and the lots fit both the stressed
      budget and the capital cap. */
  lemma PositiveLots(cfg: Settings, inp: SizeInput, how: SizingMethod)
    requires cfg.Valid() && inp.stopLoss < inp.entry
    ensures HasLots(cfg, inp, how) ==>
      var q := Lots(cfg, inp, how).value as real;
      && 0.0 < inp.entry && 0.0 <= PerShareCosts(cfg, inp)
      && q * StressedRisk(cfg, inp) <= LossBudget(cfg, inp, how)
      && q * inp.entry <= MaxCapital(cfg, inp)
  {
    hide MethodQty, LossBudget, MaxCapital, WholeShares, Affordable;
    if HasLots(cfg, inp, how) {
      WholeSharesFit(MethodQty(cfg, inp, how).value, LossBudget(cfg, inp, how), StressedRisk(cfg, inp),
                     MaxCapital(cfg, inp), inp.entry);
      CostsNonNegative(cfg, inp);
    }
  }

  /** The money a share count puts at risk, as a percentage of equity, against a budget that
      is itself a percentage of equity. */
  lemma PercentOfBudget(amount: real, equity: real, pct: real)
    requires 0.0 < equity && amount <= equity * pct / 100.0
    ensures amount / equity * 100.0 <= pct
  {
    ScaleDown(amount, equity * pct / 100.0, equity);
    assert equity * pct / 100.0 / equity == pct / 100.0;
  }

  /** Numbers behind `LotsWithinRisk`, free of the settings they come from. */
  lemma RiskShare(q: real, risk: real, costs: real, equity: real, limit: real, room: real)
    requires 1.0 <= q && 0.0 < risk && 0.0 <= costs && 0.0 < equity
    requires q * (risk + costs) <= equity * limit / 100.0
    requires q * (risk + costs) <= equity * room / 100.0
    ensures 0.0 < q * risk / equity * 100.0 <= limit
    ensures q * risk / equity * 100.0 <= room
  {
    ScaleUp(risk, risk + costs, q);
    PercentOfBudget(q * risk, equity, limit);
    PercentOfBudget(q * risk, equity, room);
    ScaleUp(1.0, q, risk);
    ScaleDown(risk, q * risk, equity);
    assert 0.0 < risk / equity;
  }

  /** The tightest budget is below each of the three. */
  lemma LossBudgetBelow(cfg: Settings, inp: SizeInput, how: SizingMethod)
    requires 0.0 < inp.equity
    ensures LossBudget(cfg, inp, how) <= inp.equity * MaxRiskPct(cfg, inp) / 100.0
    ensures LossBudget(cfg, inp, how) <= DailyRoom(cfg, inp)
    ensures LossBudget(cfg, inp, how) <= inp.equity * HeatRoomPct(cfg, inp) / 100.0
  {
    hide MaxRiskPct, HeatRoomPct, DailyRoom;
    BudgetWithinLimit(inp.equity, MaxRiskPct(cfg, inp), HeatRoomPct(cfg, inp));
  }

  /** Whatever the method, the plain per-share risk of the lots stays within the per-trade
      percentage and the heat room, so the breach test is false. */
  lemma LotsWithinRisk(cfg: Settings, inp: SizeInput, how: SizingMethod)
    requires cfg.Valid() && inp.stopLoss < inp.entry && 0.0 < inp.equity
    ensures HasLots(cfg, inp, how) ==>
      var q := Lots(cfg, inp, how).value;
      && 0.0 < RiskPct(inp, q) <= MaxRiskPct(cfg, inp)
      && RiskPct(inp, q) <= HeatRoomPct(cfg, inp)
      && !BreachesLimit(cfg, inp, q)
  {
    hide Lots, LossBudget, DailyRoom, PerShareCosts, MaxRiskPct, HeatRoomPct, MaxCapital;
    if HasLots(cfg, inp, how) {
      PositiveLots(cfg, inp, how);
      LossBudgetBelow(cfg, inp, how);
      RiskShare(Lots(cfg, inp, how).value as real, PerShareRisk(inp), PerShareCosts(cfg, inp),
                inp.equity, MaxRiskPct(cfg, inp), HeatRoomPct(cfg, inp));
      ScaleUp(1.0, Tolerance(cfg), MaxRiskPct(cfg, inp));
    }
  }

  lemma BudgetWithinLimit(equity: real, limit: real, room: real)
    requires 0.0 < equity
    ensures equity * Min(limit, room) / 100.0 <= equity * limit / 100.0
  {
    ScaleUp(Min(limit, room), limit, equity);
  }

  /** Every budget and cap at once: a positive size fits the trade, daily and heat budgets with
      costs and slippage included, and the value, cash-reserve and total-exposure caps. */
  lemma SizeFitsEveryBudget(cfg: Settings, inp: SizeInput, how: SizingMethod)
    requires cfg.Valid()
    ensures var size := Compute(cfg, inp, how);
            size.Some? && size.value.qty != 0 ==>
              && 1 <= size.value.qty
              && 0.0 < inp.equity && inp.stopLoss < inp.entry && 0.0 < inp.entry
              && FitsLossBudgets(cfg, inp, size.value.qty as real)
              && FitsCapitalCaps(cfg, inp, size.value.qty as real)
  {
    hide Lots, FitsLossBudgets, FitsCapitalCaps, BreachesLimit, RiskPct;
    if inp.stopLoss < inp.entry && 0.0 < inp.equity {
      PositiveLots(cfg, inp, how);
      LotsFitLossBudgets(cfg, inp, how);
      LotsFitCapitalCaps(cfg, inp, how);
    }
  }

  lemma LotsFitLossBudgets(cfg: Settings, inp: SizeInput, how: SizingMethod)
    requires cfg.Valid() && inp.stopLoss < inp.entry && 0.0 < inp.equity
    ensures HasLots(cfg, inp, how) ==> FitsLossBudgets(cfg, inp, Lots(cfg, inp, how).value as real)
  {
    hide Lots, LossBudget, MaxRiskPct, HeatRoomPct, StressedRisk;
    PositiveLots(cfg, inp, how);
    LossBudgetBelow(cfg, inp, how);
  }

  lemma LotsFitCapitalCaps(cfg: Settings, inp: SizeInput, how: SizingMethod)
    requires cfg.Valid() && inp.stopLoss < inp.entry && 0.0 < inp.equity
    ensures HasLots(cfg, inp, how) ==> FitsCapitalCaps(cfg, inp, Lots(cfg, inp, how).value as real)
  {
    hide Lots, LossBudget, StressedRisk, CapBasis, MaxCapital, PerShareCosts;
    if HasLots(cfg, inp, how) {
      PositiveLots(cfg, inp, how);
      ScaleUp(1.0, Lots(cfg, inp, how).value as real, inp.entry);
      MaxCapitalBelow(cfg, inp);
    }
  }

  /** A positive capital ceiling is below the value cap and the reserved cash, and leaves the
      total exposure within the reserve. */
  lemma MaxCapitalBelow(cfg: Settings, inp: SizeInput)
    ensures var spendable := 1.0 - cfg.cashReservePct / 100.0;
            0.0 < MaxCapital(cfg, inp) ==>
              && MaxCapital(cfg, inp) <= inp.equity * cfg.maxPositionValuePct / 100.0
              && MaxCapital(cfg, inp) <= CapBasis(inp) * spendable
              && inp.openNotional + MaxCapital(cfg, inp) <= inp.equity * spendable
  {
    hide CapBasis;
  }

  /** The skip branch that guards against a breach of the per-trade limit is never taken: a
      result is empty exactly when no whole share fits the budgets and caps. */
  lemma BreachBranchUnreachable(cfg: Settings, inp: SizeInput, how: SizingMethod)
    requires cfg.Valid() && inp.stopLoss < inp.entry && 0.0 < inp.equity
    ensures var lots, size := Lots(cfg, inp, how), Compute(cfg, inp, how);
            if lots.None? then size.None? else size.Some? && size.value.qty == lots.value
  {
    hide Lots, BreachesLimit, RiskPct;
    LotsWithinRisk(cfg, inp, how);
  }
}
