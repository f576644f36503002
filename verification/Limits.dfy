/** Sizing, the risk layers and the ledger put together: one analyze step of the orchestrator,
    and the limits that every run of entries and exits keeps. */
module Limits {
  import opened Common
  import opened Configuration
  import opened Ledger
  import PortfolioMirror
  import opened PortfolioStore
  import Sizing
  import Risk

  /** The ranked signal and market readings that reach the sizing code. */
  datatype Signal = Signal(
    symbol: string,
    strategy: string,
    entry: real,
    stopLoss: real,
    takeProfit: real,
    confidence: real,
    regime: string,
    volatilityPct: real,
    positionSizeFactor: real,
    dataQuality: real,
    safeMode: bool,
    disabledStrategies: set<string>
  )

  /** What the execution engine reports for an order. */
  datatype Execution = NotFilled | Filled(qty: real, price: real, brokerOrderId: string, stopOrderId: string)

  function OpenNotional(st: PortfolioState): real { Total(st.positions, Notional) }

  function Symbols(ps: seq<PositionView>): seq<string> {
    seq(|ps|, i requires 0 <= i < |ps| => ps[i].symbol)
  }

  function SizeInputFor(st: PortfolioState, sig: Signal, live: bool): Sizing.SizeInput {
    Sizing.SizeInput(RiskEquity(st), sig.entry, sig.stopLoss, Some(if live then st.buyingPower else st.cash),
                     Some(st.cash), st.dailyPnl, OpenNotional(st), 0.0, sig.volatilityPct, 0.5, 1.5,
                     Heat(st.positions), sig.positionSizeFactor)
  }

  function RiskStateFor(st: PortfolioState, sig: Signal): Risk.RiskState {
    var peak := if st.peakEquity == 0.0 then st.equity else st.peakEquity;
    Risk.RiskState(RiskEquity(st), st.cash, st.dailyPnl, st.weeklyPnl, st.monthlyPnl,
                   if peak == 0.0 then RiskEquity(st) else peak,
                   |st.positions|, Heat(st.positions), st.consecutiveLosses, st.emergencyHalt,
                   st.circuitBreaker || sig.safeMode, st.blackSwanMode, sig.safeMode, sig.dataQuality,
                   map[], map[], sig.disabledStrategies)
  }

  function ProposalFor(sig: Signal, qty: int): Risk.TradeProposal {
    Risk.TradeProposal(sig.symbol, sig.entry, sig.stopLoss, sig.takeProfit, qty as real, sig.confidence,
                       sig.strategy, sig.regime, 0.85, sig.volatilityPct, sig.strategy)
  }

  function SizeFor(cfg: Settings, st: PortfolioState, sig: Signal, live: bool): Option<Sizing.SizeResult> {
    Sizing.Compute(cfg, SizeInputFor(st, sig, live), Sizing.Portfolio)
  }

  /** The order the pipeline sends, as a share count; `None` when nothing is sent. */
  function OrderFor(cfg: Settings, st: PortfolioState, sig: Signal, live: bool, ans: Risk.Answers): Option<int> {
    var size := SizeFor(cfg, st, sig, live);
    if size.None? then None
    else
      var decision := Risk.EvaluateTrade(cfg, ProposalFor(sig, size.value.qty), RiskStateFor(st, sig),
                                         Symbols(st.positions), ans);
      if decision.IsApproved() && 0 < decision.finalQty then Some(decision.finalQty) else None
  }

  /** The position one analyze step hands to `record_fill`, if any. */
  function EntryFor(cfg: Settings, st: PortfolioState, sig: Signal, live: bool, ans: Risk.Answers, done: Execution)
    : Option<PositionView>
  {
    var size := SizeFor(cfg, st, sig, live);
    if OrderFor(cfg, st, sig, live, ans).None? || done.NotFilled? || done.qty <= 0.0 then None
    else Some(PositionView(sig.symbol, done.qty, done.price, sig.stopLoss, sig.takeProfit, sig.strategy, 0.0,
                           size.value.riskPct, done.brokerOrderId, done.stopOrderId, None))
  }

  lemma SentOrderWasSized(cfg: Settings, st: PortfolioState, sig: Signal, live: bool, ans: Risk.Answers)
    ensures OrderFor(cfg, st, sig, live, ans).Some? ==> SizeFor(cfg, st, sig, live).Some?
  {
    hide SizeFor, RiskStateFor, Risk.EvaluateTrade;
  }

  // ---- one order ----

  /** An order that left the pipeline was positively sized, and passed the count, heat and
      duplicate rules on the ledger it was computed from. */
  lemma SentOrder(cfg: Settings, st: PortfolioState, sig: Signal, live: bool, ans: Risk.Answers)
    requires cfg.Valid()
    ensures OrderFor(cfg, st, sig, live, ans).Some? ==>
      var size := SizeFor(cfg, st, sig, live);
      && size.Some? && size.value.qty != 0
      && |st.positions| < cfg.maxOpenPositions
      && (forall i :: 0 <= i < |st.positions| ==> Upper(st.positions[i].symbol) != Upper(sig.symbol))
      && 0.0 <= size.value.riskPct
      && Heat(st.positions) + size.value.riskPct <= cfg.maxPortfolioHeatPct + 0.0005
  {
    hide Sizing.Compute, Risk.EvaluateTrade, Risk.FitsDailyBudget, Risk.PerTradeRiskPct, Sizing.RiskPct, Upper, Heat,
      RiskEquity;
    if OrderFor(cfg, st, sig, live, ans).Some? {
      var inp, rs := SizeInputFor(st, sig, live), RiskStateFor(st, sig);
      var size := SizeFor(cfg, st, sig, live).value;
      var p := ProposalFor(sig, size.qty);
      var held := Symbols(st.positions);
      Risk.ApprovedMeansWithinLimits(cfg, p, rs, held, ans);
      assert size.qty != 0;
      assert Risk.SizedBy(cfg, inp, Sizing.Portfolio, p);
      Risk.SizeMeetsLimits(cfg, inp, Sizing.Portfolio, p, rs);
      RecordedRisk(cfg, inp, Sizing.Portfolio);
      forall i | 0 <= i < |st.positions|
        ensures Upper(st.positions[i].symbol) != Upper(sig.symbol)
      {
        assert held[i] == st.positions[i].symbol;
      }
    }
  }

  /** The recorded risk percentage is the true one to within half a unit of the third decimal. */
  lemma RecordedRisk(cfg: Settings, inp: Sizing.SizeInput, how: Sizing.SizingMethod)
    requires cfg.Valid()
    ensures var size := Sizing.Compute(cfg, inp, how);
            size.Some? && size.value.qty != 0 ==>
              && 0.0 < inp.equity
              && 0.0 <= size.value.riskPct <= Sizing.RiskPct(inp, size.value.qty) + 0.0005
  {
    hide Sizing.Lots, Sizing.BreachesLimit, Sizing.RiskPct, Sizing.CappedByValue, Round;
    var size := Sizing.Compute(cfg, inp, how);
    if size.Some? && size.value.qty != 0 {
      Risk.SizeIsLots(cfg, inp, how);
      Sizing.LotsWithinRisk(cfg, inp, how);
      RoundIsClose(Sizing.RiskPct(inp, size.value.qty), 1000.0);
      RoundNonNegative(Sizing.RiskPct(inp, size.value.qty));
    }
  }

  lemma RoundNonNegative(x: real)
    requires 0.0 <= x
    ensures 0.0 <= Round(x, 1000.0)
  {
    assert 0 <= Nearest(x * 1000.0);
  }

  /** The order actually sent, after all three risk layers, still fits every loss budget and
      capital cap the sizer worked from, and is at least one share. */
  lemma OrderFitsEveryBudget(cfg: Settings, st: PortfolioState, sig: Signal, live: bool, ans: Risk.Answers)
    requires cfg.Valid() && 0.0 <= cfg.highVolSizeMultiplier <= 1.0
    requires ans.throttle.Some? ==> 0.0 <= ans.throttle.value <= 1.0
    ensures var order, inp := OrderFor(cfg, st, sig, live, ans), SizeInputFor(st, sig, live);
            order.Some? ==>
              && 1 <= order.value <= SizeFor(cfg, st, sig, live).value.qty
              && Sizing.FitsLossBudgets(cfg, inp, order.value as real)
              && Sizing.FitsCapitalCaps(cfg, inp, order.value as real)
  {
    hide Sizing.Compute, Risk.EvaluateTrade, Heat, RiskEquity, Sizing.FitsLossBudgets, Sizing.FitsCapitalCaps, Upper;
    var order, inp := OrderFor(cfg, st, sig, live, ans), SizeInputFor(st, sig, live);
    if order.Some? {
      var size := SizeFor(cfg, st, sig, live).value;
      var p := ProposalFor(sig, size.qty);
      Risk.ThrottledNeverGrows(cfg, p, RiskStateFor(st, sig), Symbols(st.positions), ans, size.qty);
      Sizing.SizeFitsEveryBudget(cfg, inp, Sizing.Portfolio);
      SmallerStillFits(cfg, inp, order.value as real, size.qty as real);
    }
  }

  lemma SmallerStillFits(cfg: Settings, inp: Sizing.SizeInput, less: real, more: real)
    requires cfg.Valid() && 0.0 < inp.entry && inp.stopLoss < inp.entry && 0.0 <= less <= more
    ensures Sizing.FitsLossBudgets(cfg, inp, more) ==> Sizing.FitsLossBudgets(cfg, inp, less)
    ensures Sizing.FitsCapitalCaps(cfg, inp, more) ==> Sizing.FitsCapitalCaps(cfg, inp, less)
  {
    hide Sizing.MaxRiskPct, Sizing.HeatRoomPct, Sizing.CapBasis, Sizing.PerShareCosts;
    Sizing.CostsNonNegative(cfg, inp);
    ScaleUp(less, more, Sizing.StressedRisk(cfg, inp));
    ScaleUp(less, more, inp.entry);
  }

  // ---- all runs ----

  datatype Event =
    | Analyze(sig: Signal, live: bool, ans: Risk.Answers, done: Execution)
    | Close(symbol: string, qty: Option<real>, price: real)

  function Step(cfg: Settings, st: PortfolioState, ev: Event): PortfolioState {
    match ev
    case Analyze(sig, live, ans, done) =>
      var entry := EntryFor(cfg, st, sig, live, ans, done);
      if entry.None? then st else AfterFill(st, entry.value)
    case Close(symbol, qty, price) => Apply(st, Exit(symbol, qty, price), cfg.roundTripCostBps)
  }

  function Steps(cfg: Settings, st: PortfolioState, evs: seq<Event>): PortfolioState
    decreases |evs|
  {
    if evs == [] then st else Steps(cfg, Step(cfg, st, evs[0]), evs[1..])
  }

  ghost predicate SoundPositions(ps: seq<PositionView>) {
    forall i :: 0 <= i < |ps| ==> 0.0 < ps[i].qty && 0.0 <= ps[i].riskPct
  }

  ghost predicate WithinLimits(cfg: Settings, ps: seq<PositionView>) {
    && DistinctSymbols(ps)
    && SoundPositions(ps)
    && (ps != [] ==> |ps| <= cfg.maxOpenPositions && Heat(ps) <= cfg.maxPortfolioHeatPct + 0.0005)
  }

  lemma EntryKeepsLimits(cfg: Settings, st: PortfolioState, sig: Signal, live: bool, ans: Risk.Answers, done: Execution)
    requires cfg.Valid() && WithinLimits(cfg, st.positions)
    ensures WithinLimits(cfg, Step(cfg, st, Analyze(sig, live, ans, done)).positions)
  {
    hide OrderFor, SizeFor, Upper;
    SentOrder(cfg, st, sig, live, ans);
    var entry := EntryFor(cfg, st, sig, live, ans, done);
    if entry.Some? {
      TotalConcat(st.positions, [entry.value], RiskOf);
      assert [entry.value][1..] == [];
    }
  }

  // ---- the orchestrator ----

  /** The orchestrator's section from sizing to `record_fill`, on a shared portfolio. */
  class Orchestrator {
    const portfolio: PortfolioManager

    constructor (portfolio: PortfolioManager)
      ensures this.portfolio == portfolio
    {
      this.portfolio := portfolio;
    }

    /** Whatever the storage does, the ledger takes the step that `LimitsHoldOverRuns` is about, up to the
        new row's key and a halt, and so stays within its limits. A symbol that is held is never entered
        again. A step that reports an entry leaves the database mirroring the ledger. */
    method AnalyzeSymbol(cfg: Settings, sig: Signal, live: bool, ans: Risk.Answers, done: Execution,
                         insert: Insert, saveFault: bool) returns (entered: bool)
      modifies portfolio, portfolio.repo
      ensures Unkeyed(portfolio.state) == Unkeyed(Step(cfg, old(portfolio.state), Analyze(sig, live, ans, done)))
      ensures cfg.Valid() && WithinLimits(cfg, old(portfolio.state.positions)) ==>
        WithinLimits(cfg, portfolio.state.positions)
      ensures cfg.Valid() && Holds(old(portfolio.state.positions), sig.symbol) ==>
        !entered && portfolio.state == old(portfolio.state) && portfolio.repo.tables == old(portfolio.repo.tables)
      ensures entered ==> |portfolio.state.positions| == |old(portfolio.state.positions)| + 1
      ensures entered && PortfolioMirror.Aligned(old(portfolio.state.positions), old(portfolio.repo.tables.rows)) ==>
        PortfolioMirror.Mirrors(portfolio.state, portfolio.repo.tables)
      ensures !entered && portfolio.state != old(portfolio.state) ==> portfolio.IsTradingHalted()
    {
      hide SizeFor, RiskStateFor, Risk.EvaluateTrade, OrderFor, Upper, FillStep, WithinLimits;
      var st := portfolio.state;
      ghost var t := portfolio.repo.tables;
      var size := SizeFor(cfg, st, sig, live);
      var order := OrderFor(cfg, st, sig, live, ans);
      entered := false;
      if cfg.Valid() {
        if Holds(st.positions, sig.symbol) { HeldIsNotSent(cfg, st, sig, live, ans); }
        if WithinLimits(cfg, st.positions) { EntryKeepsLimits(cfg, st, sig, live, ans, done); }
      }
      if order.Some? && done.Filled? && done.qty > 0.0 {
        SentOrderWasSized(cfg, st, sig, live, ans);
        var pos := PositionView(sig.symbol, done.qty, done.price, sig.stopLoss, sig.takeProfit, sig.strategy, 0.0,
                                size.value.riskPct, done.brokerOrderId, done.stopOrderId, None);
        entered := portfolio.RecordFill(pos, sig.confidence, insert, saveFault);
        FillIsStep(cfg, st, t, pos, sig.confidence, insert, saveFault);
      }
    }
  }

  predicate Holds(ps: seq<PositionView>, symbol: string) {
    exists i :: 0 <= i < |ps| && Upper(ps[i].symbol) == Upper(symbol)
  }

  lemma HeldIsNotSent(cfg: Settings, st: PortfolioState, sig: Signal, live: bool, ans: Risk.Answers)
    requires cfg.Valid() && Holds(st.positions, sig.symbol)
    ensures OrderFor(cfg, st, sig, live, ans).None?
  {
    hide OrderFor, SizeFor, Upper;
    SentOrder(cfg, st, sig, live, ans);
  }

  /** The ledger without its row keys and its halt flags. */
  function Unkeyed(st: PortfolioState): PortfolioState {
    st.(positions := seq(|st.positions|, i requires 0 <= i < |st.positions| => st.positions[i].(dbId := None)),
        emergencyHalt := false, circuitBreaker := false)
  }

  /** However `record_fill` ends, the ledger took the fill. */
  lemma FillIsStep(cfg: Settings, st: PortfolioState, t: Tables, pos: PositionView, confidence: real, insert: Insert,
                   saveFault: bool)
    ensures var (st', t', ok) := FillStep(st, t, pos, confidence, insert, saveFault);
            && Unkeyed(st') == Unkeyed(AfterFill(st, pos))
            && |st'.positions| == |st.positions| + 1
            && (WithinLimits(cfg, AfterFill(st, pos).positions) ==> WithinLimits(cfg, st'.positions))
            && (ok && PortfolioMirror.Aligned(st.positions, t.rows) ==> PortfolioMirror.Mirrors(st', t'))
  {
    hide Saved, Added, PortfolioMirror.Aligned, PortfolioMirror.Mirrors, Upper;
    var (st', t', ok) := FillStep(st, t, pos, confidence, insert, saveFault);
    if PortfolioMirror.Aligned(st.positions, t.rows) {
      PortfolioMirror.FillMirrors(st, t, pos, confidence, insert, saveFault);
    }
    var filled := AfterFill(st, pos);
    assert Unkeyed(st').positions == Unkeyed(filled).positions;
    if WithinLimits(cfg, filled.positions) { KeyKeepsLimits(cfg, filled.positions, st'.positions); }
  }

  lemma KeyKeepsLimits(cfg: Settings, ps: seq<PositionView>, keyed: seq<PositionView>)
    requires WithinLimits(cfg, ps) && ps != []
    requires |keyed| == |ps| && keyed == ps[|ps| - 1 := ps[|ps| - 1].(dbId := keyed[|ps| - 1].dbId)]
    ensures WithinLimits(cfg, keyed)
  {
    hide Upper;
    TotalReplace(ps, |ps| - 1, keyed[|ps| - 1], RiskOf);
  }

  /** Which positions a reduction leaves, and in what shape. */
  lemma ReduceKeepsShape(ps: seq<PositionView>, i: nat, closed: real)
    requires DistinctSymbols(ps) && SoundPositions(ps) && i < |ps| && 0.0 < closed <= ps[i].qty
    ensures var out := Reduce(ps, i, closed);
            DistinctSymbols(out) && SoundPositions(out) && |out| <= |ps|
  {
    hide Upper, ReducedPosition;
    ReducedStaysSound(ps[i], closed);
    var out := Reduce(ps, i, closed);
    if closed < ps[i].qty {
      OneReduce(ps, i, closed);
      assert forall k :: 0 <= k < |out| && k != i ==> out[k] == ps[k];
    } else {
      assert out == ps[..i] + ps[i + 1..];
      assert forall k :: 0 <= k < |out| ==> out[k] == ps[if k < i then k else k + 1];
    }
  }

  lemma ReduceKeepsLimits(cfg: Settings, ps: seq<PositionView>, i: nat, closed: real)
    requires WithinLimits(cfg, ps) && i < |ps| && 0.0 < closed <= ps[i].qty
    ensures WithinLimits(cfg, Reduce(ps, i, closed))
  {
    hide Upper, Reduce, ReducedPosition, FreedRisk, FreedCost, Notional, DistinctSymbols;
    assert 0.0 <= ps[i].riskPct;
    ReduceTotals(ps, i, closed);
    ReducedStaysSound(ps[i], closed);
    ReduceKeepsShape(ps, i, closed);
  }

  lemma ReducedStaysSound(p: PositionView, closed: real)
    requires 0.0 < closed <= p.qty && 0.0 <= p.riskPct
    ensures 0.0 <= FreedRisk(p, closed)
    ensures ReducedPosition(p, closed).symbol == p.symbol
    ensures ReducedPosition(p, closed).qty == p.qty - closed
    ensures 0.0 <= ReducedPosition(p, closed).riskPct
  {
    ScaleDown(0.0, closed, p.qty);
    ScaleDown(0.0, p.qty - closed, p.qty);
    ScaleUp(0.0, closed / p.qty, p.riskPct);
    ScaleUp(0.0, (p.qty - closed) / p.qty, p.riskPct);
  }

  /** From an empty book, any interleaving of analyze steps and full or partial exits keeps the
      symbols distinct, the open positions within the maximum, and the recorded heat within the
      maximum plus the half unit that rounding to three decimals allows. */
  lemma {:induction false} LimitsHoldOverRuns(cfg: Settings, st: PortfolioState, evs: seq<Event>)
    requires cfg.Valid() && WithinLimits(cfg, st.positions)
    ensures WithinLimits(cfg, Steps(cfg, st, evs).positions)
    decreases |evs|
  {
    hide EntryFor, Reduce, Upper;
    if evs != [] {
      match evs[0] {
        case Analyze(sig, live, ans, done) =>
          EntryKeepsLimits(cfg, st, sig, live, ans, done);
        case Close(symbol, qty, price) =>
          var t := Resolve(st, symbol, qty);
          if t.Target? { ReduceKeepsLimits(cfg, st.positions, t.i, t.closed); }
      }
      LimitsHoldOverRuns(cfg, Step(cfg, st, evs[0]), evs[1..]);
    }
  }
}
