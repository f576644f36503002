/** The portfolio ledger as a value: what one confirmed fill and one confirmed exit do to
    cash, equity, the P&L counters and the position list, and the laws of whole runs. */
module Ledger {
  import opened Common

  datatype PositionView = PositionView(
    symbol: string,
    qty: real,
    entry: real,
    stopLoss: real,
    takeProfit: real,
    strategy: string,
    unrealizedPnl: real,
    riskPct: real,
    brokerOrderId: string,
    stopOrderId: string,
    dbId: Option<nat>
  )

  datatype PortfolioState = PortfolioState(
    equity: real,
    cash: real,
    positions: seq<PositionView>,
    dailyPnl: real,
    weeklyPnl: real,
    monthlyPnl: real,
    peakEquity: real,
    buyingPower: real,
    consecutiveLosses: int,
    emergencyHalt: bool,
    circuitBreaker: bool,
    blackSwanMode: bool
  )

  // ---- sums over the position list ----

  function Total(ps: seq<PositionView>, f: PositionView -> real): real {
    if ps == [] then 0.0 else f(ps[0]) + Total(ps[1..], f)
  }

  function Notional(p: PositionView): real { p.qty * p.entry }

  function RiskOf(p: PositionView): real { p.riskPct }

  function Heat(ps: seq<PositionView>): real { Total(ps, RiskOf) }

  lemma {:induction false} TotalConcat(a: seq<PositionView>, b: seq<PositionView>, f: PositionView -> real)
    ensures Total(a + b, f) == Total(a, f) + Total(b, f)
  {
    if a == [] {
      assert a + b == b;
    } else {
      assert (a + b)[1..] == a[1..] + b;
      TotalConcat(a[1..], b, f);
    }
  }

  lemma TotalAt(ps: seq<PositionView>, i: nat, f: PositionView -> real)
    requires i < |ps|
    ensures Total(ps, f) == Total(ps[..i], f) + f(ps[i]) + Total(ps[i + 1..], f)
  {
    assert ps == ps[..i] + ps[i..];
    TotalConcat(ps[..i], ps[i..], f);
    assert ps[i..][1..] == ps[i + 1..];
  }

  lemma TotalReplace(ps: seq<PositionView>, i: nat, p: PositionView, f: PositionView -> real)
    requires i < |ps|
    ensures Total(ps[i := p], f) == Total(ps, f) - f(ps[i]) + f(p)
  {
    TotalAt(ps, i, f);
    TotalAt(ps[i := p], i, f);
    assert ps[i := p][..i] == ps[..i] && ps[i := p][i + 1..] == ps[i + 1..];
  }

  lemma TotalRemove(ps: seq<PositionView>, i: nat, f: PositionView -> real)
    requires i < |ps|
    ensures Total(ps[..i] + ps[i + 1..], f) == Total(ps, f) - f(ps[i])
  {
    TotalAt(ps, i, f);
    TotalConcat(ps[..i], ps[i + 1..], f);
  }

  // ---- lookup ----

  /** The first position whose upper-cased symbol is `sym`, or the length of the list. */
  function IndexOf(ps: seq<PositionView>, sym: string): (i: nat)
    ensures i <= |ps|
    ensures forall k :: 0 <= k < i ==> Upper(ps[k].symbol) != sym
    ensures i < |ps| ==> Upper(ps[i].symbol) == sym
  {
    if ps == [] then 0
    else if Upper(ps[0].symbol) == sym then 0
    else 1 + IndexOf(ps[1..], sym)
  }

  ghost predicate DistinctSymbols(ps: seq<PositionView>) {
    forall i, j :: 0 <= i < j < |ps| ==> Upper(ps[i].symbol) != Upper(ps[j].symbol)
  }

  lemma IndexOfUnique(ps: seq<PositionView>, i: nat)
    requires i < |ps| && DistinctSymbols(ps)
    ensures IndexOf(ps, Upper(ps[i].symbol)) == i
  {
    var sym := Upper(ps[i].symbol);
    assert IndexOf(ps, sym) <= i;
    assert Upper(ps[IndexOf(ps, sym)].symbol) == sym;
  }

  // ---- fills and exits ----

  function AfterFill(st: PortfolioState, pos: PositionView): PortfolioState {
    st.(cash := Max(0.0, st.cash - pos.qty * pos.entry), positions := st.positions + [pos])
  }

  function ReducedPosition(p: PositionView, closed: real): PositionView
    requires p.qty != 0.0
  {
    var left := p.qty - closed;
    p.(qty := left, riskPct := p.riskPct * (left / p.qty))
  }

  lemma ReducedQty(p: PositionView, closed: real)
    requires p.qty != 0.0
    ensures ReducedPosition(p, closed).qty == p.qty - closed
  {
  }

  /** The position list once `closed` shares of position `i` are gone. */
  function Reduce(ps: seq<PositionView>, i: nat, closed: real): seq<PositionView>
    requires i < |ps| && 0.0 < closed <= ps[i].qty
  {
    if ps[i].qty - closed <= 0.0 then ps[..i] + ps[i + 1..]
    else ps[i := ReducedPosition(ps[i], closed)]
  }

  function AfterExit(st: PortfolioState, i: nat, closed: real, price: real, pnl: real): PortfolioState
    requires i < |st.positions| && 0.0 < closed <= st.positions[i].qty
  {
    var equity := st.equity + pnl;
    st.(
      cash := st.cash + closed * price,
      dailyPnl := st.dailyPnl + pnl,
      weeklyPnl := st.weeklyPnl + pnl,
      monthlyPnl := st.monthlyPnl + pnl,
      equity := equity,
      peakEquity := if st.peakEquity < equity then equity else st.peakEquity,
      consecutiveLosses := if pnl < 0.0 then st.consecutiveLosses + 1 else 0,
      positions := Reduce(st.positions, i, closed)
    )
  }

  /** What `record_exit` decides before it touches anything. */
  datatype ExitTarget = NoPosition | BadQuantity | Target(i: nat, closed: real)

  function Resolve(st: PortfolioState, symbol: string, qty: Option<real>): (t: ExitTarget)
    ensures t.Target? ==> t.i < |st.positions| && 0.0 < t.closed <= st.positions[t.i].qty
  {
    var i := IndexOf(st.positions, Upper(symbol));
    if i == |st.positions| then NoPosition
    else
      var closed := if qty.None? then st.positions[i].qty else qty.value;
      if 0.0 < closed <= st.positions[i].qty then Target(i, closed) else BadQuantity
  }

  /** Profit of one share sold at `price`, after the estimated round-trip cost. */
  function UnitPnl(entry: real, price: real, costBps: real): real {
    price - entry - entry * costBps / 10000.0
  }

  /** The P&L the exit paths book: gross profit less the estimated cost of the closed shares. */
  function BookedPnl(entry: real, closed: real, price: real, costBps: real): real {
    (price - entry) * closed - entry * closed * costBps / 10000.0
  }

  lemma BookedPnlPerShare(entry: real, closed: real, price: real, costBps: real)
    ensures BookedPnl(entry, closed, price, costBps) == UnitPnl(entry, price, costBps) * closed
  {
  }

  datatype Event = Fill(pos: PositionView) | Exit(symbol: string, qty: Option<real>, price: real)

  /** One event; an exit with no matching position, or with a refused quantity, changes nothing. */
  function Apply(st: PortfolioState, ev: Event, costBps: real): PortfolioState {
    match ev
    case Fill(pos) => AfterFill(st, pos)
    case Exit(symbol, qty, price) =>
      var t := Resolve(st, symbol, qty);
      if t.Target?
      then AfterExit(st, t.i, t.closed, price, BookedPnl(st.positions[t.i].entry, t.closed, price, costBps))
      else st
  }

  function Run(st: PortfolioState, evs: seq<Event>, costBps: real): PortfolioState
    decreases |evs|
  {
    if evs == [] then st else Run(Apply(st, evs[0], costBps), evs[1..], costBps)
  }

  // ---- conservation ----

  /** How far cash plus open cost runs ahead of equity. */
  function Gap(st: PortfolioState): real { st.cash + Total(st.positions, Notional) - st.equity }

  /** Fees an event charges. */
  function Fees(st: PortfolioState, ev: Event, costBps: real): real {
    match ev
    case Fill(_) => 0.0
    case Exit(symbol, qty, price) =>
      var t := Resolve(st, symbol, qty);
      if t.Target? then st.positions[t.i].entry * t.closed * costBps / 10000.0 else 0.0
  }

  /** Cash an event spends beyond what is there, which the ledger clamps at zero. */
  function Clamped(st: PortfolioState, ev: Event): real {
    match ev
    case Fill(pos) => Max(0.0, pos.qty * pos.entry - st.cash)
    case Exit(_, _, _) => 0.0
  }

  function Charges(st: PortfolioState, evs: seq<Event>, costBps: real): real
    decreases |evs|
  {
    if evs == [] then 0.0
    else Fees(st, evs[0], costBps) + Clamped(st, evs[0]) + Charges(Apply(st, evs[0], costBps), evs[1..], costBps)
  }

  /** Reducing one position changes a total by that position's own change. */
  lemma ReduceTotal(ps: seq<PositionView>, i: nat, closed: real, f: PositionView -> real, change: real)
    requires i < |ps| && 0.0 < closed <= ps[i].qty
    requires closed < ps[i].qty ==> f(ReducedPosition(ps[i], closed)) == f(ps[i]) - change
    requires closed == ps[i].qty ==> f(ps[i]) == change
    ensures Total(Reduce(ps, i, closed), f) == Total(ps, f) - change
  {
    hide ReducedPosition;
    if ps[i].qty - closed <= 0.0 {
      TotalRemove(ps, i, f);
    } else {
      TotalReplace(ps, i, ReducedPosition(ps[i], closed), f);
    }
  }

  /** Cost basis and recorded risk that leave with `closed` shares. */
  function FreedCost(p: PositionView, closed: real): real { closed * p.entry }

  function FreedRisk(p: PositionView, closed: real): real
    requires p.qty != 0.0
  {
    p.riskPct * (closed / p.qty)
  }

  lemma ReduceTotals(ps: seq<PositionView>, i: nat, closed: real)
    requires i < |ps| && 0.0 < closed <= ps[i].qty
    ensures Total(Reduce(ps, i, closed), Notional) == Total(ps, Notional) - FreedCost(ps[i], closed)
    ensures Heat(Reduce(ps, i, closed)) == Heat(ps) - FreedRisk(ps[i], closed)
  {
    hide Reduce, ReducedPosition, FreedCost, FreedRisk, Notional, RiskOf;
    ReducedValues(ps[i], closed);
    ReduceTotal(ps, i, closed, Notional, FreedCost(ps[i], closed));
    ReduceTotal(ps, i, closed, RiskOf, FreedRisk(ps[i], closed));
  }

  lemma ReducedValues(p: PositionView, closed: real)
    requires 0.0 < closed <= p.qty
    ensures Notional(ReducedPosition(p, closed)) == Notional(p) - FreedCost(p, closed)
    ensures RiskOf(ReducedPosition(p, closed)) == RiskOf(p) - FreedRisk(p, closed)
    ensures closed == p.qty ==> Notional(p) == FreedCost(p, closed) && RiskOf(p) == FreedRisk(p, closed)
  {
    ShareLeft(p.riskPct, p.qty, closed);
    assert (p.qty - closed) * p.entry == p.qty * p.entry - closed * p.entry;
  }

  lemma ShareLeft(risk: real, qty: real, closed: real)
    requires qty != 0.0
    ensures risk * ((qty - closed) / qty) == risk - risk * (closed / qty)
    ensures qty == closed ==> risk * (closed / qty) == risk
  {
    var left, share := (qty - closed) / qty, closed / qty;
    assert left * qty == qty - closed && share * qty == closed;
    Cancels(left, 1.0 - share, qty);
    Distribute(risk, 1.0, share);
  }

  lemma Cancels(a: real, b: real, q: real)
    requires q != 0.0 && a * q == b * q
    ensures a == b
  {
  }

  lemma FillConserves(st: PortfolioState, pos: PositionView)
    ensures Gap(AfterFill(st, pos)) == Gap(st) + Max(0.0, Notional(pos) - st.cash)
  {
    hide Notional;
    TotalConcat(st.positions, [pos], Notional);
    assert [pos][1..] == [];
    assert Notional(pos) == pos.qty * pos.entry by { NotionalOf(pos); }
  }

  lemma NotionalOf(p: PositionView)
    ensures Notional(p) == p.qty * p.entry
  {
  }

  lemma StepConserves(st: PortfolioState, ev: Event, costBps: real)
    ensures Gap(Apply(st, ev, costBps)) == Gap(st) + Fees(st, ev, costBps) + Clamped(st, ev)
  {
    hide Gap, AfterFill, AfterExit, BookedPnl, Resolve;
    match ev
    case Fill(pos) =>
      FillConserves(st, pos);
      NotionalOf(pos);
    case Exit(symbol, qty, price) =>
      var t := Resolve(st, symbol, qty);
      if t.Target? {
        TargetFits(st, symbol, qty);
        ExitConserves(st, t.i, t.closed, price, costBps);
      }
  }

  lemma TargetFits(st: PortfolioState, symbol: string, qty: Option<real>)
    ensures var t := Resolve(st, symbol, qty);
            t.Target? ==> t.i < |st.positions| && 0.0 < t.closed <= st.positions[t.i].qty
  {
  }

  lemma ExitConserves(st: PortfolioState, i: nat, closed: real, price: real, costBps: real)
    requires i < |st.positions| && 0.0 < closed <= st.positions[i].qty
    ensures var pnl := BookedPnl(st.positions[i].entry, closed, price, costBps);
            Gap(AfterExit(st, i, closed, price, pnl)) == Gap(st) + st.positions[i].entry * closed * costBps / 10000.0
  {
    hide BookedPnl, Reduce, Notional;
    ReduceTotals(st.positions, i, closed);
    ExitBalance(closed, price, st.positions[i].entry, costBps);
  }

  lemma ExitBalance(closed: real, price: real, entry: real, costBps: real)
    ensures closed * price - closed * entry - BookedPnl(entry, closed, price, costBps)
      == entry * closed * costBps / 10000.0
  {
  }

  /** Over any run, the gap grows by exactly the fees charged and the cash clamped at zero. */
  lemma {:induction false} Conservation(st: PortfolioState, evs: seq<Event>, costBps: real)
    ensures Gap(Run(st, evs, costBps)) == Gap(st) + Charges(st, evs, costBps)
    decreases |evs|
  {
    if evs != [] {
      StepConserves(st, evs[0], costBps);
      Conservation(Apply(st, evs[0], costBps), evs[1..], costBps);
    }
  }

  // ---- the risk basis ----

  /** The equity figure handed to sizing and risk. */
  function RiskEquity(st: PortfolioState): real {
    Max(0.0, Min(st.equity, st.cash + Total(st.positions, Notional)))
  }

  ghost predicate NonNegativeEntries(ps: seq<PositionView>) {
    forall i :: 0 <= i < |ps| ==> 0.0 <= ps[i].entry
  }

  ghost predicate PaidFills(evs: seq<Event>) {
    forall i :: 0 <= i < |evs| && evs[i].Fill? ==> 0.0 <= evs[i].pos.entry
  }

  lemma StepKeepsEntries(st: PortfolioState, ev: Event, costBps: real)
    requires NonNegativeEntries(st.positions) && 0.0 <= costBps
    requires ev.Fill? ==> 0.0 <= ev.pos.entry
    ensures NonNegativeEntries(Apply(st, ev, costBps).positions)
    ensures 0.0 <= Fees(st, ev, costBps)
  {
    if ev.Exit? {
      var t := Resolve(st, ev.symbol, ev.qty);
      if t.Target? {
        var p := st.positions[t.i];
        ScaleUp(0.0, p.entry, t.closed);
        ScaleUp(0.0, costBps, p.entry * t.closed);
      }
    }
  }

  /** From a balanced start, and with no capital overwritten from the broker, sizing and risk
      always see the full equity. */
  lemma {:induction false} FullEquityBasis(st: PortfolioState, evs: seq<Event>, costBps: real)
    requires 0.0 <= Gap(st) && 0.0 <= costBps && NonNegativeEntries(st.positions) && PaidFills(evs)
    ensures 0.0 <= Gap(Run(st, evs, costBps))
    ensures RiskEquity(Run(st, evs, costBps)) == Max(0.0, Run(st, evs, costBps).equity)
    decreases |evs|
  {
    if evs != [] {
      StepConserves(st, evs[0], costBps);
      StepKeepsEntries(st, evs[0], costBps);
      FullEquityBasis(Apply(st, evs[0], costBps), evs[1..], costBps);
    }
  }

  // ---- splitting an exit ----

  function Sum(qs: seq<real>): real { if qs == [] then 0.0 else qs[0] + Sum(qs[1..]) }

  function Partials(symbol: string, qs: seq<real>, price: real): seq<Event> {
    seq(|qs|, i requires 0 <= i < |qs| => Exit(symbol, Some(qs[i]), price))
  }

  lemma {:induction false} SumPositive(qs: seq<real>)
    requires qs != [] && forall i :: 0 <= i < |qs| ==> 0.0 < qs[i]
    ensures qs[0] <= Sum(qs) && (|qs| > 1 ==> qs[0] < Sum(qs))
  {
    if |qs| > 1 { SumPositive(qs[1..]); }
  }

  /** Equal in everything except the loss streak, which counts each booking separately. */
  predicate SameMoney(a: PortfolioState, b: PortfolioState) {
    a.(consecutiveLosses := 0) == b.(consecutiveLosses := 0)
  }

  lemma SplitReduce(ps: seq<PositionView>, i: nat, a: real, b: real)
    requires i < |ps| && 0.0 < a && 0.0 < b && a + b <= ps[i].qty
    ensures Reduce(Reduce(ps, i, a), i, b) == Reduce(ps, i, a + b)
  {
    var mid := ReducedPosition(ps[i], a);
    assert Reduce(ps, i, a) == ps[i := mid];
    if a + b < ps[i].qty {
      SplitPosition(ps[i], a, b);
      assert ps[i := mid][i := ReducedPosition(mid, b)] == ps[i := ReducedPosition(mid, b)];
    } else {
      assert ps[i := mid][..i] == ps[..i] && ps[i := mid][i + 1..] == ps[i + 1..];
    }
  }

  lemma SplitPosition(p: PositionView, a: real, b: real)
    requires 0.0 < a && 0.0 < b && a + b < p.qty
    ensures ReducedPosition(ReducedPosition(p, a), b) == ReducedPosition(p, a + b)
  {
    Telescope(p.riskPct, p.qty - a - b, p.qty - a, p.qty);
    assert p.qty - a - b == p.qty - (a + b);
  }

  lemma Telescope(r: real, x: real, y: real, z: real)
    requires y != 0.0 && z != 0.0
    ensures r * (y / z) * (x / y) == r * (x / z)
  {
    assert y / z * (x / y) == x / z;
  }

  /** The money side of an exit, apart from the position list. */
  function Settle(st: PortfolioState, cashIn: real, pnl: real): PortfolioState {
    var equity := st.equity + pnl;
    st.(cash := st.cash + cashIn, dailyPnl := st.dailyPnl + pnl, weeklyPnl := st.weeklyPnl + pnl,
        monthlyPnl := st.monthlyPnl + pnl, equity := equity,
        peakEquity := if st.peakEquity < equity then equity else st.peakEquity,
        consecutiveLosses := if pnl < 0.0 then st.consecutiveLosses + 1 else 0)
  }

  lemma SettleTwice(st: PortfolioState, c1: real, p1: real, c2: real, p2: real)
    requires st.equity <= st.peakEquity
    requires (0.0 <= p1 && 0.0 <= p2) || (p1 < 0.0 && p2 < 0.0)
    ensures SameMoney(Settle(Settle(st, c1, p1), c2, p2), Settle(st, c1 + c2, p1 + p2))
  {
  }

  /** An exit is its money side plus the reduced position list. */
  lemma ExitSettles(st: PortfolioState, i: nat, closed: real, price: real, pnl: real)
    requires i < |st.positions| && 0.0 < closed <= st.positions[i].qty
    ensures AfterExit(st, i, closed, price, pnl)
         == Settle(st, closed * price, pnl).(positions := Reduce(st.positions, i, closed))
  {
  }

  lemma SplitTwo(st: PortfolioState, i: nat, a: real, b: real, price: real, costBps: real)
    requires st.equity <= st.peakEquity && 0.0 < a && 0.0 < b
    requires i < |st.positions| && a + b <= st.positions[i].qty
    ensures var entry := st.positions[i].entry;
            var one := AfterExit(st, i, a, price, BookedPnl(entry, a, price, costBps));
            && i < |one.positions| && b <= one.positions[i].qty
            && SameMoney(AfterExit(one, i, b, price, BookedPnl(entry, b, price, costBps)),
                         AfterExit(st, i, a + b, price, BookedPnl(entry, a + b, price, costBps)))
  {
    hide BookedPnl, Reduce, Settle;
    var p := st.positions[i];
    var pa, pb := BookedPnl(p.entry, a, price, costBps), BookedPnl(p.entry, b, price, costBps);
    OneReduce(st.positions, i, a);
    var one := AfterExit(st, i, a, price, pa);
    SplitReduce(st.positions, i, a, b);
    SplitPnl(p.entry, a, b, price, costBps);
    ExitSettles(st, i, a, price, pa);
    ExitSettles(one, i, b, price, pb);
    ExitSettles(st, i, a + b, price, pa + pb);
    SettleTwice(st, a * price, pa, b * price, pb);
    SettleIgnoresPositions(Settle(st, a * price, pa), Reduce(st.positions, i, a), b * price, pb);
  }

  lemma SettleIgnoresPositions(st: PortfolioState, ps: seq<PositionView>, cashIn: real, pnl: real)
    ensures Settle(st.(positions := ps), cashIn, pnl) == Settle(st, cashIn, pnl).(positions := ps)
  {
  }

  lemma OneReduce(ps: seq<PositionView>, i: nat, a: real)
    requires i < |ps| && 0.0 < a < ps[i].qty
    ensures Reduce(ps, i, a) == ps[i := ReducedPosition(ps[i], a)]
    ensures ReducedPosition(ps[i], a).qty == ps[i].qty - a
  {
  }

  lemma SplitPnl(entry: real, a: real, b: real, price: real, costBps: real)
    requires 0.0 < a && 0.0 < b
    ensures var pa, pb := BookedPnl(entry, a, price, costBps), BookedPnl(entry, b, price, costBps);
            && BookedPnl(entry, a + b, price, costBps) == pa + pb
            && ((0.0 <= pa && 0.0 <= pb) || (pa < 0.0 && pb < 0.0))
    ensures (a + b) * price == a * price + b * price
  {
    var unit := UnitPnl(entry, price, costBps);
    BookedPnlPerShare(entry, a, price, costBps);
    BookedPnlPerShare(entry, b, price, costBps);
    BookedPnlPerShare(entry, a + b, price, costBps);
    SameSign(unit, a, b);
  }

  lemma SameSign(unit: real, a: real, b: real)
    requires 0.0 < a && 0.0 < b
    ensures (0.0 <= unit * a && 0.0 <= unit * b) || (unit * a < 0.0 && unit * b < 0.0)
  {
    if 0.0 <= unit { ScaleUp(0.0, unit, a); ScaleUp(0.0, unit, b); }
    else { assert 0.0 < -unit * a; assert 0.0 < -unit * b; }
  }

  lemma KeepsIndex(ps: seq<PositionView>, i: nat, p: PositionView, sym: string)
    requires i == IndexOf(ps, sym) && i < |ps| && p.symbol == ps[i].symbol
    ensures IndexOf(ps[i := p], sym) == i
  {
    var qs := ps[i := p];
    assert Upper(qs[i].symbol) == sym;
    assert IndexOf(qs, sym) <= i;
    assert forall j :: 0 <= j < i ==> qs[j] == ps[j];
  }

  /** Splitting one exit into partial exits at one price changes neither cash, equity, the peak,
      the period P&L nor the remaining positions. */
  lemma {:induction false} SplitExit(st: PortfolioState, symbol: string, qs: seq<real>, price: real, costBps: real)
    requires st.equity <= st.peakEquity
    requires qs != [] && forall k :: 0 <= k < |qs| ==> 0.0 < qs[k]
    requires var i := IndexOf(st.positions, Upper(symbol)); i < |st.positions| && Sum(qs) <= st.positions[i].qty
    ensures SameMoney(Run(st, Partials(symbol, qs, price), costBps),
                      Apply(st, Exit(symbol, Some(Sum(qs)), price), costBps))
    decreases |qs|
  {
    hide Upper, BookedPnl;
    var evs := Partials(symbol, qs, price);
    SumPositive(qs);
    if |qs| == 1 {
      OnePartial(st, symbol, qs, price, costBps);
    } else {
      hide SameMoney, Run;
      var i := IndexOf(st.positions, Upper(symbol));
      var entry := st.positions[i].entry;
      var one := AfterExit(st, i, qs[0], price, BookedPnl(entry, qs[0], price, costBps));
      SumPositive(qs[1..]);
      SplitTwo(st, i, qs[0], Sum(qs[1..]), price, costBps);
      OneReduce(st.positions, i, qs[0]);
      KeepsIndex(st.positions, i, ReducedPosition(st.positions[i], qs[0]), Upper(symbol));
      FirstPartial(st, symbol, qs, price, costBps);
      SplitExit(one, symbol, qs[1..], price, costBps);
      SameMoneyTrans(Run(st, evs, costBps), Apply(one, Exit(symbol, Some(Sum(qs[1..])), price), costBps),
                     Apply(st, Exit(symbol, Some(Sum(qs)), price), costBps));
    }
  }

  lemma SameMoneyTrans(a: PortfolioState, b: PortfolioState, c: PortfolioState)
    requires SameMoney(a, b) && SameMoney(b, c)
    ensures SameMoney(a, c)
  {
  }

  lemma OnePartial(st: PortfolioState, symbol: string, qs: seq<real>, price: real, costBps: real)
    requires |qs| == 1
    ensures Run(st, Partials(symbol, qs, price), costBps) == Apply(st, Exit(symbol, Some(Sum(qs)), price), costBps)
  {
    hide Apply;
    var evs := Partials(symbol, qs, price);
    assert evs == [Exit(symbol, Some(qs[0]), price)];
    assert qs[1..] == [] && evs[1..] == [];
  }

  lemma FirstPartial(st: PortfolioState, symbol: string, qs: seq<real>, price: real, costBps: real)
    requires qs != []
    ensures Run(st, Partials(symbol, qs, price), costBps)
         == Run(Apply(st, Exit(symbol, Some(qs[0]), price), costBps), Partials(symbol, qs[1..], price), costBps)
  {
    hide Apply;
    assert Partials(symbol, qs, price)[1..] == Partials(symbol, qs[1..], price);
  }

  /** Equity never stands above its recorded peak, over any run. */
  lemma {:induction false} PeakCoversEquity(st: PortfolioState, evs: seq<Event>, costBps: real)
    requires st.equity <= st.peakEquity
    ensures Run(st, evs, costBps).equity <= Run(st, evs, costBps).peakEquity
    ensures st.peakEquity <= Run(st, evs, costBps).peakEquity
    decreases |evs|
  {
    if evs != [] {
      PeakCoversEquity(Apply(st, evs[0], costBps), evs[1..], costBps);
    }
  }
}
