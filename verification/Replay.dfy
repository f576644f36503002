/** Replaying the compliance log: rebuilding the portfolio from event snapshots and comparing it
    with a reference. */
module Replay {
  import opened Common
  import opened Ledger

  datatype SnapPosition = SnapPosition(symbol: string, qty: real, entry: real, stopLoss: real,
                                       takeProfit: real, strategy: string)

  /** A non-empty dictionary read as a portfolio; absent keys are `None`, absent positions empty. */
  datatype PortfolioSnap = PortfolioSnap(equity: Option<real>, cash: Option<real>, dailyPnl: Option<real>,
                                         positions: seq<SnapPosition>)

  /** An event's snapshot: its system state, its "portfolio" entry when non-empty, and the whole
      dictionary read as a portfolio when that is non-empty. */
  datatype Snapshot = Snapshot(systemState: string, portfolio: Option<PortfolioSnap>, whole: Option<PortfolioSnap>)

  datatype Kind = KillSwitchTriggered | PortfolioUpdate | OrderFilled | OrderExited | ControlDecision | OtherKind

  datatype LogEvent = LogEvent(kind: Kind, symbol: string, denied: bool, snap: Snapshot)

  datatype ReplayState = ReplayState(equity: real, cash: real, dailyPnl: real,
                                     positions: map<string, SnapPosition>, systemState: string, blocked: nat)

  function Initial(capital: real): ReplayState {
    ReplayState(capital, capital, 0.0, map[], "PAPER_TRADING", 0)
  }

  function Or<T>(o: Option<T>, default: T): T { if o.Some? then o.value else default }

  /** Positions by upper-cased symbol; nameless entries are dropped, later entries win. */
  function ByUpperSymbol(ps: seq<SnapPosition>): map<string, SnapPosition> {
    if ps == [] then map[]
    else
      var rest, p := ByUpperSymbol(ps[..|ps| - 1]), ps[|ps| - 1];
      if p.symbol == "" then rest else rest[Upper(p.symbol) := p]
  }

  function WithSnapshot(s: ReplayState, pf: Option<PortfolioSnap>): ReplayState {
    if pf.None? then s
    else s.(equity := Or(pf.value.equity, s.equity), cash := Or(pf.value.cash, s.cash),
            dailyPnl := Or(pf.value.dailyPnl, s.dailyPnl), positions := ByUpperSymbol(pf.value.positions))
  }

  function WithExit(s: ReplayState, sym: string, pf: Option<PortfolioSnap>): ReplayState {
    var out := s.(positions := s.positions - {sym});
    if pf.None? then out
    else out.(equity := Or(pf.value.equity, s.equity), cash := Or(pf.value.cash, s.cash),
              dailyPnl := Or(pf.value.dailyPnl, s.dailyPnl))
  }

  function Applied(s: ReplayState, ev: LogEvent): ReplayState {
    var named := if ev.snap.systemState != "" then s.(systemState := ev.snap.systemState) else s;
    match ev.kind
    case KillSwitchTriggered => named.(systemState := "KILL_SWITCHED")
    case PortfolioUpdate => WithSnapshot(named, if ev.snap.portfolio.Some? then ev.snap.portfolio else ev.snap.whole)
    case OrderFilled => WithSnapshot(named, if ev.snap.portfolio.Some? then ev.snap.portfolio else ev.snap.whole)
    case OrderExited => WithExit(named, Upper(ev.symbol), ev.snap.portfolio)
    case ControlDecision => if ev.denied then named.(blocked := named.blocked + 1) else named
    case OtherKind => named
  }

  function Replayed(s: ReplayState, log: seq<LogEvent>): ReplayState {
    if log == [] then s else Applied(Replayed(s, log[..|log| - 1]), log[|log| - 1])
  }

  method ReplayLog(log: seq<LogEvent>, capital: real) returns (state: ReplayState)
    ensures state == Replayed(Initial(capital), log)
  {
    state := Initial(capital);
    for i := 0 to |log|
      invariant state == Replayed(Initial(capital), log[..i])
    {
      assert log[..i + 1][..i] == log[..i];
      var ev, snap := log[i], log[i].snap;
      if snap.systemState != "" { state := state.(systemState := snap.systemState); }
      if ev.kind.KillSwitchTriggered? { state := state.(systemState := "KILL_SWITCHED"); }
      if ev.kind.PortfolioUpdate? || ev.kind.OrderFilled? {
        state := WithSnapshot(state, if snap.portfolio.Some? then snap.portfolio else snap.whole);
      }
      if ev.kind.OrderExited? { state := WithExit(state, Upper(ev.symbol), snap.portfolio); }
      if ev.kind.ControlDecision? && ev.denied { state := state.(blocked := state.blocked + 1); }
    }
    assert log[..|log|] == log;
  }

  // ---- comparing ----

  datatype Field = EquityField | CashField | DailyPnlField | OpenPositionsField

  predicate Differs(expected: Option<real>, actual: real) {
    expected.Some? && 0.01 < Abs(expected.value - actual)
  }

  method CompareReference(s: ReplayState, pf: PortfolioSnap) returns (mismatches: seq<Field>)
    ensures mismatches == [] <==> Matches(s, pf)
    ensures EquityField in mismatches <==> Differs(pf.equity, s.equity)
    ensures CashField in mismatches <==> Differs(pf.cash, s.cash)
    ensures DailyPnlField in mismatches <==> Differs(pf.dailyPnl, s.dailyPnl)
    ensures OpenPositionsField in mismatches <==> |pf.positions| != |s.positions|
  {
    mismatches := [];
    if Differs(pf.equity, s.equity) { mismatches := mismatches + [EquityField]; }
    if Differs(pf.cash, s.cash) { mismatches := mismatches + [CashField]; }
    if Differs(pf.dailyPnl, s.dailyPnl) { mismatches := mismatches + [DailyPnlField]; }
    if |pf.positions| != |s.positions| { mismatches := mismatches + [OpenPositionsField]; }
  }

  predicate Matches(s: ReplayState, pf: PortfolioSnap) {
    && !Differs(pf.equity, s.equity) && !Differs(pf.cash, s.cash) && !Differs(pf.dailyPnl, s.dailyPnl)
    && |pf.positions| == |s.positions|
  }

  // ---- any suffix with a full snapshot ----

  /** Replay states that agree on the portfolio. */
  predicate SamePortfolio(a: ReplayState, b: ReplayState) {
    a.equity == b.equity && a.cash == b.cash && a.dailyPnl == b.dailyPnl && a.positions == b.positions
  }

  /** An event that rewrites the whole portfolio. */
  predicate Resets(ev: LogEvent) {
    (ev.kind.PortfolioUpdate? || ev.kind.OrderFilled?)
    && var pf := if ev.snap.portfolio.Some? then ev.snap.portfolio else ev.snap.whole;
       pf.Some? && pf.value.equity.Some? && pf.value.cash.Some? && pf.value.dailyPnl.Some?
  }

  lemma AppliedAgrees(a: ReplayState, b: ReplayState, ev: LogEvent)
    requires SamePortfolio(a, b) || Resets(ev)
    ensures SamePortfolio(Applied(a, ev), Applied(b, ev))
  {
  }

  /** Once a log contains a full snapshot, the portfolio it replays to does not depend on the
      state it started from. */
  lemma {:induction false} SnapshotForgetsPast(a: ReplayState, b: ReplayState, log: seq<LogEvent>, k: nat)
    requires k < |log| && Resets(log[k])
    ensures SamePortfolio(Replayed(a, log), Replayed(b, log))
  {
    hide Resets, SamePortfolio;
    var n := |log| - 1;
    if k < n {
      SnapshotForgetsPast(a, b, log[..n], k);
    }
    AppliedAgrees(Replayed(a, log[..n]), Replayed(b, log[..n]), log[n]);
  }

  lemma {:induction false} ReplayedConcat(s: ReplayState, a: seq<LogEvent>, b: seq<LogEvent>)
    ensures Replayed(s, a + b) == Replayed(Replayed(s, a), b)
  {
    if b == [] {
      assert a + b == a;
    } else {
      assert (a + b)[..|a + b| - 1] == a + b[..|b| - 1];
      ReplayedConcat(s, a, b[..|b| - 1]);
    }
  }

  /** Any suffix of a log that still contains a full portfolio snapshot reconstructs the same
      portfolio as the whole log, from any initial capital. */
  lemma SuffixReconstructs(before: seq<LogEvent>, suffix: seq<LogEvent>, k: nat, c1: real, c2: real)
    requires k < |suffix| && Resets(suffix[k])
    ensures SamePortfolio(Replayed(Initial(c1), before + suffix), Replayed(Initial(c2), suffix))
  {
    ReplayedConcat(Initial(c1), before, suffix);
    SnapshotForgetsPast(Replayed(Initial(c1), before), Initial(c2), suffix, k);
  }

  // ---- the live run and its log ----

  function SnapPositions(ps: seq<PositionView>): seq<SnapPosition> {
    seq(|ps|, i requires 0 <= i < |ps| =>
      SnapPosition(ps[i].symbol, ps[i].qty, ps[i].entry, ps[i].stopLoss, ps[i].takeProfit, ps[i].strategy))
  }

  /** The recorder's snapshot: money rounded to two decimals, positions as they are. */
  function SnapOf(st: PortfolioState): PortfolioSnap {
    PortfolioSnap(Some(Round(st.equity, 100.0)), Some(Round(st.cash, 100.0)), Some(Round(st.dailyPnl, 100.0)),
                  SnapPositions(st.positions))
  }

  /** The live ledger itself as a reference, unrounded. */
  function LiveReference(st: PortfolioState): PortfolioSnap {
    PortfolioSnap(Some(st.equity), Some(st.cash), Some(st.dailyPnl), SnapPositions(st.positions))
  }

  function EventFor(kind: Kind, st: PortfolioState): LogEvent {
    LogEvent(kind, "", false, Snapshot("", Some(SnapOf(st)), Some(PortfolioSnap(None, None, None, []))))
  }

  /** Margin sync: only cash and buying power move; a negative figure is refused. */
  function Synced(st: PortfolioState, equity: real, cash: real, bp: Option<real>): PortfolioState {
    var power := if bp.Some? then bp.value else cash;
    st.(cash := Round(Max(0.0, cash), 100.0),
        buyingPower := Round(Max(0.0, Min(Min(power, cash), equity)), 100.0))
  }

  datatype Op =
    | Ledger(ev: Event)
    | Sync(equity: real, cash: real, bp: Option<real>)
    | FillNotice
    | PeriodReset(daily: bool, weekly: bool, monthly: bool)
    | Unrelated(log: LogEvent)

  /** One ledger operation of the live system, and the events it writes. */
  function Live(st: PortfolioState, op: Op, costBps: real): (PortfolioState, seq<LogEvent>) {
    match op
    case Ledger(ev) =>
      if ev.Exit? && !Resolve(st, ev.symbol, ev.qty).Target? then (st, [])
      else var next := Apply(st, ev, costBps); (next, [EventFor(PortfolioUpdate, next)])
    case Sync(equity, cash, bp) =>
      if equity < 0.0 || cash < 0.0 then (st, [])
      else var next := Synced(st, equity, cash, bp); (next, [EventFor(PortfolioUpdate, next)])
    case FillNotice => (st, [EventFor(OrderFilled, st)])
    case PeriodReset(daily, weekly, monthly) =>
      (st.(dailyPnl := if daily then 0.0 else st.dailyPnl, weeklyPnl := if weekly then 0.0 else st.weeklyPnl,
           monthlyPnl := if monthly then 0.0 else st.monthlyPnl), [])
    case Unrelated(log) =>
      (st, if log.kind.PortfolioUpdate? || log.kind.OrderFilled? || log.kind.OrderExited? then [] else [log])
  }

  function LiveRun(st: PortfolioState, ops: seq<Op>, costBps: real): (PortfolioState, seq<LogEvent>) {
    if ops == [] then (st, [])
    else
      var (mid, log) := LiveRun(st, ops[..|ops| - 1], costBps);
      var (end, more) := Live(mid, ops[|ops| - 1], costBps);
      (end, log + more)
  }

  /** The replayed portfolio is the recorder's snapshot of the ledger. */
  ghost predicate Tracks(s: ReplayState, st: PortfolioState) {
    && s.equity == Round(st.equity, 100.0) && s.cash == Round(st.cash, 100.0)
    && s.dailyPnl == Round(st.dailyPnl, 100.0)
    && s.positions == ByUpperSymbol(SnapPositions(st.positions))
  }

  /** Some operation of the run has written a portfolio event, and no P&L period, which is reset
      without one, has been reset since. */
  ghost predicate Snapped(st: PortfolioState, ops: seq<Op>, costBps: real) {
    ops != [] && !ops[|ops| - 1].PeriodReset? && (
      || Snapped(st, ops[..|ops| - 1], costBps)
      || (!ops[|ops| - 1].Unrelated?
        && Live(LiveRun(st, ops[..|ops| - 1], costBps).0, ops[|ops| - 1], costBps).1 != []))
  }

  lemma LiveStepTracks(s: ReplayState, st: PortfolioState, op: Op, costBps: real)
    ensures var (next, more) := Live(st, op, costBps);
            (Tracks(s, st) && !op.PeriodReset?) || (!op.Unrelated? && more != []) ==> Tracks(Replayed(s, more), next)
  {
    hide Apply, Synced, Resolve;
    var (next, more) := Live(st, op, costBps);
    if more != [] {
      assert more[..0] == [];
      assert Replayed(s, more) == Applied(s, more[0]);
    }
  }

  lemma {:induction false} LiveRunTracks(s: ReplayState, st: PortfolioState, ops: seq<Op>, costBps: real)
    requires Snapped(st, ops, costBps)
    ensures var (end, log) := LiveRun(st, ops, costBps);
            Tracks(Replayed(s, log), end)
  {
    hide Tracks, Live;
    var n := |ops| - 1;
    var (mid, log) := LiveRun(st, ops[..n], costBps);
    var (end, more) := Live(mid, ops[n], costBps);
    if Snapped(st, ops[..n], costBps) { LiveRunTracks(s, st, ops[..n], costBps); }
    LiveStepTracks(Replayed(s, log), mid, ops[n], costBps);
    ReplayedConcat(s, log, more);
  }

  lemma {:induction false} ByUpperSymbolSize(ps: seq<SnapPosition>)
    requires forall i :: 0 <= i < |ps| ==> ps[i].symbol != ""
    requires forall i, j :: 0 <= i < j < |ps| ==> Upper(ps[i].symbol) != Upper(ps[j].symbol)
    ensures |ByUpperSymbol(ps)| == |ps|
    ensures forall sym :: sym in ByUpperSymbol(ps) ==> exists i :: 0 <= i < |ps| && Upper(ps[i].symbol) == sym
  {
    hide Upper;
    if ps != [] {
      var n := |ps| - 1;
      ByUpperSymbolSize(ps[..n]);
      assert Upper(ps[n].symbol) !in ByUpperSymbol(ps[..n]);
    }
  }

  ghost predicate NamedAndDistinct(st: PortfolioState) {
    && DistinctSymbols(st.positions)
    && forall i :: 0 <= i < |st.positions| ==> st.positions[i].symbol != ""
  }

  lemma TrackingMatches(s: ReplayState, st: PortfolioState)
    requires Tracks(s, st) && NamedAndDistinct(st)
    ensures Matches(s, LiveReference(st)) && Matches(s, SnapOf(st))
  {
    hide Upper, Round, ByUpperSymbol;
    RoundIsClose(st.equity, 100.0);
    RoundIsClose(st.cash, 100.0);
    RoundIsClose(st.dailyPnl, 100.0);
    ByUpperSymbolSize(SnapPositions(st.positions));
  }

  /** Round trip: replaying the log of any run that wrote a portfolio event since the last P&L
      reset gives a state that the comparison accepts, against the live ledger and against its own last snapshot, when
      the ledger's symbols are distinct and non-empty. */
  lemma ReplayRoundTrip(st: PortfolioState, ops: seq<Op>, costBps: real, capital: real)
    requires Snapped(st, ops, costBps)
    ensures var (end, log) := LiveRun(st, ops, costBps);
            NamedAndDistinct(end) ==>
              && Matches(Replayed(Initial(capital), log), LiveReference(end))
              && Matches(Replayed(Initial(capital), log), SnapOf(end))
  {
    hide Tracks, Matches, NamedAndDistinct;
    LiveRunTracks(Initial(capital), st, ops, costBps);
    var (end, log) := LiveRun(st, ops, costBps);
    if NamedAndDistinct(end) { TrackingMatches(Replayed(Initial(capital), log), end); }
  }
}
