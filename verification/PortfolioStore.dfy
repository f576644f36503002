/** The portfolio manager and its database mirror: the system-state row, the position rows, and
    the repository calls that keep them in step with the ledger. */
module PortfolioStore {
  import opened Common
  import opened Ledger

  datatype PositionRow = PositionRow(
    symbol: string,
    qty: real,
    entryPrice: real,
    stopLoss: real,
    takeProfit: real,
    strategy: string,
    confidence: real,
    riskPct: real,
    brokerOrderId: string,
    stopOrderId: string,
    isOpen: bool,
    pnl: real,
    exitReason: string
  )

  datatype SystemRow = SystemRow(
    equity: real,
    cash: real,
    dailyPnl: real,
    weeklyPnl: real,
    monthlyPnl: real,
    peakEquity: real,
    consecutiveLosses: int,
    emergencyHalt: bool,
    circuitBreaker: bool,
    blackSwanMode: bool
  )

  /** The singleton row, and the position table with a row's index as its primary key. */
  datatype Tables = Tables(system: Option<SystemRow>, rows: seq<PositionRow>)

  // ---- what each repository call writes ----

  /** The singleton row as flushed; a zero peak is stored as the current equity. */
  function FlushState(st: PortfolioState): SystemRow {
    SystemRow(st.equity, st.cash, st.dailyPnl, st.weeklyPnl, st.monthlyPnl,
              if st.peakEquity == 0.0 then st.equity else st.peakEquity,
              st.consecutiveLosses, st.emergencyHalt, st.circuitBreaker, st.blackSwanMode)
  }

  function SyncRow(rows: seq<PositionRow>, p: PositionView): (r: seq<PositionRow>)
    ensures |r| == |rows|
  {
    if p.dbId.Some? && p.dbId.value < |rows| && rows[p.dbId.value].isOpen
    then rows[p.dbId.value := rows[p.dbId.value].(qty := p.qty, stopOrderId := p.stopOrderId, riskPct := p.riskPct)]
    else rows
  }

  function SyncRows(rows: seq<PositionRow>, ps: seq<PositionView>): (r: seq<PositionRow>)
    ensures |r| == |rows|
  {
    if ps == [] then rows else SyncRow(SyncRows(rows, ps[..|ps| - 1]), ps[|ps| - 1])
  }

  function Saved(t: Tables, st: PortfolioState): Tables {
    Tables(Some(FlushState(st)), SyncRows(t.rows, st.positions))
  }

  function Refreshed(system: Option<SystemRow>, st: PortfolioState): Option<SystemRow> {
    if system.Some? then Some(FlushState(st)) else None
  }

  function RowOf(p: PositionView, confidence: real): PositionRow {
    PositionRow(p.symbol, p.qty, p.entry, p.stopLoss, p.takeProfit, p.strategy, confidence, p.riskPct,
                p.brokerOrderId, p.stopOrderId, true, 0.0, "")
  }

  /** How `add_position` may end: stored; failed before the new row got its key; or at the commit, with
      the key handed out and already set in memory. */
  datatype Insert = Stored | FailedEarly | FailedAtCommit

  /** The place of a key whose transaction rolled back: no row, and never handed out again. */
  const VOID_ROW := PositionRow("", 0.0, 0.0, 0.0, 0.0, "", 0.0, 0.0, "", "", false, 0.0, "")

  /** `st` already holds the new position, with its key, as its last element. */
  function Added(t: Tables, st: PortfolioState, pos: PositionView, confidence: real): Tables {
    Tables(Refreshed(t.system, st), SyncRows(t.rows + [RowOf(pos, confidence)], st.positions))
  }

  predicate OpenFor(rows: seq<PositionRow>, sym: string, i: nat) {
    i < |rows| && rows[i].isOpen && rows[i].symbol == sym
  }

  /** `scalar_one_or_none`: the only open row of the symbol. No row and several rows both fail. */
  function OnlyOpen(rows: seq<PositionRow>, sym: string): Option<nat> {
    if exists i :: 0 <= i < |rows| && OpenFor(rows, sym, i)
                   && forall j :: 0 <= j < |rows| && OpenFor(rows, sym, j) ==> i == j
    then
      var i :| 0 <= i < |rows| && OpenFor(rows, sym, i)
               && forall j :: 0 <= j < |rows| && OpenFor(rows, sym, j) ==> i == j;
      Some(i)
    else None
  }

  /** The closing write: `None` when the repository reports failure. */
  function Closed(t: Tables, st: PortfolioState, sym: string, reason: string, pnl: real): Option<Tables> {
    var found := OnlyOpen(t.rows, sym);
    if found.None? then None
    else
      var row, i := t.rows[found.value], IndexOf(st.positions, sym);
      var kept := if i < |st.positions|
                  then row.(isOpen := true, qty := st.positions[i].qty, riskPct := st.positions[i].riskPct,
                            stopOrderId := st.positions[i].stopOrderId)
                  else row.(isOpen := false);
      Some(Tables(Refreshed(t.system, st), t.rows[found.value := kept.(exitReason := reason, pnl := row.pnl + pnl)]))
  }

  // ---- reading the tables back ----

  function OpenIds(rows: seq<PositionRow>): seq<nat> {
    if rows == [] then []
    else OpenIds(rows[..|rows| - 1]) + (if rows[|rows| - 1].isOpen then [|rows| - 1] else [])
  }

  function ViewOf(row: PositionRow, id: nat): PositionView {
    PositionView(row.symbol, row.qty, row.entryPrice, row.stopLoss, row.takeProfit, row.strategy, 0.0,
                 row.riskPct, row.brokerOrderId, row.stopOrderId, Some(id))
  }

  lemma {:induction false} OpenIdsAreOpen(rows: seq<PositionRow>)
    ensures forall k :: 0 <= k < |OpenIds(rows)| ==> OpenIds(rows)[k] < |rows| && rows[OpenIds(rows)[k]].isOpen
    ensures forall j, k :: 0 <= j < k < |OpenIds(rows)| ==> OpenIds(rows)[j] < OpenIds(rows)[k]
    ensures forall i :: 0 <= i < |rows| && rows[i].isOpen ==> i in OpenIds(rows)
  {
    if rows != [] {
      var n := |rows| - 1;
      OpenIdsAreOpen(rows[..n]);
      var before := OpenIds(rows[..n]);
      assert forall k :: 0 <= k < |before| ==> before[k] < n;
      forall i | 0 <= i < |rows| && rows[i].isOpen
        ensures i in OpenIds(rows)
      {
        if i < n { assert rows[..n][i].isOpen; }
      }
    }
  }

  /** `load` into a fresh state; the singleton row must exist. */
  function Loaded(t: Tables, base: PortfolioState): PortfolioState
    requires t.system.Some?
  {
    var row := t.system.value;
    var ids := OpenIds(t.rows);
    OpenIdsAreOpen(t.rows);
    base.(equity := row.equity, cash := row.cash, dailyPnl := row.dailyPnl, weeklyPnl := row.weeklyPnl,
           monthlyPnl := row.monthlyPnl, peakEquity := row.peakEquity, consecutiveLosses := row.consecutiveLosses,
           emergencyHalt := row.emergencyHalt, circuitBreaker := row.circuitBreaker, blackSwanMode := row.blackSwanMode,
           positions := seq(|ids|, k requires 0 <= k < |ids| => ViewOf(t.rows[ids[k]], ids[k])))
  }

  // ---- the repository and the manager ----

  /** Each call is one transaction; `fault` says that it aborts and leaves the tables alone. */
  class PortfolioRepository {
    var tables: Tables

    constructor ()
      ensures tables == Tables(None, [])
    {
      tables := Tables(None, []);
    }

    method Load(st: PortfolioState, fault: bool) returns (ok: bool, loaded: PortfolioState)
      modifies this
      ensures ok == !fault
      ensures fault ==> loaded == st && tables == old(tables)
      ensures !fault && old(tables.system.None?) ==>
        loaded == st && tables == old(tables).(system := Some(FlushState(st)))
      ensures !fault && old(tables.system.Some?) ==> tables == old(tables) && loaded == Loaded(tables, st)
    {
      if fault { return false, st; }
      if tables.system.None? {
        tables := tables.(system := Some(FlushState(st)));
        return true, st;
      }
      return true, Loaded(tables, st);
    }

    method Save(st: PortfolioState, fault: bool) returns (ok: bool)
      modifies this
      ensures ok == !fault
      ensures tables == if ok then Saved(old(tables), st) else old(tables)
    {
      if fault { return false; }
      var rows := SyncLoop(tables.rows, st.positions);
      tables := Tables(Some(FlushState(st)), rows);
      return true;
    }

    /** The loop over the ledger's positions that both `save` and `add_position` run. */
    static method SyncLoop(start: seq<PositionRow>, ps: seq<PositionView>) returns (rows: seq<PositionRow>)
      ensures rows == SyncRows(start, ps)
    {
      rows := start;
      for i := 0 to |ps|
        invariant rows == SyncRows(start, ps[..i])
      {
        rows := SyncRow(rows, ps[i]);
        assert ps[..i + 1][..i] == ps[..i];
      }
      assert ps[..|ps|] == ps;
    }

    /** `st` holds `pos` last; it comes back carrying its new key, also when the commit fails after the
        key was handed out. A failure leaves every row as it was. */
    method AddPosition(st: PortfolioState, pos: PositionView, confidence: real, insert: Insert)
      returns (ok: bool, keyed: PortfolioState)
      requires st.positions != [] && st.positions[|st.positions| - 1] == pos
      modifies this
      ensures ok == insert.Stored?
      ensures keyed == if insert.FailedEarly? then st else Keyed(st, |old(tables).rows|)
      ensures insert.FailedEarly? ==> tables == old(tables)
      ensures insert.FailedAtCommit? ==> tables == old(tables).(rows := old(tables).rows + [VOID_ROW])
                                         && OpenIds(tables.rows) == OpenIds(old(tables).rows)
      ensures ok ==> tables == Added(old(tables), keyed, pos, confidence)
    {
      if insert.FailedEarly? { return false, st; }
      keyed := Keyed(st, |tables.rows|);
      if insert.FailedAtCommit? {
        assert (tables.rows + [VOID_ROW])[..|tables.rows|] == tables.rows;
        tables := tables.(rows := tables.rows + [VOID_ROW]);
        return false, keyed;
      }
      var rows := SyncLoop(tables.rows + [RowOf(pos, confidence)], keyed.positions);
      tables := Tables(Refreshed(tables.system, keyed), rows);
      return true, keyed;
    }

    method ClosePosition(st: PortfolioState, sym: string, reason: string, pnl: real, fault: bool) returns (ok: bool)
      modifies this
      ensures ok <==> !fault && Closed(old(tables), st, sym, reason, pnl).Some?
      ensures tables == if ok then Closed(old(tables), st, sym, reason, pnl).value else old(tables)
    {
      if fault { return false; }
      var written := Closed(tables, st, sym, reason, pnl);
      if written.None? { return false; }
      tables := written.value;
      return true;
    }
  }

  function Keyed(st: PortfolioState, id: nat): PortfolioState
    requires st.positions != []
  {
    var last := |st.positions| - 1;
    st.(positions := st.positions[last := st.positions[last].(dbId := Some(id))])
  }

  function Halted(st: PortfolioState): PortfolioState { st.(emergencyHalt := true, circuitBreaker := true) }

  datatype ExitReply = NotHeld | QuantityRefused | Booked(ok: bool)

  class PortfolioManager {
    const repo: PortfolioRepository
    var state: PortfolioState
    var persistenceOk: bool

    constructor (repo: PortfolioRepository, capital: real)
      ensures this.repo == repo && !persistenceOk
      ensures state == PortfolioState(capital, capital, [], 0.0, 0.0, 0.0, capital, 0.0, 0, false, false, false)
    {
      this.repo := repo;
      state := PortfolioState(capital, capital, [], 0.0, 0.0, 0.0, capital, 0.0, 0, false, false, false);
      persistenceOk := false;
    }

    predicate IsTradingHalted()
      reads this
    {
      state.emergencyHalt || state.circuitBreaker || state.blackSwanMode
    }

    method EmergencyShutdown()
      modifies this`state
      ensures state == Halted(old(state)) && IsTradingHalted()
    {
      state := Halted(state);
    }

    method ResumeTrading()
      modifies this`state
      ensures state == old(state).(emergencyHalt := false, circuitBreaker := false, blackSwanMode := false)
      ensures !IsTradingHalted()
    {
      state := state.(emergencyHalt := false, circuitBreaker := false, blackSwanMode := false);
    }

    method RecordFill(pos: PositionView, confidence: real, insert: Insert, saveFault: bool) returns (ok: bool)
      modifies this, repo
      ensures (state, repo.tables, ok) == FillStep(old(state), old(repo.tables), pos, confidence, insert, saveFault)
      ensures persistenceOk == ok && (!ok ==> IsTradingHalted())
    {
      var cost := pos.qty * pos.entry;
      state := state.(cash := Max(0.0, state.cash - cost));
      state := state.(positions := state.positions + [pos]);
      assert state == AfterFill(old(state), pos);
      var added, keyed := repo.AddPosition(state, pos, confidence, insert);
      state := keyed;
      persistenceOk := false;
      if added { persistenceOk := repo.Save(state, saveFault); }
      if !persistenceOk { EmergencyShutdown(); }
      return added && persistenceOk;
    }

    /** The in-memory half of `record_exit`: cash, P&L, peak, loss streak and the position list. */
    method BookExit(i: nat, closed: real, price: real, pnl: real)
      requires i < |state.positions| && 0.0 < closed <= state.positions[i].qty
      modifies this`state
      ensures state == AfterExit(old(state), i, closed, price, pnl)
    {
      hide ReducedPosition;
      var pos := state.positions[i];
      var proceeds := closed * price;
      state := state.(cash := state.cash + proceeds);
      state := state.(dailyPnl := state.dailyPnl + pnl, weeklyPnl := state.weeklyPnl + pnl,
                      monthlyPnl := state.monthlyPnl + pnl, equity := state.equity + pnl);
      if state.equity > state.peakEquity { state := state.(peakEquity := state.equity); }
      state := state.(consecutiveLosses := if pnl < 0.0 then state.consecutiveLosses + 1 else 0);
      ReducedQty(pos, closed);
      pos := ReducedPosition(pos, closed);
      if pos.qty <= 0.0 {
        state := state.(positions := state.positions[..i] + state.positions[i + 1..]);
      } else {
        state := state.(positions := state.positions[i := pos]);
      }
    }

    method RecordExit(symbol: string, price: real, reason: string, pnl: real, qty: Option<real>,
                      closeFault: bool, saveFault: bool) returns (reply: ExitReply)
      modifies this, repo
      ensures (state, repo.tables, reply)
           == ExitStep(old(state), old(repo.tables), symbol, price, reason, pnl, qty, closeFault, saveFault)
      ensures reply.Booked? ==> persistenceOk == reply.ok && (!reply.ok ==> IsTradingHalted())
    {
      hide AfterExit, Upper, Closed, Saved;
      var sym := Upper(symbol);
      var i := IndexOf(state.positions, sym);
      if i == |state.positions| { return NotHeld; }
      var closed := if qty.None? then state.positions[i].qty else qty.value;
      if !(0.0 < closed <= state.positions[i].qty) { return QuantityRefused; }
      BookExit(i, closed, price, pnl);
      var wrote := repo.ClosePosition(state, sym, reason, pnl, closeFault);
      persistenceOk := false;
      if wrote { persistenceOk := repo.Save(state, saveFault); }
      if !persistenceOk { EmergencyShutdown(); }
      return Booked(wrote && persistenceOk);
    }
  }

  /** `record_fill` as a step on the ledger and the tables. */
  function FillStep(st: PortfolioState, t: Tables, pos: PositionView, confidence: real, insert: Insert, saveFault: bool)
    : (PortfolioState, Tables, bool)
  {
    var filled := AfterFill(st, pos);
    if insert.FailedEarly? then (Halted(filled), t, false)
    else if insert.FailedAtCommit? then (Halted(Keyed(filled, |t.rows|)), t.(rows := t.rows + [VOID_ROW]), false)
    else
      var keyed := Keyed(filled, |t.rows|);
      var added := Added(t, keyed, pos, confidence);
      if saveFault then (Halted(keyed), added, false) else (keyed, Saved(added, keyed), true)
  }

  /** `record_exit` as a step on the ledger and the tables. */
  function ExitStep(st: PortfolioState, t: Tables, symbol: string, price: real, reason: string, pnl: real,
                    qty: Option<real>, closeFault: bool, saveFault: bool): (PortfolioState, Tables, ExitReply)
  {
    var target := Resolve(st, symbol, qty);
    match target
    case NoPosition => (st, t, NotHeld)
    case BadQuantity => (st, t, QuantityRefused)
    case Target(i, closed) =>
      var booked := AfterExit(st, i, closed, price, pnl);
      var written := Closed(t, booked, Upper(symbol), reason, pnl);
      if closeFault || written.None? then (Halted(booked), t, Booked(false))
      else if saveFault then (Halted(booked), written.value, Booked(false))
      else (booked, Saved(written.value, booked), Booked(true))
  }
}
