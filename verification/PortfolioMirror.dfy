/** Crash recovery: after any run of bookings that all reported success, loading the tables into
    a fresh state gives the ledger back. */
module PortfolioMirror {
  import opened Common
  import opened Ledger
  import opened PortfolioStore

  /** Open rows and ledger positions correspond in order: same key, same unchanging fields.
      Quantity, stop id and risk may differ until the next save. */
  ghost predicate Aligned(ps: seq<PositionView>, rows: seq<PositionRow>) {
    var ids := OpenIds(rows);
    && |ids| == |ps|
    && (forall k :: 0 <= k < |ids| ==> ids[k] < |rows|)
    && (forall k :: 0 <= k < |ps| ==> ps[k].dbId == Some(ids[k]) && SameFixed(rows[ids[k]], ps[k]))
  }

  ghost predicate SameFixed(row: PositionRow, p: PositionView) {
    && row.symbol == p.symbol && row.entryPrice == p.entry && row.stopLoss == p.stopLoss
    && row.takeProfit == p.takeProfit && row.strategy == p.strategy && row.brokerOrderId == p.brokerOrderId
  }

  ghost predicate SameMoving(row: PositionRow, p: PositionView) {
    row.qty == p.qty && row.stopOrderId == p.stopOrderId && row.riskPct == p.riskPct
  }

  ghost predicate CleanSymbols(ps: seq<PositionView>) {
    && DistinctSymbols(ps)
    && forall i :: 0 <= i < |ps| ==> IsUpper(ps[i].symbol)
  }

  // ---- row-level lemmas ----

  lemma {:induction false} SameOpenIds(a: seq<PositionRow>, b: seq<PositionRow>)
    requires |a| == |b| && forall i :: 0 <= i < |a| ==> a[i].isOpen == b[i].isOpen
    ensures OpenIds(a) == OpenIds(b)
  {
    if a != [] { SameOpenIds(a[..|a| - 1], b[..|b| - 1]); }
  }

  lemma {:induction false} CloseOpenId(rows: seq<PositionRow>, k: nat, row: PositionRow)
    requires k < |OpenIds(rows)| && OpenIds(rows)[k] < |rows| && !row.isOpen
    ensures OpenIds(rows[OpenIds(rows)[k] := row]) == OpenIds(rows)[..k] + OpenIds(rows)[k + 1..]
  {
    var n, ids := |rows| - 1, OpenIds(rows);
    var before, j := OpenIds(rows[..n]), ids[k];
    OpenIdsAreOpen(rows[..n]);
    if k < |before| {
      assert j == before[k] < n;
      CloseOpenId(rows[..n], k, row);
      assert rows[j := row][..n] == rows[..n][j := row];
      assert rows[j := row][n] == rows[n];
      assert ids[..k] == before[..k];
      assert ids[k + 1..] == before[k + 1..] + ids[|before|..];
    } else {
      assert ids == before + [n] && j == n;
      assert rows[n := row][..n] == rows[..n];
      assert ids[..k] + ids[k + 1..] == before;
    }
  }

  /** After a sync every position's row carries its quantity, stop and risk, and nothing else moved. */
  lemma {:induction false} SyncWrites(rows: seq<PositionRow>, ps: seq<PositionView>, all: seq<PositionView>)
    requires Aligned(all, rows) && |ps| <= |all| && ps == all[..|ps|]
    ensures var out := SyncRows(rows, ps);
            && (forall i :: 0 <= i < |rows| ==> out[i].isOpen == rows[i].isOpen)
            && (forall k :: 0 <= k < |all| ==> SameFixed(out[OpenIds(rows)[k]], all[k]))
            && (forall k :: 0 <= k < |ps| ==> SameMoving(out[OpenIds(rows)[k]], all[k]))
  {
    hide OpenIds, SyncRow;
    if ps != [] {
      var n := |ps| - 1;
      OpenIdsAreOpen(rows);
      SyncWrites(rows, ps[..n], all);
      assert ps[..n] == all[..n];
      SyncRowWrites(SyncRows(rows, ps[..n]), all[n], OpenIds(rows)[n]);
    }
  }

  lemma SyncRowWrites(rows: seq<PositionRow>, p: PositionView, i: nat)
    requires p.dbId == Some(i) && i < |rows| && rows[i].isOpen && SameFixed(rows[i], p)
    ensures SyncRow(rows, p) == rows[i := SyncRow(rows, p)[i]]
    ensures var row := SyncRow(rows, p)[i]; row.isOpen && SameFixed(row, p) && SameMoving(row, p)
  {
  }

  /** A sync of aligned tables reproduces the positions exactly. */
  lemma SyncMirrors(rows: seq<PositionRow>, ps: seq<PositionView>)
    requires Aligned(ps, rows)
    ensures var out := SyncRows(rows, ps);
            && Aligned(ps, out) && OpenIds(out) == OpenIds(rows)
            && forall k :: 0 <= k < |ps| ==> SameMoving(out[OpenIds(rows)[k]], ps[k])
  {
    assert ps[..|ps|] == ps;
    SyncWrites(rows, ps, ps);
    SameOpenIds(SyncRows(rows, ps), rows);
  }

  // ---- what a reload sees ----

  function Reloadable(st: PortfolioState): PortfolioState {
    st.(positions := seq(|st.positions|, i requires 0 <= i < |st.positions| => st.positions[i].(unrealizedPnl := 0.0)),
        buyingPower := 0.0)
  }

  ghost predicate Mirrors(st: PortfolioState, t: Tables) {
    && t.system == Some(FlushState(st))
    && Aligned(st.positions, t.rows)
    && forall k :: 0 <= k < |st.positions| ==> SameMoving(t.rows[OpenIds(t.rows)[k]], st.positions[k])
  }

  /** A mirrored ledger is what a fresh load returns, field by field, exactly when its peak is not
      the zero that the flush replaces by equity. */
  lemma ReloadIsLedger(st: PortfolioState, t: Tables, base: PortfolioState)
    requires Mirrors(st, t)
    ensures Reloadable(Loaded(t, base)) == Reloadable(st) <==> (st.peakEquity != 0.0 || st.equity == 0.0)
  {
    var ids := OpenIds(t.rows);
    OpenIdsAreOpen(t.rows);
    var got, want := Reloadable(Loaded(t, base)), Reloadable(st);
    forall k | 0 <= k < |ids|
      ensures got.positions[k] == want.positions[k]
    {
      assert SameFixed(t.rows[ids[k]], st.positions[k]);
      assert SameMoving(t.rows[ids[k]], st.positions[k]);
    }
    assert got.positions == want.positions;
  }

  lemma SaveMirrors(st: PortfolioState, t: Tables)
    requires Aligned(st.positions, t.rows)
    ensures Mirrors(st, Saved(t, st))
  {
    SyncMirrors(t.rows, st.positions);
  }

  // ---- single bookings ----

  /** A new row at the end of the table lines up with a new position at the end of the ledger. */
  lemma AppendAligned(ps: seq<PositionView>, rows: seq<PositionRow>, pos: PositionView, confidence: real)
    requires Aligned(ps, rows) && pos.dbId == Some(|rows|)
    ensures Aligned(ps + [pos], rows + [RowOf(pos, confidence)])
  {
    var grown := rows + [RowOf(pos, confidence)];
    assert grown[..|rows|] == rows;
    assert OpenIds(grown) == OpenIds(rows) + [|rows|];
    OpenIdsAreOpen(rows);
  }

  lemma FillMirrors(st: PortfolioState, t: Tables, pos: PositionView, confidence: real, insert: Insert, saveFault: bool)
    requires Aligned(st.positions, t.rows)
    ensures var (st', t', ok) := FillStep(st, t, pos, confidence, insert, saveFault);
            ok ==> Mirrors(st', t')
  {
    if insert.Stored? && !saveFault {
      var keyed := Keyed(AfterFill(st, pos), |t.rows|);
      var placed := pos.(dbId := Some(|t.rows|));
      assert keyed.positions == st.positions + [placed];
      AppendAligned(st.positions, t.rows, placed, confidence);
      SyncMirrors(t.rows + [RowOf(pos, confidence)], keyed.positions);
      SaveMirrors(keyed, Added(t, keyed, pos, confidence));
    }
  }

  /** The closing write finds exactly the row of the exited position. */
  lemma FindsRow(ps: seq<PositionView>, rows: seq<PositionRow>, i: nat)
    requires Aligned(ps, rows) && CleanSymbols(ps) && i < |ps|
    ensures OnlyOpen(rows, Upper(ps[i].symbol)) == Some(OpenIds(rows)[i])
  {
    var ids, sym := OpenIds(rows), Upper(ps[i].symbol);
    OpenIdsAreOpen(rows);
    assert SameFixed(rows[ids[i]], ps[i]);
    assert OpenFor(rows, sym, ids[i]);
    forall j | 0 <= j < |rows| && OpenFor(rows, sym, j)
      ensures j == ids[i]
    {
      var k :| 0 <= k < |ids| && ids[k] == j;
      assert SameFixed(rows[ids[k]], ps[k]);
      assert Upper(ps[k].symbol) == Upper(ps[i].symbol);
    }
  }

  lemma PartialAligned(ps: seq<PositionView>, rows: seq<PositionRow>, i: nat, p: PositionView, row: PositionRow)
    requires Aligned(ps, rows) && CleanSymbols(ps) && i < |ps|
    requires SameFixed(row, ps[i]) && row.isOpen
    requires p.symbol == ps[i].symbol && SameFixed(row, p) && p.dbId == ps[i].dbId
    ensures CleanSymbols(ps[i := p])
    ensures Aligned(ps[i := p], rows[OpenIds(rows)[i] := row])
  {
    hide Upper;
    OpenIdsAreOpen(rows);
    SameOpenIds(rows, rows[OpenIds(rows)[i] := row]);
  }

  /** One position away. */
  function Without(ps: seq<PositionView>, i: nat): seq<PositionView>
    requires i < |ps|
  {
    ps[..i] + ps[i + 1..]
  }

  lemma WithoutIsClean(ps: seq<PositionView>, i: nat)
    requires CleanSymbols(ps) && i < |ps|
    ensures CleanSymbols(Without(ps, i))
  {
    hide Upper;
    var left := Without(ps, i);
    assert forall k :: 0 <= k < |left| ==> left[k] == ps[if k < i then k else k + 1];
  }

  lemma FullAligned(ps: seq<PositionView>, rows: seq<PositionRow>, i: nat, row: PositionRow)
    requires Aligned(ps, rows) && i < |ps| && !row.isOpen
    ensures Aligned(Without(ps, i), rows[OpenIds(rows)[i] := row])
  {
    hide OpenIds, SameFixed;
    OpenIdsAreOpen(rows);
    CloseOpenId(rows, i, row);
    var ids, left := OpenIds(rows), Without(ps, i);
    var rows', ids' := rows[ids[i] := row], ids[..i] + ids[i + 1..];
    forall k | 0 <= k < |left|
      ensures left[k].dbId == Some(ids'[k]) && ids'[k] < |rows'| && SameFixed(rows'[ids'[k]], left[k])
    {
      var j := if k < i then k else k + 1;
      assert left[k] == ps[j] && ids'[k] == ids[j] && ids[j] != ids[i];
    }
  }

  lemma ExitAligned(ps: seq<PositionView>, rows: seq<PositionRow>, i: nat, closed: real, row: PositionRow)
    requires Aligned(ps, rows) && CleanSymbols(ps) && i < |ps| && 0.0 < closed <= ps[i].qty
    requires SameFixed(row, ps[i]) && (row.isOpen <==> closed < ps[i].qty)
    ensures CleanSymbols(Reduce(ps, i, closed))
    ensures Aligned(Reduce(ps, i, closed), rows[OpenIds(rows)[i] := row])
  {
    hide ReducedPosition, Upper, Aligned, CleanSymbols;
    if closed < ps[i].qty {
      ReducedKeepsFields(ps[i], closed);
      PartialAligned(ps, rows, i, ReducedPosition(ps[i], closed), row);
    } else {
      FullAligned(ps, rows, i, row);
      WithoutIsClean(ps, i);
    }
  }

  lemma ReducedKeepsFields(p: PositionView, closed: real)
    requires p.qty != 0.0
    ensures var r := ReducedPosition(p, closed);
            p.(qty := r.qty, riskPct := r.riskPct) == r
  {
  }

  /** The ledger's own lookup after the reduction: the position is still there exactly when some
      of it is left. */
  lemma LeftAfterReduce(ps: seq<PositionView>, i: nat, closed: real)
    requires CleanSymbols(ps) && i < |ps| && 0.0 < closed <= ps[i].qty
    ensures var left := Reduce(ps, i, closed);
            IndexOf(left, Upper(ps[i].symbol)) < |left| <==> closed < ps[i].qty
  {
    hide ReducedPosition, Upper;
    var sym := Upper(ps[i].symbol);
    IndexOfUnique(ps, i);
    if closed < ps[i].qty {
      ReducedKeepsFields(ps[i], closed);
      KeepsIndex(ps, i, ReducedPosition(ps[i], closed), sym);
    } else {
      var left := Reduce(ps, i, closed);
      assert left == ps[..i] + ps[i + 1..];
      assert forall k :: 0 <= k < |left| ==> Upper(left[k].symbol) != sym;
    }
  }

  /** The closing write: the row of the exited position is found, and stays open exactly when some is left. */
  lemma ClosedAligns(st: PortfolioState, t: Tables, i: nat, closed: real, price: real, reason: string, pnl: real)
    requires Aligned(st.positions, t.rows) && CleanSymbols(st.positions)
    requires i < |st.positions| && 0.0 < closed <= st.positions[i].qty
    ensures var booked := AfterExit(st, i, closed, price, pnl);
            var written := Closed(t, booked, Upper(st.positions[i].symbol), reason, pnl);
            && written.Some? && Aligned(booked.positions, written.value.rows) && CleanSymbols(booked.positions)
  {
    hide ReducedPosition, Upper, Reduce, OnlyOpen, OpenIds, IndexOf, Refreshed;
    var ps := st.positions;
    FindsRow(ps, t.rows, i);
    LeftAfterReduce(ps, i, closed);
    assert SameFixed(t.rows[OpenIds(t.rows)[i]], ps[i]);
    assert t.rows[OpenIds(t.rows)[i]].isOpen by { OpenIdsAreOpen(t.rows); }
    var written := Closed(t, AfterExit(st, i, closed, price, pnl), Upper(ps[i].symbol), reason, pnl).value;
    ExitAligned(ps, t.rows, i, closed, written.rows[OpenIds(t.rows)[i]]);
  }

  lemma ExitMirrors(st: PortfolioState, t: Tables, symbol: string, price: real, reason: string, pnl: real,
                    qty: Option<real>, closeFault: bool, saveFault: bool)
    requires Aligned(st.positions, t.rows) && CleanSymbols(st.positions)
    ensures var (st', t', reply) := ExitStep(st, t, symbol, price, reason, pnl, qty, closeFault, saveFault);
            && (reply == Booked(true) ==> Mirrors(st', t') && CleanSymbols(st'.positions))
            && (reply == Booked(false) ==> closeFault || saveFault)
  {
    hide AfterExit, Closed, Upper, Aligned, CleanSymbols, Mirrors, Saved, Halted;
    var target := Resolve(st, symbol, qty);
    if target.Target? {
      var booked := AfterExit(st, target.i, target.closed, price, pnl);
      ClosedAligns(st, t, target.i, target.closed, price, reason, pnl);
      SaveMirrors(booked, Closed(t, booked, Upper(symbol), reason, pnl).value);
    }
  }

  // ---- whole runs ----

  datatype Booking =
    | FillOp(pos: PositionView, confidence: real, insert: Insert, saveFault: bool)
    | ExitOp(symbol: string, price: real, reason: string, pnl: real, qty: Option<real>, closeFault: bool,
      saveFault: bool)
    | StopOp(at: nat, stopOrderId: string)

  datatype Desk = Desk(st: PortfolioState, tables: Tables, allTrue: bool)

  /** A booking, or the execution engine renaming a position's stop in memory only. `allTrue`
      records whether every booking so far returned True. */
  function Book(d: Desk, op: Booking): Desk {
    match op
    case FillOp(pos, confidence, insert, saveFault) =>
      var (st, t, ok) := FillStep(d.st, d.tables, pos, confidence, insert, saveFault);
      Desk(st, t, d.allTrue && ok)
    case ExitOp(symbol, price, reason, pnl, qty, closeFault, saveFault) =>
      var (st, t, reply) := ExitStep(d.st, d.tables, symbol, price, reason, pnl, qty, closeFault, saveFault);
      Desk(st, t, d.allTrue && reply == Booked(true))
    case StopOp(at, id) =>
      if at < |d.st.positions|
      then d.(st := d.st.(positions := d.st.positions[at := d.st.positions[at].(stopOrderId := id)]))
      else d
  }

  function BookAll(d: Desk, ops: seq<Booking>): Desk {
    if ops == [] then d else Book(BookAll(d, ops[..|ops| - 1]), ops[|ops| - 1])
  }

  /** Every fill names an upper-case symbol that is not already held, as the entry validation
      guarantees. */
  ghost predicate CleanRun(d: Desk, ops: seq<Booking>) {
    ops == [] || (
      var op, before := ops[|ops| - 1], BookAll(d, ops[..|ops| - 1]);
      && CleanRun(d, ops[..|ops| - 1])
      && (op.FillOp? ==>
            IsUpper(op.pos.symbol) && IndexOf(before.st.positions, op.pos.symbol) == |before.st.positions|))
  }

  ghost predicate Recoverable(d: Desk) {
    && Aligned(d.st.positions, d.tables.rows)
    && CleanSymbols(d.st.positions)
    && d.st.equity <= d.st.peakEquity && 0.0 < d.st.peakEquity
  }

  /** A new upper-case symbol that is not held keeps the symbols clean. */
  lemma FillKeepsClean(ps: seq<PositionView>, pos: PositionView)
    requires CleanSymbols(ps) && IsUpper(pos.symbol) && IndexOf(ps, pos.symbol) == |ps|
    ensures CleanSymbols(ps + [pos])
  {
  }

  lemma FillKeepsRecoverable(d: Desk, pos: PositionView, confidence: real, insert: Insert, saveFault: bool)
    requires Recoverable(d) && IsUpper(pos.symbol) && IndexOf(d.st.positions, pos.symbol) == |d.st.positions|
    ensures var d' := Book(d, FillOp(pos, confidence, insert, saveFault));
            d'.allTrue ==> Recoverable(d') && Mirrors(d'.st, d'.tables)
  {
    hide Upper, IsUpper, Aligned, FlushState, Added, IndexOf;
    FillMirrors(d.st, d.tables, pos, confidence, insert, saveFault);
    if insert.Stored? && !saveFault {
      var keyed := Keyed(AfterFill(d.st, pos), |d.tables.rows|);
      var placed := pos.(dbId := Some(|d.tables.rows|));
      assert keyed.positions == d.st.positions + [placed];
      FillKeepsClean(d.st.positions, placed);
    }
  }

  lemma ExitKeepsRecoverable(d: Desk, op: Booking)
    requires Recoverable(d) && op.ExitOp?
    ensures var d' := Book(d, op);
            d'.allTrue ==> Recoverable(d') && Mirrors(d'.st, d'.tables)
  {
    hide Upper, Reduce, Aligned, CleanSymbols, Resolve, Closed, Saved, FlushState;
    ExitMirrors(d.st, d.tables, op.symbol, op.price, op.reason, op.pnl, op.qty, op.closeFault, op.saveFault);
  }

  /** Renaming a stop in memory leaves rows and keys alone. */
  lemma StopKeepsRecoverable(d: Desk, at: nat, id: string)
    requires Recoverable(d)
    ensures Recoverable(Book(d, StopOp(at, id)))
  {
    hide Upper, OpenIds;
  }

  lemma BookingKeepsRecoverable(d: Desk, op: Booking)
    requires Recoverable(d) && Book(d, op).allTrue
    requires op.FillOp? ==> IsUpper(op.pos.symbol) && IndexOf(d.st.positions, op.pos.symbol) == |d.st.positions|
    ensures Recoverable(Book(d, op))
    ensures !op.StopOp? ==> Mirrors(Book(d, op).st, Book(d, op).tables)
  {
    hide Recoverable, Mirrors, Book, IsUpper, IndexOf;
    match op
    case FillOp(pos, confidence, insert, saveFault) =>
      FillKeepsRecoverable(d, pos, confidence, insert, saveFault);
    case ExitOp(_, _, _, _, _, _, _) =>
      ExitKeepsRecoverable(d, op);
    case StopOp(at, id) =>
      StopKeepsRecoverable(d, at, id);
  }

  lemma {:induction false} RunRecoverable(d: Desk, ops: seq<Booking>)
    requires Recoverable(d) && CleanRun(d, ops) && BookAll(d, ops).allTrue
    ensures Recoverable(BookAll(d, ops))
    ensures ops != [] && !ops[|ops| - 1].StopOp? ==> Mirrors(BookAll(d, ops).st, BookAll(d, ops).tables)
  {
    if ops != [] {
      var n := |ops| - 1;
      assert BookAll(d, ops[..n]).allTrue;
      RunRecoverable(d, ops[..n]);
      BookingKeepsRecoverable(BookAll(d, ops[..n]), ops[n]);
    }
  }

  /** Crash recovery. After any run of bookings that all returned True, loading the tables into
      any state gives back the same positions (`unrealizedPnl` aside), equity, cash, P&L, peak,
      loss streak and halt flags. */
  lemma CrashRecovery(d: Desk, ops: seq<Booking>, base: PortfolioState)
    requires Recoverable(d) && CleanRun(d, ops) && BookAll(d, ops).allTrue
    requires ops != [] && !ops[|ops| - 1].StopOp?
    ensures var end := BookAll(d, ops);
            && end.tables.system.Some?
            && Reloadable(Loaded(end.tables, base)) == Reloadable(end.st)
  {
    RunRecoverable(d, ops);
    var end := BookAll(d, ops);
    ReloadIsLedger(end.st, end.tables, base);
  }
}
