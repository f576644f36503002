/** The live protocol's view of the portfolio in memory and in the database. Both are read off the portfolio
    store here, and each of its writes is shown to be the step the protocol takes it for. */
module LiveMirror {
  import opened Common
  import opened Ledger
  import opened PortfolioStore
  import opened PortfolioMirror
  import Live = LiveLedger

  /** How broker order ids are read as numbers; no number is no stop. */
  type Reading = ids: string -> Option<nat> | ids("").None? witness (_: string) => None

  function Shares(q: real): nat { if q < 0.0 then 0 else q.Floor }

  function StoredRow(row: PositionRow, ids: Reading): Live.Stored {
    Live.Stored(row.symbol, row.isOpen, Shares(row.qty), ids(row.stopOrderId), row.stopLoss, row.takeProfit)
  }

  function TableOf(rows: seq<PositionRow>, ids: Reading): (t: Live.Table)
    ensures |t| == |rows|
  {
    seq(|rows|, i requires 0 <= i < |rows| => StoredRow(rows[i], ids))
  }

  function ViewPosition(p: PositionView, next: Option<Live.Position>, ids: Reading): Live.Position {
    Live.Position(Shares(p.qty), ids(p.stopOrderId), p.stopLoss, p.takeProfit, p.dbId, next)
  }

  /** The positions of `s`, in order. */
  function ChainOf(ps: seq<PositionView>, s: string, ids: Reading): Option<Live.Position> {
    if ps == [] then None
    else if ps[0].symbol == s then Some(ViewPosition(ps[0], ChainOf(ps[1..], s, ids), ids))
    else ChainOf(ps[1..], s, ids)
  }

  function Symbols(ps: seq<PositionView>): set<string> { set k | 0 <= k < |ps| :: ps[k].symbol }

  function LedgerOf(ps: seq<PositionView>, ids: Reading): Live.Ledger {
    map s | s in Symbols(ps) && ChainOf(ps, s, ids).Some? :: ChainOf(ps, s, ids).value
  }

  /** Symbols are upper-case, no two positions share a key, and a key leads to a row of the position's symbol,
      if to an open one. A position may have no row, and a symbol several rows and positions. */
  ghost predicate Linked(ps: seq<PositionView>, rows: seq<PositionRow>) {
    && (forall k :: 0 <= k < |ps| ==> IsUpper(ps[k].symbol))
    && (forall j, k :: 0 <= j < k < |ps| && ps[j].dbId.Some? ==> ps[j].dbId != ps[k].dbId)
    && (forall k :: 0 <= k < |ps| ==> LinkedTo(ps[k], rows))
  }

  predicate LinkedTo(p: PositionView, rows: seq<PositionRow>) {
    p.dbId.Some? ==>
      p.dbId.value < |rows| && (rows[p.dbId.value].isOpen ==> rows[p.dbId.value].symbol == p.symbol)
  }

  // ---- the list by symbol ----

  lemma {:induction false} ChainIsFirst(ps: seq<PositionView>, s: string, ids: Reading)
    requires (forall k :: 0 <= k < |ps| ==> IsUpper(ps[k].symbol)) && IsUpper(s)
    ensures ChainOf(ps, s, ids).Some? <==> IndexOf(ps, s) < |ps|
    ensures var i := IndexOf(ps, s);
            i < |ps| ==>
              && ps[i].symbol == s
              && ChainOf(ps, s, ids) == Some(ViewPosition(ps[i], ChainOf(ps[i + 1..], s, ids), ids))
  {
    hide Upper;
    if ps != [] && Upper(ps[0].symbol) != s { ChainIsFirst(ps[1..], s, ids); }
  }

  /** The ledger has a symbol exactly when the list does, with the first position of it in front. */
  lemma LedgerAt(ps: seq<PositionView>, s: string, ids: Reading)
    ensures s in LedgerOf(ps, ids) <==> ChainOf(ps, s, ids).Some?
    ensures s in LedgerOf(ps, ids) ==> LedgerOf(ps, ids)[s] == ChainOf(ps, s, ids).value
  {
    ChainHasSymbol(ps, s, ids);
  }

  lemma {:induction false} ChainHasSymbol(ps: seq<PositionView>, s: string, ids: Reading)
    ensures ChainOf(ps, s, ids).Some? ==> s in Symbols(ps)
  {
    if ps != [] && ps[0].symbol != s {
      ChainHasSymbol(ps[1..], s, ids);
      assert forall k :: 0 <= k < |ps[1..]| ==> ps[1..][k] == ps[k + 1];
    }
  }

  lemma {:induction false} ChainFindsKey(ps: seq<PositionView>, s: string, row: nat, ids: Reading)
    requires forall j, k :: 0 <= j < k < |ps| && ps[j].dbId.Some? ==> ps[j].dbId != ps[k].dbId
    ensures forall k :: 0 <= k < |ps| && ps[k].symbol == s && ps[k].dbId == Some(row) ==>
      var c := ChainOf(ps, s, ids);
      c.Some? && var found := Live.Find(c.value, Some(row));
      found.Some? && found.value.qty == Shares(ps[k].qty) && found.value.stop == ids(ps[k].stopOrderId)
    ensures ChainOf(ps, s, ids).Some? && Live.Find(ChainOf(ps, s, ids).value, Some(row)).Some? ==>
      exists k :: 0 <= k < |ps| && ps[k].symbol == s && ps[k].dbId == Some(row)
  {
    if ps != [] {
      var rest := ps[1..];
      assert forall k :: 0 <= k < |rest| ==> rest[k] == ps[k + 1];
      ChainFindsKey(rest, s, row, ids);
    }
  }

  // ---- saving ----

  ghost predicate SameShape(a: PositionRow, b: PositionRow) {
    a.isOpen == b.isOpen && a.symbol == b.symbol && a.stopLoss == b.stopLoss && a.takeProfit == b.takeProfit
  }

  /** Each open row takes quantity and stop from the position with its key, and others stay. */
  lemma {:induction false} SyncWritesKeyed(rows: seq<PositionRow>, all: seq<PositionView>, n: nat)
    requires Linked(all, rows) && n <= |all|
    ensures var out := SyncRows(rows, all[..n]);
            && (forall i :: 0 <= i < |rows| ==> SameShape(out[i], rows[i]))
            && (forall i, k :: 0 <= i < |rows| && 0 <= k < n && rows[i].isOpen && all[k].dbId == Some(i) ==>
                  out[i].qty == all[k].qty && out[i].stopOrderId == all[k].stopOrderId)
            && (forall i ::
                  0 <= i < |rows| && (!rows[i].isOpen || forall k :: 0 <= k < n ==> all[k].dbId != Some(i)) ==>
                    out[i] == rows[i])
  {
    if 0 < n {
      var m := n - 1;
      assert all[..n][..m] == all[..m];
      SyncWritesKeyed(rows, all, m);
      assert SyncRows(rows, all[..n]) == SyncRow(SyncRows(rows, all[..m]), all[m]);
    }
  }

  /** A save is the protocol's save: the open row of every position that has one is written, no other. */
  lemma {:induction false} SaveIsSynced(ps: seq<PositionView>, rows: seq<PositionRow>, ids: Reading)
    requires Linked(ps, rows)
    ensures Linked(ps, SyncRows(rows, ps))
    ensures TableOf(SyncRows(rows, ps), ids) == Live.Synced(TableOf(rows, ids), LedgerOf(ps, ids))
  {
    hide LedgerOf, SyncRows, IsUpper;
    var out, t := SyncRows(rows, ps), TableOf(rows, ids);
    assert ps[..|ps|] == ps;
    SyncWritesKeyed(rows, ps, |ps|);
    assert forall k :: 0 <= k < |ps| ==> LinkedTo(ps[k], out);
    forall i | 0 <= i < |rows|
      ensures StoredRow(out[i], ids) == Live.SyncedRow(t[i], i, LedgerOf(ps, ids))
    {
      RowAfterSave(ps, rows, out, i, ids);
    }
  }

  lemma {:induction false} RowAfterSave(ps: seq<PositionView>, rows: seq<PositionRow>, out: seq<PositionRow>, i: nat,
                                        ids: Reading)
    requires Linked(ps, rows) && |out| == |rows| && i < |rows| && SameShape(out[i], rows[i])
    requires forall k :: 0 <= k < |ps| && rows[i].isOpen && ps[k].dbId == Some(i) ==>
      out[i].qty == ps[k].qty && out[i].stopOrderId == ps[k].stopOrderId
    requires (!rows[i].isOpen || forall k :: 0 <= k < |ps| ==> ps[k].dbId != Some(i)) ==> out[i] == rows[i]
    ensures StoredRow(out[i], ids) == Live.SyncedRow(StoredRow(rows[i], ids), i, LedgerOf(ps, ids))
  {
    hide LedgerOf, IsUpper, ChainOf;
    var s := rows[i].symbol;
    LedgerAt(ps, s, ids);
    ChainFindsKey(ps, s, i, ids);
    if rows[i].isOpen && exists k :: 0 <= k < |ps| && ps[k].dbId == Some(i) {
      var k :| 0 <= k < |ps| && ps[k].dbId == Some(i);
      assert LinkedTo(ps[k], rows);
    }
  }

  // ---- closing ----

  lemma {:induction false} OpenTwiceSame(rows: seq<PositionRow>, s: string, ids: Reading)
    ensures Live.OpenTwice(TableOf(rows, ids), s) <==>
      exists i, j :: 0 <= i < j < |rows| && OpenFor(rows, s, i) && OpenFor(rows, s, j)
    ensures Live.HasOpen(TableOf(rows, ids), s) <==> exists i :: 0 <= i < |rows| && OpenFor(rows, s, i)
  {
    var t := TableOf(rows, ids);
    assert forall i :: 0 <= i < |rows| ==> (t[i].open && t[i].symbol == s <==> OpenFor(rows, s, i));
    if i, j :| 0 <= i < j < |rows| && OpenFor(rows, s, i) && OpenFor(rows, s, j) {
      assert t[i].open && t[j].open && t[i].symbol == s && t[j].symbol == s;
    }
    if i :| 0 <= i < |rows| && OpenFor(rows, s, i) { assert t[i].open && t[i].symbol == s; }
  }

  /** Both sides look for the only open row. */
  lemma {:induction false} OnlyOpenSame(rows: seq<PositionRow>, s: string, ids: Reading)
    ensures OnlyOpen(rows, s) == Live.OnlyOpen(TableOf(rows, ids), s)
  {
    hide Live.OpenTwice;
    var t := TableOf(rows, ids);
    OpenTwiceSame(rows, s, ids);
    assert forall i :: 0 <= i < |rows| ==> (t[i].open && t[i].symbol == s <==> OpenFor(rows, s, i));
    if i :| 0 <= i < |rows| && OpenFor(rows, s, i) {
      if !Live.OpenTwice(t, s) {
        forall j | 0 <= j < |rows| && OpenFor(rows, s, j)
          ensures i == j
        {
        }
        assert t[i].open && t[i].symbol == s;
      }
    }
  }

  /** The closing write is the protocol's, and fails exactly when that finds no row, or several. */
  lemma {:induction false} CloseIsRebooked(t: Tables, st: PortfolioState, sym: string, reason: string, pnl: real,
                                           ids: Reading)
    requires Linked(st.positions, t.rows) && IsUpper(sym)
    ensures var written, before := Closed(t, st, sym, reason, pnl), TableOf(t.rows, ids);
            && (written.Some? <==> Live.OnlyOpen(before, sym).Some?)
            && (written.Some? ==>
                  && Linked(st.positions, written.value.rows)
                  && TableOf(written.value.rows, ids) == Live.Rebooked(before, LedgerOf(st.positions, ids), sym))
  {
    hide OnlyOpen, Live.OnlyOpen, LedgerOf, IndexOf, Refreshed, IsUpper, ChainOf;
    OnlyOpenSame(t.rows, sym, ids);
    ChainIsFirst(st.positions, sym, ids);
    LedgerAt(st.positions, sym, ids);
    var found := OnlyOpen(t.rows, sym);
    if found.Some? {
      OnlyOpenIs(t.rows, sym);
      var out := Closed(t, st, sym, reason, pnl).value.rows;
      assert forall k :: 0 <= k < |st.positions| ==>
        LinkedTo(st.positions[k], t.rows) && LinkedTo(st.positions[k], out);
      assert TableOf(out, ids) == TableOf(t.rows, ids)[found.value := StoredRow(out[found.value], ids)];
    }
  }

  lemma OnlyOpenIs(rows: seq<PositionRow>, sym: string)
    ensures OnlyOpen(rows, sym).Some? ==> OpenFor(rows, sym, OnlyOpen(rows, sym).value)
  {
  }

  // ---- fills ----

  lemma {:induction false} ChainAppended(ps: seq<PositionView>, p: PositionView, s: string, ids: Reading)
    ensures ChainOf(ps + [p], s, ids)
         == if p.symbol == s then Some(Snoc(ChainOf(ps, s, ids), ViewPosition(p, None, ids))) else ChainOf(ps, s, ids)
  {
    var all := ps + [p];
    if ps == [] {
      assert all == [p] && all[1..] == [];
    } else {
      assert all[1..] == ps[1..] + [p];
      ChainAppended(ps[1..], p, s, ids);
    }
  }

  /** The position `p` after those of `c`. */
  function Snoc(c: Option<Live.Position>, p: Live.Position): Live.Position {
    if c.None? then p else c.value.(next := Some(Snoc(c.value.next, p)))
  }

  /** A new position of a symbol not held. */
  lemma {:induction false} LedgerAppended(ps: seq<PositionView>, p: PositionView, ids: Reading)
    requires ChainOf(ps, p.symbol, ids).None?
    ensures LedgerOf(ps + [p], ids) == LedgerOf(ps, ids)[p.symbol := ViewPosition(p, None, ids)]
  {
    hide LedgerOf, ChainOf;
    var want := LedgerOf(ps, ids)[p.symbol := ViewPosition(p, None, ids)];
    forall s
      ensures s in LedgerOf(ps + [p], ids) <==> s in want
      ensures s in want ==> LedgerOf(ps + [p], ids)[s] == want[s]
    {
      ChainAppended(ps, p, s, ids);
      LedgerAt(ps, s, ids);
      LedgerAt(ps + [p], s, ids);
    }
  }

  lemma {:induction false} LinkedAppended(ps: seq<PositionView>, rows: seq<PositionRow>, more: seq<PositionRow>,
                                          p: PositionView)
    requires Linked(ps, rows) && IsUpper(p.symbol)
    requires p.dbId.Some? ==> p.dbId == Some(|rows|) && |more| == 1 && (more[0].isOpen ==> more[0].symbol == p.symbol)
    ensures Linked(ps + [p], rows + more)
  {
    hide IsUpper;
    var all, out := ps + [p], rows + more;
    forall k | 0 <= k < |all|
      ensures LinkedTo(all[k], out)
    {
      if k < |ps| { assert LinkedTo(ps[k], rows); }
    }
  }

  /** A fill, of a symbol not held, whatever the storage does: the ledger gains the position, and the database
      a row of it exactly when the row was stored, whether or not the symbol has one. On success ledger and
      database agree about it exactly when it had none. */
  lemma {:induction false} FillIsRecorded(st: PortfolioState, t: Tables, pos: PositionView, confidence: real,
                                          insert: Insert,
                                          saveFault: bool, ids: Reading)
    requires Linked(st.positions, t.rows) && IsUpper(pos.symbol) && pos.dbId.None?
    requires IndexOf(st.positions, pos.symbol) == |st.positions|
    ensures var (st', t', ok) := FillStep(st, t, pos, confidence, insert, saveFault);
            var before, after, l := TableOf(t.rows, ids), TableOf(t'.rows, ids), LedgerOf(st'.positions, ids);
            var key := if insert.FailedEarly? then None else Some(|t.rows|);
            && Linked(st'.positions, t'.rows)
            && l == LedgerOf(st.positions, ids)[pos.symbol := ViewPosition(pos.(dbId := key), None, ids)]
            && after == (match insert
                         case Stored => Live.Recorded(before, l, pos.symbol)
                         case FailedEarly => before
                         case FailedAtCommit => Live.Voided(before))
            && (ok ==> (Live.Agree(after, l, pos.symbol) <==> !Live.HasOpen(before, pos.symbol)))
  {
    hide Linked, LedgerOf, IndexOf, IsUpper, SyncRows, FlushState, Refreshed, ChainOf, Live.Agree, Live.Synced,
      Live.HasOpen;
    var ps, key := st.positions, Some(|t.rows|);
    var placed, row := pos.(dbId := key), RowOf(pos, confidence);
    UpperAll(ps, t.rows);
    ChainIsFirst(ps, pos.symbol, ids);
    if insert.FailedEarly? {
      LedgerAppended(ps, pos, ids);
      LinkedAppended(ps, t.rows, [], pos);
      assert t.rows + [] == t.rows && pos.(dbId := None) == pos;
    } else {
      assert Keyed(AfterFill(st, pos), |t.rows|).positions == ps + [placed];
      LedgerAppended(ps, placed, ids);
      if insert.FailedAtCommit? {
        LinkedAppended(ps, t.rows, [VOID_ROW], placed);
        assert TableOf(t.rows + [VOID_ROW], ids) == Live.Voided(TableOf(t.rows, ids));
      } else {
        var grown, l := t.rows + [row], LedgerOf(ps + [placed], ids);
        LinkedAppended(ps, t.rows, [row], placed);
        assert TableOf(grown, ids) == TableOf(t.rows, ids) + [Live.RowOf(pos.symbol, l[pos.symbol])];
        SaveIsSynced(ps + [placed], grown, ids);
        SaveIsSynced(ps + [placed], SyncRows(grown, ps + [placed]), ids);
        Live.SyncedTwice(TableOf(grown, ids), l);
        Live.RecordedAgreesExactly(TableOf(t.rows, ids), l, pos.symbol);
      }
    }
  }

  lemma UpperAll(ps: seq<PositionView>, rows: seq<PositionRow>)
    requires Linked(ps, rows)
    ensures forall k :: 0 <= k < |ps| ==> IsUpper(ps[k].symbol)
  {
    hide IsUpper;
  }

  // ---- exits ----

  lemma {:induction false} ReducedLinked(ps: seq<PositionView>, rows: seq<PositionRow>, i: nat, closed: real)
    requires Linked(ps, rows) && i < |ps| && 0.0 < closed <= ps[i].qty
    ensures Linked(Reduce(ps, i, closed), rows)
  {
    hide IsUpper, ReducedPosition, LinkedTo;
    if closed < ps[i].qty {
      ReducedKeepsFields(ps[i], closed);
      assert LinkedTo(ps[i], rows) ==>
        LinkedTo(ReducedPosition(ps[i], closed), rows) by { SameKey(ps[i], ReducedPosition(ps[i], closed), rows); }
    } else {
      var left := Without(ps, i);
      assert forall k :: 0 <= k < |left| ==> left[k] == ps[if k < i then k else k + 1];
      assert Reduce(ps, i, closed) == left;
    }
  }

  lemma SameKey(p: PositionView, q: PositionView, rows: seq<PositionRow>)
    requires q.symbol == p.symbol && q.dbId == p.dbId
    ensures LinkedTo(p, rows) <==> LinkedTo(q, rows)
  {
  }

  /** An exit that is booked: the database is rebooked for the symbol when the closing write goes through,
      which it can exactly when the symbol has one open row, and saved when the save does. A success leaves
      ledger and database agreeing, unless the symbol is still listed more than once. A refused exit changes
      neither. */
  lemma {:induction false} ExitIsRebooked(st: PortfolioState, t: Tables, symbol: string, price: real, reason: string,
                                          pnl: real,
                                          qty: Option<real>, closeFault: bool, saveFault: bool, ids: Reading)
    requires Linked(st.positions, t.rows)
    ensures var (st', t', reply) := ExitStep(st, t, symbol, price, reason, pnl, qty, closeFault, saveFault);
            var before, after, l, s := TableOf(t.rows, ids), TableOf(t'.rows, ids), LedgerOf(st'.positions, ids),
              Upper(symbol);
            && Linked(st'.positions, t'.rows)
            && (!reply.Booked? ==> st' == st && t' == t)
            && (reply.Booked? ==>
                  after == if closeFault || Live.OnlyOpen(before, s).None? then before
                           else if saveFault then Live.Rebooked(before, l, s)
                           else Live.Synced(Live.Rebooked(before, l, s), l))
            && (reply == Booked(true) <==> reply.Booked? && !closeFault && !saveFault && Live.OnlyOpen(before, s).Some?)
            && (reply == Booked(true) && !Live.Doubled(l, s) ==> Live.Agree(after, l, s))
  {
    hide Linked, LedgerOf, IndexOf, Upper, SyncRows, Closed, Reduce, FlushState, ReducedPosition, Live.Agree,
      Live.OnlyOpen, Live.Synced;
    var target := Resolve(st, symbol, qty);
    if target.Target? {
      var booked, sym := AfterExit(st, target.i, target.closed, price, pnl), Upper(symbol);
      UpperTwice(symbol);
      ReducedLinked(st.positions, t.rows, target.i, target.closed);
      CloseIsRebooked(t, booked, sym, reason, pnl, ids);
      var written, l := Closed(t, booked, sym, reason, pnl), LedgerOf(booked.positions, ids);
      if !closeFault && written.Some? {
        SaveIsSynced(booked.positions, written.value.rows, ids);
        if !Live.Doubled(l, sym) {
          Live.RebookedAgrees(TableOf(t.rows, ids), l, sym);
          Live.SyncedAgrees(Live.Rebooked(TableOf(t.rows, ids), l, sym), l, sym);
        }
      }
    }
  }

  lemma UpperTwice(s: string)
    ensures IsUpper(Upper(s))
  {
  }

  /** In the ledger, a booked exit of whole shares is the protocol's booking, on the first position. */
  lemma {:induction false} ExitIsBooked(st: PortfolioState, s: string, price: real, pnl: real, held: nat, sold: nat,
                                        ids: Reading)
    requires (forall k :: 0 <= k < |st.positions| ==> IsUpper(st.positions[k].symbol)) && IsUpper(s)
    requires var i := IndexOf(st.positions, s); i < |st.positions| && st.positions[i].qty == held as real
    requires 0 < sold <= held
    ensures var l, i := LedgerOf(st.positions, ids), IndexOf(st.positions, s);
            && Live.Held(l, s) == held
            && LedgerOf(AfterExit(st, i, sold as real, price, pnl).positions, ids) == Live.Reduced(l, s, sold)
  {
    hide LedgerOf, ChainOf, ReducedPosition, Upper, IsUpper;
    var ps, i := st.positions, IndexOf(st.positions, s);
    var left := Reduce(ps, i, sold as real);
    ChainIsFirst(ps, s, ids);
    LedgerAt(ps, s, ids);
    ReducedQty(ps[i], sold as real);
    ReducedKeepsFields(ps[i], sold as real);
    assert (held as real) - (sold as real) == (held - sold) as real;
    var l, l' := LedgerOf(ps, ids), LedgerOf(left, ids);
    forall u
      ensures u in l' <==> u in Live.Reduced(l, s, sold)
      ensures u in l' ==> l'[u] == Live.Reduced(l, s, sold)[u]
    {
      LedgerAt(ps, u, ids);
      LedgerAt(left, u, ids);
      if u == s {
        ChainReduced(ps, i, s, left, ids);
      } else {
        ChainKept(ps, i, s, left, u, ids);
      }
    }
  }

  lemma {:induction false} ChainReduced(ps: seq<PositionView>, i: nat, s: string, left: seq<PositionView>, ids: Reading)
    requires i < |ps| && ps[i].symbol == s && forall k :: 0 <= k < i ==> ps[k].symbol != s
    requires left == Without(ps, i) || (|left| == |ps| && left == ps[i := left[i]] && left[i].symbol == s)
    ensures left == Without(ps, i) ==> ChainOf(left, s, ids) == ChainOf(ps[i + 1..], s, ids)
    ensures left != Without(ps, i) ==>
      ChainOf(left, s, ids) == Some(ViewPosition(left[i], ChainOf(ps[i + 1..], s, ids), ids))
    decreases i
  {
    if i == 0 {
      if left == Without(ps, 0) { assert left == ps[1..]; } else { assert left[1..] == ps[1..]; }
    } else {
      var rest := left[1..];
      if left == Without(ps, i) {
        assert rest == Without(ps[1..], i - 1);
      } else {
        assert rest == ps[1..][i - 1 := rest[i - 1]];
        assert rest != Without(ps[1..], i - 1) by { assert |rest| == |ps[1..]|; }
      }
      assert ps[1..][i..] == ps[i + 1..];
      ChainReduced(ps[1..], i - 1, s, rest, ids);
    }
  }

  lemma {:induction false} ChainKept(ps: seq<PositionView>, i: nat, s: string, left: seq<PositionView>, u: string,
                                     ids: Reading)
    requires i < |ps| && ps[i].symbol == s && u != s
    requires left == Without(ps, i) || (|left| == |ps| && left == ps[i := left[i]] && left[i].symbol == s)
    ensures ChainOf(left, u, ids) == ChainOf(ps, u, ids)
    decreases i
  {
    if i == 0 {
      if left == Without(ps, 0) { assert left == ps[1..]; } else { assert left[1..] == ps[1..]; }
    } else {
      var rest := left[1..];
      if left == Without(ps, i) {
        assert rest == Without(ps[1..], i - 1);
      } else {
        assert rest == ps[1..][i - 1 := rest[i - 1]];
      }
      ChainKept(ps[1..], i - 1, s, rest, u, ids);
    }
  }

  // ---- loading ----

  /** The open rows, as views. */
  function Views(rows: seq<PositionRow>, open: seq<nat>): seq<PositionView>
    requires forall k :: 0 <= k < |open| ==> open[k] < |rows|
  {
    seq(|open|, k requires 0 <= k < |open| => ViewOf(rows[open[k]], open[k]))
  }

  lemma {:induction false} ChainGrows(t: Live.Table, r: Live.Stored, s: string, i: nat)
    requires i <= |t|
    ensures Live.Chain(t + [r], s, i)
         == if r.open && r.symbol == s
            then
              var p := Live.Position(r.qty, r.stop, r.stopLoss, r.takeProfit, Some(|t|), None);
              Some(Snoc(Live.Chain(t, s, i), p))
            else Live.Chain(t, s, i)
    decreases |t| - i
  {
    if i < |t| {
      assert (t + [r])[i] == t[i];
      ChainGrows(t, r, s, i + 1);
    } else {
      assert Live.Chain(t + [r], s, |t| + 1).None?;
    }
  }

  lemma {:induction false} ViewsAreChain(rows: seq<PositionRow>, s: string, ids: Reading)
    requires forall k :: 0 <= k < |OpenIds(rows)| ==> OpenIds(rows)[k] < |rows|
    ensures ChainOf(Views(rows, OpenIds(rows)), s, ids) == Live.Chain(TableOf(rows, ids), s, 0)
  {
    if rows != [] {
      var n := |rows| - 1;
      var before, open := OpenIds(rows[..n]), OpenIds(rows);
      OpenIdsAreOpen(rows[..n]);
      ViewsAreChain(rows[..n], s, ids);
      assert TableOf(rows, ids) == TableOf(rows[..n], ids) + [StoredRow(rows[n], ids)];
      ChainGrows(TableOf(rows[..n], ids), StoredRow(rows[n], ids), s, 0);
      if rows[n].isOpen {
        assert Views(rows, open) == Views(rows[..n], before) + [ViewOf(rows[n], n)];
        ChainAppended(Views(rows[..n], before), ViewOf(rows[n], n), s, ids);
      } else {
        assert Views(rows, open) == Views(rows[..n], before);
      }
    }
  }

  /** A load reads every open row back as a position, whatever the table. */
  lemma {:induction false} LoadIsLoaded(t: Tables, base: PortfolioState, ids: Reading)
    requires t.system.Some? && forall i :: 0 <= i < |t.rows| && t.rows[i].isOpen ==> IsUpper(t.rows[i].symbol)
    ensures Linked(Loaded(t, base).positions, t.rows)
    ensures LedgerOf(Loaded(t, base).positions, ids) == Live.Loaded(TableOf(t.rows, ids))
  {
    hide IsUpper, LedgerOf, Live.Loaded, Live.Chain, ChainOf, OpenIds, Live.OpenTwice;
    var ps, open, table := Loaded(t, base).positions, OpenIds(t.rows), TableOf(t.rows, ids);
    OpenIdsAreOpen(t.rows);
    assert ps == Views(t.rows, open);
    assert forall j, k :: 0 <= j < k < |ps| ==> ps[j].dbId != ps[k].dbId;
    forall s
      ensures s in LedgerOf(ps, ids) <==> s in Live.Loaded(table)
      ensures s in LedgerOf(ps, ids) ==> LedgerOf(ps, ids)[s] == Live.Loaded(table)[s]
    {
      ViewsAreChain(t.rows, s, ids);
      LedgerAt(ps, s, ids);
      LoadedChain(table, s);
    }
  }

  lemma LoadedChain(t: Live.Table, s: string)
    ensures s in Live.Loaded(t) <==> Live.Chain(t, s, 0).Some?
    ensures s in Live.Loaded(t) ==> Live.Loaded(t)[s] == Live.Chain(t, s, 0).value
  {
    Live.ChainFinds(t, s, 0);
    Live.LoadedAt(t, s);
  }

  // ---- symbols with several open rows ----

  /** A stored fill leaves every symbol with at most one open row exactly when it was so before and the symbol
      had none: what a caller of `record_fill` would have to look up. */
  lemma {:induction false} FillKeepsOnceExactly(st: PortfolioState, t: Tables, pos: PositionView, confidence: real,
                                                saveFault: bool, ids: Reading)
    requires Linked(st.positions, t.rows) && IsUpper(pos.symbol) && pos.dbId.None?
    requires IndexOf(st.positions, pos.symbol) == |st.positions|
    ensures var (_, t', _) := FillStep(st, t, pos, confidence, Stored, saveFault);
            Live.Once(TableOf(t'.rows, ids))
            <==> Live.Once(TableOf(t.rows, ids)) && forall i :: 0 <= i < |t.rows| ==> !OpenFor(t.rows, pos.symbol, i)
  {
    hide Linked, LedgerOf, IndexOf, IsUpper, FillStep, Live.Once, Live.HasOpen, Live.Recorded;
    FillIsRecorded(st, t, pos, confidence, Stored, saveFault, ids);
    var (st', _, _) := FillStep(st, t, pos, confidence, Stored, saveFault);
    Live.RecordedOnceExactly(TableOf(t.rows, ids), LedgerOf(st'.positions, ids), pos.symbol);
    OpenTwiceSame(t.rows, pos.symbol, ids);
  }

  /** A load lists every symbol once exactly when no symbol has two open rows. */
  lemma {:induction false} LoadListsOnceExactly(t: Tables, base: PortfolioState, ids: Reading)
    requires t.system.Some? && forall i :: 0 <= i < |t.rows| && t.rows[i].isOpen ==> IsUpper(t.rows[i].symbol)
    ensures DistinctSymbols(Loaded(t, base).positions) <==> Live.Once(TableOf(t.rows, ids))
  {
    hide Upper, OpenIds, TableOf, Live.OpenTwice, DistinctSymbols;
    var ps, open, table := Loaded(t, base).positions, OpenIds(t.rows), TableOf(t.rows, ids);
    OpenIdsAreOpen(t.rows);
    assert ps == Views(t.rows, open);
    if !DistinctSymbols(ps) {
      var a, b := SameSymbolOpen(t.rows, open);
      OpenTwiceSame(t.rows, t.rows[a].symbol, ids);
      assert Live.OpenTwice(table, t.rows[a].symbol);
    }
    if !Live.Once(table) {
      var s :| Live.OpenTwice(table, s);
      OpenTwiceSame(t.rows, s, ids);
      var a, b :| 0 <= a < b < |t.rows| && OpenFor(t.rows, s, a) && OpenFor(t.rows, s, b);
      OpenIsTwice(t.rows, open, a, b);
    }
  }

  lemma SameSymbolOpen(rows: seq<PositionRow>, open: seq<nat>) returns (a: nat, b: nat)
    requires forall k :: 0 <= k < |open| ==> open[k] < |rows| && rows[open[k]].isOpen && IsUpper(rows[open[k]].symbol)
    requires (forall j, k :: 0 <= j < k < |open| ==> open[j] < open[k]) && !DistinctSymbols(Views(rows, open))
    ensures a < b < |rows| && OpenFor(rows, rows[a].symbol, a) && OpenFor(rows, rows[a].symbol, b)
  {
    hide Upper;
    var ps := Views(rows, open);
    var j, k :| 0 <= j < k < |ps| && Upper(ps[j].symbol) == Upper(ps[k].symbol);
    a, b := open[j], open[k];
  }

  lemma OpenIsTwice(rows: seq<PositionRow>, open: seq<nat>, a: nat, b: nat)
    requires forall k :: 0 <= k < |open| ==> open[k] < |rows|
    requires a < b < |rows| && rows[a].symbol == rows[b].symbol && a in open && b in open
    ensures !DistinctSymbols(Views(rows, open))
  {
    hide Upper;
    var ps := Views(rows, open);
    var j :| 0 <= j < |open| && open[j] == a;
    var k :| 0 <= k < |open| && open[k] == b;
    assert ps[j].symbol == ps[k].symbol;
    assert Upper(ps[j].symbol) == Upper(ps[k].symbol);
  }

  // An input: ten shares with the stop `k1` are sold and the closing write fails; ten more are bought, with the
  // stop `k4`, and the process starts over.

  const FIRST := PositionView("INFY", 10.0, 100.0, 95.0, 120.0, "trend", 0.0, 0.5, "o0", "k1", Some(0))
  const SECOND := PositionView("INFY", 10.0, 100.0, 95.0, 120.0, "trend", 0.0, 0.5, "o3", "k4", None)

  function Holding10(positions: seq<PositionView>): PortfolioState {
    PortfolioState(1000.0, 1000.0, positions, 0.0, 0.0, 0.0, 1000.0, 0.0, 0, false, false, false)
  }

  function BeforeExit(): Tables { Tables(Some(FlushState(Holding10([FIRST]))), [RowOf(FIRST, 0.9)]) }

  /** The failed exit halts, the operator resumes, and the fill reports success: the symbol has two open rows, a
      load lists it twice, and the stale position comes first. */
  lemma FailedCloseDuplicates(ids: Reading, base: PortfolioState)
    ensures var (st1, t1, reply) := ExitStep(Holding10([FIRST]), BeforeExit(), "INFY", 100.0, "target", 0.0,
      Some(10.0), true, false);
            && reply == Booked(false) && st1.emergencyHalt && st1.positions == [] && t1 == BeforeExit()
            && var resumed := st1.(emergencyHalt := false, circuitBreaker := false, blackSwanMode := false);
            var (st2, t2, ok) := FillStep(resumed, t1, SECOND, 0.9, Stored, false);
            && ok && st2.positions == [SECOND.(dbId := Some(1))]
            && t2.rows == [RowOf(FIRST, 0.9), RowOf(SECOND, 0.9)]
            && TableOf(t2.rows, ids) == [Live.Stored("INFY", true, 10, ids("k1"), 95.0, 120.0),
              Live.Stored("INFY", true, 10, ids("k4"), 95.0, 120.0)]
            && Loaded(t2, base).positions == [FIRST, SECOND.(dbId := Some(1))]
            && IndexOf(Loaded(t2, base).positions, "INFY") == 0
  {
    hide ExitStep, FillStep, Loaded, IndexOf, TableOf;
    var booked := ExitFails();
    RowsRead(ids);
    FillStored(booked.(emergencyHalt := false, circuitBreaker := false, blackSwanMode := false));
    BothLoaded([RowOf(FIRST, 0.9), RowOf(SECOND, 0.9)], base);
    var resumed := booked.(emergencyHalt := false, circuitBreaker := false, blackSwanMode := false);
    var (_, t2, _) := FillStep(resumed, BeforeExit(), SECOND, 0.9, Stored, false);
    assert Loaded(t2, base).positions == [FIRST, SECOND.(dbId := Some(1))];
  }

  lemma ExitFails() returns (st1: PortfolioState)
    ensures st1.positions == [] && st1.emergencyHalt
    ensures ExitStep(Holding10([FIRST]), BeforeExit(), "INFY", 100.0, "target", 0.0, Some(10.0), true, false)
         == (st1, BeforeExit(), Booked(false))
  {
    hide Closed;
    Infy();
    var st := Holding10([FIRST]);
    assert Resolve(st, "INFY", Some(10.0)) == Target(0, 10.0);
    assert Reduce([FIRST], 0, 10.0) == [];
    st1 := Halted(AfterExit(st, 0, 10.0, 100.0, 0.0));
  }

  lemma FillStored(st: PortfolioState)
    requires st.positions == []
    ensures var (st2, t2, ok) := FillStep(st, BeforeExit(), SECOND, 0.9, Stored, false);
            && ok && st2.positions == [SECOND.(dbId := Some(1))] && t2.rows == [RowOf(FIRST, 0.9), RowOf(SECOND, 0.9)]
            && t2.system.Some?
  {
    hide FlushState, SyncRows;
    var placed := SECOND.(dbId := Some(1));
    assert AfterFill(st, SECOND).positions == [SECOND];
    assert Keyed(AfterFill(st, SECOND), 1).positions == [placed];
    assert BeforeExit().rows + [RowOf(SECOND, 0.9)] == [RowOf(FIRST, 0.9), RowOf(SECOND, 0.9)];
    SecondSynced();
  }

  lemma SecondSynced()
    ensures var rows := [RowOf(FIRST, 0.9), RowOf(SECOND, 0.9)];
            SyncRows(rows, [SECOND.(dbId := Some(1))]) == rows
  {
    var placed, rows := SECOND.(dbId := Some(1)), [RowOf(FIRST, 0.9), RowOf(SECOND, 0.9)];
    assert [placed][..0] == [] && SyncRows(rows, []) == rows;
    assert SyncRow(rows, placed) == rows;
  }

  lemma RowsRead(ids: Reading)
    ensures TableOf([RowOf(FIRST, 0.9), RowOf(SECOND, 0.9)], ids)
         == [Live.Stored("INFY", true, 10, ids("k1"), 95.0, 120.0),
           Live.Stored("INFY", true, 10, ids("k4"), 95.0, 120.0)]
  {
  }

  lemma Infy()
    ensures Upper("INFY") == "INFY"
  {
  }

  lemma BothLoaded(rows: seq<PositionRow>, base: PortfolioState)
    requires rows == [RowOf(FIRST, 0.9), RowOf(SECOND, 0.9)]
    ensures forall t: Tables :: t.system.Some? && t.rows == rows ==>
      Loaded(t, base).positions == [FIRST, SECOND.(dbId := Some(1))]
    ensures IndexOf([FIRST, SECOND.(dbId := Some(1))], "INFY") == 0
  {
    Infy();
    assert rows[..1][..0] == [] && OpenIds(rows[..1][..0]) == [];
    assert OpenIds(rows[..1]) == [0];
    assert OpenIds(rows) == [0, 1];
  }
}
