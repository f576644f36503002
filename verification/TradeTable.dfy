/** The trade-record table: one row per client order id, and the queries the order protocol makes. */
module TradeTable {
  import opened Common
  import opened OrderBook

  /** Client order ids: an entry's bucketed key, an exit's random id, an exit's residual protection,
      and the empty id. */
  datatype RowId = EntryRow(key: string) | ExitRow(n: nat) | ResidualRow(n: nat) | NoRow

  datatype RowStatus = Pending | InSubmission | Unclear | Bought | StopPlaced | Declined | Errored | Closed

  datatype Row = Row(symbol: string, side: Side, status: RowStatus, created: nat)

  type Rows = map<RowId, Row>

  /** `pending`, `submitted` or `unknown`. */
  predicate Unresolved(r: Row) { r.status == Pending || r.status == InSubmission || r.status == Unclear }

  /** The statuses `open_trades` selects. */
  predicate OpenRow(r: Row) { Unresolved(r) || r.status == Bought || r.status == StopPlaced }

  predicate AnyUnresolved(rows: Rows) { exists id :: id in rows && Unresolved(rows[id]) }

  predicate UnresolvedExit(rows: Rows, s: string) {
    exists id :: id in rows && PendingExit(rows[id], s)
  }

  predicate PendingExit(r: Row, s: string) { r.symbol == s && r.side == Sell && Unresolved(r) }

  /** Rows that must not be unresolved together: two entries, or two exits of a symbol. */
  predicate Rivals(x: Row, y: Row) { x.side == y.side && (x.side == Buy || x.symbol == y.symbol) }

  /** At most one unresolved entry in all, and at most one unresolved exit a symbol. */
  ghost predicate OneUnresolved(rows: Rows) {
    forall a, b :: a in rows && b in rows && Unresolved(rows[a]) && Unresolved(rows[b]) && Rivals(rows[a], rows[b]) ==>
      a == b
  }

  function Created(rows: Rows, id: RowId, symbol: string, side: Side, now: nat): Rows {
    if id in rows then rows else rows[id := Row(symbol, side, Pending, now)]
  }

  function Updated(rows: Rows, id: RowId, status: RowStatus): Rows {
    if id in rows then rows[id := rows[id].(status := status)] else rows
  }

  /** An open purchase of `s`. */
  predicate OpenEntry(r: Row, s: string) { r.symbol == s && r.side == Buy && OpenRow(r) }

  ghost predicate LatestOpen(rows: Rows, id: RowId, s: string) {
    id in rows && OpenEntry(rows[id], s) && forall k :: k in rows && OpenEntry(rows[k], s) ==>
      rows[k].created <= rows[id].created
  }

  /** The latest open purchase of `s` was closed, or there was none. */
  ghost predicate ClosedLatest(rows: Rows, rows': Rows, s: string) {
    if forall id :: id in rows ==> !OpenEntry(rows[id], s) then rows' == rows
    else exists id :: LatestOpen(rows, id, s) && rows' == Updated(rows, id, Closed)
  }

  class TradeRepository {
    var rows: Rows
    var clock: nat

    constructor ()
      ensures rows == map[]
    {
      rows, clock := map[], 0;
    }

    /** A row that exists already is left alone. */
    method CreatePending(id: RowId, symbol: string, side: Side)
      modifies this
      ensures rows == Created(old(rows), id, symbol, side, old(clock))
    {
      if id in rows { return; }
      rows := rows[id := Row(symbol, side, Pending, clock)];
      clock := clock + 1;
    }

    /** A row that does not exist is not created. */
    method UpdateStatus(id: RowId, status: RowStatus)
      modifies this`rows
      ensures rows == Updated(old(rows), id, status)
    {
      if id !in rows { return; }
      rows := rows[id := rows[id].(status := status)];
    }

    /** The most recently created open purchase of a symbol. */
    method GetOpenBySymbol(s: string) returns (found: Option<RowId>)
      ensures found.None? ==> forall id :: id in rows ==> !OpenEntry(rows[id], s)
      ensures found.Some? ==> found.value in rows && OpenEntry(rows[found.value], s)
      ensures found.Some? ==> forall id :: id in rows && OpenEntry(rows[id], s) ==>
        rows[id].created <= rows[found.value].created
    {
      found := None;
      var left := rows.Keys;
      while left != {}
        invariant left <= rows.Keys
        invariant found.None? ==> forall id :: id in rows && id !in left ==> !OpenEntry(rows[id], s)
        invariant found.Some? ==> found.value in rows && OpenEntry(rows[found.value], s)
        invariant found.Some? ==> forall id :: id in rows && id !in left && OpenEntry(rows[id], s) ==>
                                    rows[id].created <= rows[found.value].created
        decreases |left|
      {
        var id :| id in left;
        left := left - {id};
        if OpenEntry(rows[id], s) && (found.None? || rows[found.value].created < rows[id].created) {
          found := Some(id);
        }
      }
    }
  }

  // ---- bounded uncertainty, one write at a time ----

  /** A new row keeps the bound exactly when no rival of it is unresolved. */
  lemma CreateKeepsOne(rows: Rows, id: RowId, symbol: string, side: Side, now: nat)
    requires OneUnresolved(rows)
    ensures OneUnresolved(Created(rows, id, symbol, side, now)) <==>
      (id in rows || forall k :: k in rows && Rivals(rows[k], Row(symbol, side, Pending, now)) ==> !Unresolved(rows[k]))
  {
    var rows' := Created(rows, id, symbol, side, now);
    if id !in rows && OneUnresolved(rows') {
      forall k | k in rows && Rivals(rows[k], rows'[id])
        ensures !Unresolved(rows[k])
      {
        assert rows'[k] == rows[k];
      }
    }
  }
}
