/** The positions the live protocol keeps, and their rows in the database. Nothing keeps a symbol to one open
    row, so a load may bring several positions of it. */
module LiveLedger {
  import opened Common
  import opened OrderBook

  /** A ledger position. Live quantities are whole shares; `row` is the key of its row, `next` the next
      position of the same symbol. Lookups by symbol find the first; only a load brings another. */
  datatype Position = Position(
    qty: nat, stop: Option<nat>, stopLoss: real, takeProfit: real, row: Option<nat>, next: Option<Position>)

  /** The first position of each symbol. */
  type Ledger = map<string, Position>

  /** A row of the position table, whose index is its key. */
  datatype Stored = Stored(symbol: string, open: bool, qty: nat, stop: Option<nat>, stopLoss: real, takeProfit: real)

  type Table = seq<Stored>

  function Held(l: Ledger, s: string): nat { if s in l then l[s].qty else 0 }

  function StopOf(l: Ledger, s: string): Option<nat> { if s in l then l[s].stop else None }

  predicate Doubled(l: Ledger, s: string) { s in l && l[s].next.Some? }

  /** The symbols listed more than once. */
  function Doubles(l: Ledger): set<string> { set s | s in l && Doubled(l, s) }

  // ---- the positions of a symbol ----

  /** What all positions of a symbol hold together. */
  function Total(p: Position): nat { p.qty + (if p.next.Some? then Total(p.next.value) else 0) }

  function Stake(l: Ledger, s: string): nat { if s in l then Total(l[s]) else 0 }

  function Last(p: Position): Position { if p.next.Some? then Last(p.next.value) else p }

  /** The position with the key. */
  function Find(p: Position, row: Option<nat>): Option<Position> {
    if p.row == row then Some(p) else if p.next.Some? then Find(p.next.value, row) else None
  }

  function Keys(p: Position): set<Option<nat>> { {p.row} + (if p.next.Some? then Keys(p.next.value) else {}) }

  /** Every position, by symbol and key. */
  function Lots(l: Ledger): set<(string, Option<nat>)> { set s, row | s in l && row in Keys(l[s]) :: (s, row) }

  function PositionAt(l: Ledger, s: string, row: Option<nat>): Option<Position> {
    if s in l then Find(l[s], row) else None
  }

  predicate SellOrder(b: Book, s: string, k: nat) {
    k < |b.orders| && b.orders[k].side.Sell? && b.orders[k].symbol == s
  }

  /** Positions are nonempty, tracked stops are sell orders of their symbol, and a key leads to one position. */
  ghost predicate FitPosition(p: Position, s: string, b: Book) {
    && 0 < p.qty && (p.stop.Some? ==> SellOrder(b, s, p.stop.value))
    && (p.next.Some? ==> p.row !in Keys(p.next.value) && FitPosition(p.next.value, s, b))
  }

  ghost predicate FitLedger(l: Ledger, b: Book) { forall s :: s in l ==> FitPosition(l[s], s, b) }

  ghost predicate FitTable(t: Table, b: Book) {
    forall i :: 0 <= i < |t| && t[i].open ==>
      0 < t[i].qty && (t[i].stop.Some? ==> SellOrder(b, t[i].symbol, t[i].stop.value))
  }

  lemma {:induction false} FoundFits(p: Position, s: string, b: Book, row: Option<nat>)
    requires FitPosition(p, s, b) && Find(p, row).Some?
    ensures FitPosition(Find(p, row).value, s, b) && Find(p, row).value.row == row
    ensures Find(p, row).value.qty <= Total(p)
  {
    if p.row != row { FoundFits(p.next.value, s, b, row); }
  }

  lemma {:induction false} LastFits(p: Position, s: string, b: Book)
    requires FitPosition(p, s, b)
    ensures FitPosition(Last(p), s, b) && Last(p).next.None?
    ensures Find(p, Last(p).row) == Some(Last(p)) && Last(p).row in Keys(p)
  {
    if p.next.Some? { LastFits(p.next.value, s, b); }
  }

  // ---- booking ----

  /** The ledger with a fill of `f` shares booked: it comes off the first position of `s`, and when that is
      gone the next one takes its place. */
  function Reduced(l: Ledger, s: string, f: nat): Ledger
    requires f <= Held(l, s)
  {
    if f == 0 then l
    else if f < l[s].qty then l[s := l[s].(qty := l[s].qty - f)]
    else if l[s].next.Some? then l[s := l[s].next.value]
    else l - {s}
  }

  lemma ReducedAt(l: Ledger, s: string, f: nat)
    requires f <= Held(l, s)
    ensures Stake(Reduced(l, s, f), s) == Stake(l, s) - f
    ensures forall t :: t != s ==> (t in Reduced(l, s, f) <==> t in l) && (t in l ==> Reduced(l, s, f)[t] == l[t])
    ensures forall t :: Doubled(Reduced(l, s, f), t) ==> Doubled(l, t)
  {
  }

  lemma ReducedFits(l: Ledger, s: string, f: nat, b: Book)
    requires f <= Held(l, s) && FitLedger(l, b)
    ensures FitLedger(Reduced(l, s, f), b)
  {
  }

  // ---- what the repository writes ----

  /** A save writes the open row of every position that has one; it opens and closes none. */
  function Synced(t: Table, l: Ledger): (r: Table)
    ensures |r| == |t|
  {
    seq(|t|, i requires 0 <= i < |t| => SyncedRow(t[i], i, l))
  }

  function SyncedRow(r: Stored, i: nat, l: Ledger): Stored {
    var p := PositionAt(l, r.symbol, Some(i));
    if r.open && p.Some? then r.(qty := p.value.qty, stop := p.value.stop) else r
  }

  /** Every symbol with an open row. */
  function OpenSymbols(t: Table): set<string> { set i | 0 <= i < |t| && t[i].open :: t[i].symbol }

  predicate HasOpen(t: Table, s: string) { s in OpenSymbols(t) }

  predicate OpenTwice(t: Table, s: string) {
    exists i, j :: 0 <= i < j < |t| && t[i].open && t[j].open && t[i].symbol == s && t[j].symbol == s
  }

  /** No symbol has two open rows. */
  ghost predicate Once(t: Table) { forall s :: !OpenTwice(t, s) }

  /** The only open row of the symbol; no row and several rows both fail. */
  function OnlyOpen(t: Table, s: string): Option<nat> {
    if exists i :: 0 <= i < |t| && t[i].open && t[i].symbol == s && !OpenTwice(t, s)
    then
      var i :| 0 <= i < |t| && t[i].open && t[i].symbol == s && !OpenTwice(t, s);
      Some(i)
    else None
  }

  /** The closing write: the only open row of `s` takes quantity and stop of the ledger's position, or is
      closed with it. */
  function Rebooked(t: Table, l: Ledger, s: string): Table {
    var i := OnlyOpen(t, s);
    if i.None? then t
    else t[i.value := if s in l then t[i.value].(qty := l[s].qty, stop := l[s].stop) else t[i.value].(open := false)]
  }

  function RowOf(s: string, p: Position): Stored { Stored(s, true, p.qty, p.stop, p.stopLoss, p.takeProfit) }

  /** A new row at the end, the others written along. */
  function Recorded(t: Table, l: Ledger, s: string): Table
    requires s in l
  {
    Synced(t + [RowOf(s, l[s])], l)
  }

  /** The place of a key whose transaction rolled back. */
  const VOID := Stored("", false, 0, None, 0.0, 0.0)

  function Voided(t: Table): Table { t + [VOID] }

  // ---- reading the table back ----

  /** The open rows of `s` from `i` on, as positions. */
  function Chain(t: Table, s: string, i: nat): Option<Position>
    decreases |t| - i
  {
    if |t| <= i then None
    else if t[i].open && t[i].symbol == s
    then Some(Position(t[i].qty, t[i].stop, t[i].stopLoss, t[i].takeProfit, Some(i), Chain(t, s, i + 1)))
    else Chain(t, s, i + 1)
  }

  /** `load`: every open row becomes a position. */
  function Loaded(t: Table): Ledger {
    map s | s in OpenSymbols(t) && Chain(t, s, 0).Some? :: Chain(t, s, 0).value
  }

  /** The database has just the ledger's position of `s`, in quantity and stop, or neither has one. */
  predicate Agree(t: Table, l: Ledger, s: string) {
    var m := Loaded(t);
    && (s in m <==> s in l)
    && (s in l ==> m[s].qty == l[s].qty && m[s].stop == l[s].stop && m[s].next.None? && l[s].next.None?)
  }

  lemma {:induction false} ChainFinds(t: Table, s: string, i: nat)
    ensures Chain(t, s, i).None? <==> forall j :: i <= j < |t| ==> !(t[j].open && t[j].symbol == s)
    ensures Chain(t, s, i).Some? && Chain(t, s, i).value.next.Some? <==>
      exists j, k :: i <= j < k < |t| && t[j].open && t[k].open && t[j].symbol == s && t[k].symbol == s
    ensures forall j :: i <= j < |t| && t[j].open && t[j].symbol == s ==>
      Find(Chain(t, s, i).value, Some(j))
        == Some(Position(t[j].qty, t[j].stop, t[j].stopLoss, t[j].takeProfit, Some(j), Chain(t, s, j + 1)))
    decreases |t| - i
  {
    if i < |t| {
      ChainFinds(t, s, i + 1);
    }
  }

  /** A symbol is loaded exactly when it has an open row, and twice exactly when it has two. */
  lemma LoadedAt(t: Table, s: string)
    ensures s in Loaded(t) <==> HasOpen(t, s)
    ensures Doubled(Loaded(t), s) <==> OpenTwice(t, s)
    ensures forall j :: 0 <= j < |t| && t[j].open && t[j].symbol == s ==>
      s in Loaded(t) && Find(Loaded(t)[s], Some(j)).Some?
  {
    ChainFinds(t, s, 0);
    if HasOpen(t, s) { assert s in OpenSymbols(t); }
  }

  lemma {:induction false} ChainFits(t: Table, s: string, i: nat, b: Book)
    requires FitTable(t, b)
    ensures Chain(t, s, i).Some? ==> FitPosition(Chain(t, s, i).value, s, b)
    ensures Chain(t, s, i).Some? ==> forall row :: row in Keys(Chain(t, s, i).value) ==> row.Some? && i <= row.value
    decreases |t| - i
  {
    if i < |t| { ChainFits(t, s, i + 1, b); }
  }

  lemma LoadedFits(t: Table, b: Book)
    requires FitTable(t, b)
    ensures FitLedger(Loaded(t), b)
  {
    forall s | s in Loaded(t)
      ensures FitPosition(Loaded(t)[s], s, b)
    {
      ChainFits(t, s, 0, b);
    }
  }

  // ---- saves ----

  lemma SyncedOpens(t: Table, l: Ledger)
    ensures forall i :: 0 <= i < |t| ==> Synced(t, l)[i] == SyncedRow(t[i], i, l)
    ensures OpenSymbols(Synced(t, l)) == OpenSymbols(t)
    ensures forall s :: OpenTwice(Synced(t, l), s) <==> OpenTwice(t, s)
  {
    hide PositionAt;
    var r := Synced(t, l);
    assert forall i :: 0 <= i < |t| ==> r[i].open == t[i].open && r[i].symbol == t[i].symbol;
    forall s
      ensures s in OpenSymbols(r) <==> s in OpenSymbols(t)
      ensures OpenTwice(r, s) <==> OpenTwice(t, s)
    {
      if s in OpenSymbols(r) {
        var i :| 0 <= i < |r| && r[i].open && r[i].symbol == s;
        assert t[i].open && t[i].symbol == s;
      }
      if s in OpenSymbols(t) {
        var i :| 0 <= i < |t| && t[i].open && t[i].symbol == s;
        assert r[i].open && r[i].symbol == s;
      }
    }
  }

  lemma SyncedTwice(t: Table, l: Ledger)
    ensures Synced(Synced(t, l), l) == Synced(t, l)
  {
    hide PositionAt;
  }

  lemma SyncedFits(t: Table, l: Ledger, b: Book)
    requires FitTable(t, b) && FitLedger(l, b)
    ensures FitTable(Synced(t, l), b)
  {
    var r := Synced(t, l);
    forall i | 0 <= i < |r| && r[i].open
      ensures 0 < r[i].qty && (r[i].stop.Some? ==> SellOrder(b, r[i].symbol, r[i].stop.value))
    {
      var s := t[i].symbol;
      if PositionAt(l, s, Some(i)).Some? { FoundFits(l[s], s, b, Some(i)); }
    }
  }

  lemma RebookedFits(t: Table, l: Ledger, s: string, b: Book)
    requires FitTable(t, b) && FitLedger(l, b)
    ensures FitTable(Rebooked(t, l, s), b)
  {
  }

  lemma RebookedOpens(t: Table, l: Ledger, s: string)
    ensures forall u :: OpenTwice(Rebooked(t, l, s), u) <==> OpenTwice(t, u)
    ensures OpenSymbols(Rebooked(t, l, s)) <= OpenSymbols(t)
  {
    var r := Rebooked(t, l, s);
    assert forall i :: 0 <= i < |t| ==> r[i].symbol == t[i].symbol && (r[i].open ==> t[i].open);
    forall u
      ensures OpenTwice(r, u) <==> OpenTwice(t, u)
    {
      if OpenTwice(t, u) {
        var i, j :| 0 <= i < j < |t| && t[i].open && t[j].open && t[i].symbol == u && t[j].symbol == u;
        assert r[i].open && r[j].open;
      }
    }
  }

  lemma RecordedFits(t: Table, l: Ledger, s: string, b: Book)
    requires FitTable(t, b) && FitLedger(l, b) && s in l
    ensures FitTable(Recorded(t, l, s), b)
  {
    var r := t + [RowOf(s, l[s])];
    SyncedFits(r, l, b);
  }

  lemma AddedOpens(t: Table, row: Stored, u: string)
    ensures OpenTwice(t + [row], u) <==> OpenTwice(t, u) || (row.open && u == row.symbol && HasOpen(t, u))
    ensures HasOpen(t + [row], u) <==> HasOpen(t, u) || (row.open && u == row.symbol)
  {
    var r := t + [row];
    assert forall i :: 0 <= i < |t| ==> r[i] == t[i];
    assert r[|t|] == row;
    if OpenTwice(t, u) {
      var i, j :| 0 <= i < j < |t| && t[i].open && t[j].open && t[i].symbol == u && t[j].symbol == u;
      assert r[i].open && r[j].open;
    }
    if HasOpen(t, u) {
      var i :| 0 <= i < |t| && t[i].open && t[i].symbol == u;
      assert r[i].open && r[i].symbol == u;
    }
  }

  lemma VoidedFits(t: Table, b: Book)
    requires FitTable(t, b)
    ensures FitTable(Voided(t), b)
    ensures forall u :: (OpenTwice(Voided(t), u) <==> OpenTwice(t, u)) && (HasOpen(Voided(t), u) <==> HasOpen(t, u))
  {
    forall u
      ensures OpenTwice(Voided(t), u) <==> OpenTwice(t, u)
      ensures HasOpen(Voided(t), u) <==> HasOpen(t, u)
    {
      AddedOpens(t, VOID, u);
    }
  }

  /** A fill stored for a symbol leaves every symbol with at most one open row exactly when it was so before
      and the symbol had none. */
  lemma RecordedOnceExactly(t: Table, l: Ledger, s: string)
    requires s in l
    ensures Once(Recorded(t, l, s)) <==> Once(t) && !HasOpen(t, s)
  {
    hide OpenTwice, HasOpen, Recorded;
    var out := Recorded(t, l, s);
    RecordedOpens(t, l, s);
    if Once(out) { assert !OpenTwice(out, s); }
    if Once(t) && !HasOpen(t, s) { assert forall u :: !OpenTwice(out, u); }
  }

  lemma RecordedOpens(t: Table, l: Ledger, s: string)
    requires s in l
    ensures forall u :: OpenTwice(Recorded(t, l, s), u) <==> OpenTwice(t, u) || (u == s && HasOpen(t, s))
  {
    hide Synced;
    var r := t + [RowOf(s, l[s])];
    SyncedOpens(r, l);
    forall u
      ensures OpenTwice(r, u) <==> OpenTwice(t, u) || (u == s && HasOpen(t, s))
    {
      AddedOpens(t, RowOf(s, l[s]), u);
    }
  }

  /** A load lists every symbol once exactly when none has two open rows. */
  lemma LoadsOnceExactly(t: Table)
    ensures Doubles(Loaded(t)) == {} <==> Once(t)
  {
    hide Loaded, OpenTwice;
    forall s
      ensures s in Doubles(Loaded(t)) <==> OpenTwice(t, s)
    {
      LoadedAt(t, s);
    }
  }

  /** A save does not change which row is the only one. */
  lemma OnlyOpenSynced(t: Table, l: Ledger, s: string)
    ensures OnlyOpen(Synced(t, l), s).Some? <==> OnlyOpen(t, s).Some?
  {
    hide PositionAt, OpenTwice;
    SyncedOpens(t, l);
    var r := Synced(t, l);
    assert forall i :: 0 <= i < |t| ==> r[i].open == t[i].open && r[i].symbol == t[i].symbol;
  }

  lemma OnlyOpenOnce(t: Table, s: string)
    ensures OnlyOpen(t, s).Some? ==> !OpenTwice(t, s)
  {
    hide OpenTwice;
  }

  // ---- agreement ----

  /** Agreement is about the only open row. */
  lemma AgreeExactly(t: Table, l: Ledger, s: string)
    ensures Agree(t, l, s) <==>
      if s in l then
        && l[s].next.None? && HasOpen(t, s) && !OpenTwice(t, s)
        && (forall i :: 0 <= i < |t| && t[i].open && t[i].symbol == s ==>
          t[i].qty == l[s].qty && t[i].stop == l[s].stop)
      else !HasOpen(t, s)
  {
    LoadedAt(t, s);
    ChainFinds(t, s, 0);
    if HasOpen(t, s) && !OpenTwice(t, s) {
      var i :| 0 <= i < |t| && t[i].open && t[i].symbol == s;
      OnlyChain(t, s, 0, i);
    }
  }

  lemma {:induction false} OnlyChain(t: Table, s: string, i: nat, j: nat)
    requires i <= j < |t| && t[j].open && t[j].symbol == s && forall k :: i <= k < j ==>
      !(t[k].open && t[k].symbol == s)
    ensures Chain(t, s, i) == Some(Position(t[j].qty, t[j].stop, t[j].stopLoss, t[j].takeProfit, Some(j),
      Chain(t, s, j + 1)))
    decreases j - i
  {
    if i < j { OnlyChain(t, s, i + 1, j); }
  }

  lemma SyncedAgrees(t: Table, l: Ledger, s: string)
    ensures Agree(t, l, s) ==> Agree(Synced(t, l), l, s)
  {
    hide Agree, Synced, OpenTwice, OpenSymbols;
    AgreeExactly(t, l, s);
    AgreeExactly(Synced(t, l), l, s);
    SyncedOpens(t, l);
    if Agree(t, l, s) && s in l { OneFound(l[s]); }
  }

  lemma OneFound(p: Position)
    requires p.next.None?
    ensures forall row :: Find(p, row).Some? ==> Find(p, row).value == p
  {
  }

  /** A closing write that finds its row leaves the database agreeing, unless the symbol is listed twice. */
  lemma RebookedAgrees(t: Table, l: Ledger, s: string)
    requires OnlyOpen(t, s).Some? && !Doubled(l, s)
    ensures Agree(Rebooked(t, l, s), l, s)
  {
    hide Agree;
    var r := Rebooked(t, l, s);
    AgreeExactly(r, l, s);
    var i := OnlyOpen(t, s).value;
    assert forall j :: 0 <= j < |t| && t[j].open && t[j].symbol == s ==> j == i by {
      forall j | 0 <= j < |t| && t[j].open && t[j].symbol == s
        ensures j == i
      {
        assert j < i || i < j ==> OpenTwice(t, s);
      }
    }
    if s in l { assert r[i].open && r[i].symbol == s; }
  }

  /** A stored fill leaves the database agreeing about its symbol exactly when it had no open row of it. */
  lemma RecordedAgreesExactly(t: Table, l: Ledger, s: string)
    requires s in l && l[s].next.None? && l[s].row == Some(|t|)
    ensures Agree(Recorded(t, l, s), l, s) <==> !HasOpen(t, s)
  {
    hide Agree;
    var r, n := t + [RowOf(s, l[s])], |t|;
    var out := Recorded(t, l, s);
    AgreeExactly(out, l, s);
    SyncedOpens(r, l);
    AddedOpens(t, RowOf(s, l[s]), s);
    assert out[n] == SyncedRow(r[n], n, l);
    if HasOpen(t, s) {
      assert OpenTwice(r, s);
    } else {
      assert forall i :: 0 <= i < |t| ==> r[i] == t[i];
      NotTwice(t, s);
      assert forall i :: 0 <= i < |out| && out[i].open && out[i].symbol == s ==> i == n;
    }
  }

  lemma NotTwice(t: Table, s: string)
    ensures OpenTwice(t, s) ==> HasOpen(t, s)
  {
  }
}
