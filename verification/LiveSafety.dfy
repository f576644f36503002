/** What the live order protocol keeps, as predicates over a snapshot of ledger, trade rows and account,
    and the steps that keep it. */
module LiveSafety {
  import opened Common
  import opened OrderBook
  import opened Protection
  import opened TradeTable
  import opened Venue
  import opened LiveLedger

  /** A snapshot. `saved` is the position table in the database; `orphans` are sell orders that went out and
      that the ledger does not know, or lost; `exposed` are symbols whose stop is in doubt with the degraded
      flag down; `overlaid` are symbols a fill was stored for over an open row. */
  datatype World = World(
    book: Book,
    uncovered: iset<string>,
    told: map<nat, OrderReport>,
    rows: Rows,
    ledger: Ledger,
    saved: Table,
    degraded: bool,
    nextExit: nat,
    orphans: set<nat>,
    exposed: set<string>,
    overlaid: set<string>
  )

  function AsSet(k: Option<nat>): set<nat> { if k.Some? then {k.value} else {} }

  function StopSet(l: Ledger, s: string): set<nat> { AsSet(StopOf(l, s)) }

  predicate OrderOf(b: Book, s: string, k: nat) { k < |b.orders| && b.orders[k].symbol == s }

  // ---- no oversell ----

  /** The broker accepted a sell of `s` that the ledger does not know. */
  ghost predicate HasOrphan(w: World, s: string) { exists k :: k in w.orphans && SellOrder(w.book, s, k) }

  /** Such an order can still sell. */
  ghost predicate OrphanWorks(w: World, s: string) {
    exists k :: k in w.orphans && SellOrder(w.book, s, k) && Open(w.book.orders[k]) != 0
  }

  /** Orphans aside, either nothing but the orders `these` offers shares of `s`, or what the account
      reaches without them covers `n` shares. */
  ghost predicate Backed(w: World, s: string, n: nat, these: set<nat>) {
    || s in w.uncovered
    || Offered(w.book.orders, s, these + w.orphans) == 0
    || n <= Reach(w.book, s, these)
  }

  /** The whole ledger position of `s` is backed without its tracked stop. If `s` is listed more than once,
      nothing but that stop and orphans offers shares of it. */
  ghost predicate Clear(w: World, s: string) {
    && Backed(w, s, Held(w.ledger, s), StopSet(w.ledger, s))
    && (Doubled(w.ledger, s) ==> Alone(w, s, StopSet(w.ledger, s)))
  }

  /** Orphans aside, nothing but the orders `these` offers shares of `s`. */
  ghost predicate Alone(w: World, s: string, these: set<nat>) {
    s in w.uncovered || Offered(w.book.orders, s, these + w.orphans) == 0
  }

  /** Unless it was uncovered before, `s` is covered, and will be after the next exit: it is clear to go,
      or held back by an unresolved one. */
  ghost predicate KeptAt(w: World, s: string) {
    s in w.uncovered || (0 <= Cover(w.book, s) && (UnresolvedExit(w.rows, s) || Clear(w, s)))
  }

  /** Only a symbol with an orphan was ever uncovered. */
  ghost predicate Traced(w: World) { forall s :: s in w.uncovered ==> HasOrphan(w, s) }

  ghost predicate Safe(w: World) { Traced(w) && forall s :: KeptAt(w, s) }

  ghost predicate SafeElsewhere(w: World, s: string) { Traced(w) && forall t :: t != s ==> KeptAt(w, t) }

  /** The account covers every working sell of `s`, and the next exit of it may go out or is held back. */
  ghost predicate SafeAt(w: World, s: string) {
    && 0 <= Cover(w.book, s)
    && (UnresolvedExit(w.rows, s)
        || Offered(w.book.orders, s, StopSet(w.ledger, s)) == 0
        || Held(w.ledger, s) <= Reach(w.book, s, StopSet(w.ledger, s)))
  }

  /** A symbol without a working orphan is safe, also when its orphans have ended. */
  lemma SafeWithoutOrphan(w: World, s: string)
    requires Safe(w) && s !in w.uncovered && !OrphanWorks(w, s)
    ensures SafeAt(w, s)
    ensures forall moves :: 0 <= Net(ApplyAll(w.book, moves), s)
  {
    hide Reach, UnresolvedExit;
    assert KeptAt(w, s);
    RestingOrphans(w, s, StopSet(w.ledger, s));
    CoveredMeansNeverShort(w.book, s);
  }

  /** Orphans that rest offer nothing. */
  lemma RestingOrphans(w: World, s: string, these: set<nat>)
    requires !OrphanWorks(w, s)
    ensures Offered(w.book.orders, s, these + w.orphans) == Offered(w.book.orders, s, these)
  {
    var os := w.book.orders;
    forall k | k in these + w.orphans && k !in these && k < |os|
      ensures SellOpen(os[k], s) == 0
    {
      assert k in w.orphans;
      assert SellOpen(os[k], s) != 0 ==> SellOrder(w.book, s, k);
    }
    SkippingIdle(os, s, these, these + w.orphans);
  }

  // ---- protected or degraded ----

  /** The report confirms a working stop for exactly `qty` shares of `s`. */
  predicate Confirmed(r: OrderReport, s: string, qty: nat) {
    StopProblem(r, s, qty as real, r.product, r.exchange) == NoProblem
  }

  lemma PassingIsConfirmed(r: OrderReport, s: string, qty: nat, product: string, exchange: string)
    requires StopProblem(r, s, qty as real, product, exchange) == NoProblem
    ensures Confirmed(r, s, qty)
  {
  }

  /** The last report about the position's tracked stop confirmed it for the full quantity. */
  predicate StopConfirmed(told: map<nat, OrderReport>, s: string, p: Position) {
    p.stop.Some? && p.stop.value in told && Confirmed(told[p.stop.value], s, p.qty)
  }

  /** The position is the only one of its symbol, and its stop is confirmed. */
  predicate ProtectedAt(w: World, s: string) {
    s in w.ledger ==> w.ledger[s].next.None? && StopConfirmed(w.told, s, w.ledger[s])
  }

  ghost predicate Protected(w: World) {
    w.degraded || forall s :: s in w.ledger ==> s in w.exposed || ProtectedAt(w, s)
  }

  ghost predicate ProtectedElsewhere(w: World, s: string) {
    w.degraded || forall t :: t in w.ledger && t != s ==> t in w.exposed || ProtectedAt(w, t)
  }

  // ---- well-formedness ----

  predicate FitRow(id: RowId, r: Row, nextExit: nat) {
    match id
    case EntryRow(_) => r.side == Buy
    case ExitRow(n) => r.side == Sell && n < nextExit
    case _ => false
  }

  /** Also in the database; orphans exist, and exit rows are numbered below `nextExit`. A symbol listed twice
      has two open rows, one of them stored over another, and counts as exposed. */
  ghost predicate Fit(w: World) {
    && FitLedger(w.ledger, w.book) && FitTable(w.saved, w.book)
    && Existing(w.book, w.orphans)
    && (forall id :: id in w.rows ==> FitRow(id, w.rows[id], w.nextExit))
    && FitDoubles(w.ledger, w.saved, w.exposed, w.overlaid)
  }

  ghost predicate FitDoubles(l: Ledger, t: Table, exposed: set<string>, overlaid: set<string>) {
    && (forall s :: Doubled(l, s) ==> OpenTwice(t, s) && s in exposed)
    && (forall s :: OpenTwice(t, s) ==> s in overlaid)
  }

  lemma DoublesStay(l: Ledger, t: Table, exposed: set<string>, overlaid: set<string>, l': Ledger, t': Table)
    requires FitDoubles(l, t, exposed, overlaid) && (forall s :: Doubled(l', s) ==> Doubled(l, s))
    requires t' == t || t' == Synced(t, l) || t' == Synced(t, l')
    ensures FitDoubles(l', t', exposed, overlaid)
  {
    hide Synced, OpenTwice, HasOpen;
    SyncedOpens(t, l);
    SyncedOpens(t, l');
  }

  lemma {:induction false} PositionStaysFit(p: Position, s: string, b: Book, b': Book)
    requires FitPosition(p, s, b) && Grown(b, b')
    ensures FitPosition(p, s, b')
  {
    if p.stop.Some? { assert OrderLater(b.orders[p.stop.value], b'.orders[p.stop.value]); }
    if p.next.Some? { PositionStaysFit(p.next.value, s, b, b'); }
  }

  lemma LedgerStaysFit(l: Ledger, b: Book, b': Book)
    requires FitLedger(l, b) && Grown(b, b')
    ensures FitLedger(l, b')
  {
    hide FitPosition, Grown;
    forall t | t in l
      ensures FitPosition(l[t], t, b')
    {
      PositionStaysFit(l[t], t, b, b');
    }
  }

  lemma TableStaysFit(t: Table, b: Book, b': Book)
    requires FitTable(t, b) && Grown(b, b')
    ensures FitTable(t, b')
  {
    forall i | 0 <= i < |t| && t[i].open && t[i].stop.Some?
      ensures SellOrder(b', t[i].symbol, t[i].stop.value)
    {
      assert OrderLater(b.orders[t[i].stop.value], b'.orders[t[i].stop.value]);
    }
  }

  // ---- what a step on one symbol leaves alone ----

  /** No order is forgotten, and each moved only forward. */
  ghost predicate Grown(b: Book, b': Book) {
    |b.orders| <= |b'.orders| && forall i :: 0 <= i < |b.orders| ==> OrderLater(b.orders[i], b'.orders[i])
  }

  ghost predicate Existing(b: Book, these: set<nat>) { forall k :: k in these ==> k < |b.orders| }

  /** `b'` may follow from `b` by market moves and new orders of `s`. */
  ghost predicate Onward(b: Book, b': Book, s: string) {
    && Grown(b, b')
    && (forall t, these: set<nat> {:trigger Reach(b, t, these)} {:trigger Reach(b', t, these)} ::
          t != s && Existing(b, these) ==> Reach(b, t, these) <= Reach(b', t, these))
    && (forall t, these: set<nat> {:trigger Offered(b'.orders, t, these)} ::
          t != s && Existing(b, these) ==> Offered(b'.orders, t, these) <= Offered(b.orders, t, these))
  }

  lemma LaterIsOnward(b: Book, b': Book, s: string)
    requires Later(b, b')
    ensures Onward(b, b', s)
  {
    hide Reach, Spare, Offered;
  }

  lemma OnwardRefl(b: Book, s: string)
    ensures Onward(b, b, s)
  {
    hide Reach, Offered;
  }

  lemma SubmitIsOnward(b: Book, s: string, side: Side, qty: nat)
    ensures Onward(b, Submitted(b, s, side, qty), s)
  {
    hide Reach, Offered;
    var b' := Submitted(b, s, side, qty);
    forall t, these: set<nat> | t != s && Existing(b, these)
      ensures Reach(b, t, these) <= Reach(b', t, these)
      ensures Offered(b'.orders, t, these) <= Offered(b.orders, t, these)
    {
      SubmitAt(b, s, side, qty, t, these);
    }
  }

  lemma OnwardTrans(a: Book, b: Book, c: Book, s: string)
    requires Onward(a, b, s) && Onward(b, c, s)
    ensures Onward(a, c, s)
  {
    hide Reach, Offered;
    forall i | 0 <= i < |a.orders|
      ensures OrderLater(a.orders[i], c.orders[i])
    {
      assert OrderLater(a.orders[i], b.orders[i]) && OrderLater(b.orders[i], c.orders[i]);
    }
    forall t, these: set<nat> | t != s && Existing(a, these)
      ensures Reach(a, t, these) <= Reach(c, t, these) && Offered(c.orders, t, these) <= Offered(a.orders, t, these)
    {
      assert Existing(b, these);
      assert Reach(a, t, these) <= Reach(b, t, these) <= Reach(c, t, these);
      assert Offered(c.orders, t, these) <= Offered(b.orders, t, these) <= Offered(a.orders, t, these);
    }
  }

  /** A submission between market moves, seen from other symbols. */
  lemma SentIsOnward(b: Book, mid: Book, b': Book, s: string, side: Side, qty: nat, sent: bool)
    requires Later(b, mid) && Later(if sent then Submitted(mid, s, side, qty) else mid, b')
    ensures Onward(b, b', s)
  {
    hide Onward, Later;
    var taken := Submitted(mid, s, side, qty);
    LaterIsOnward(b, mid, s);
    if sent {
      SubmitIsOnward(mid, s, side, qty);
      LaterIsOnward(taken, b', s);
      OnwardTrans(mid, taken, b', s);
    } else {
      LaterIsOnward(mid, b', s);
    }
    OnwardTrans(b, mid, b', s);
  }

  /** A submission can uncover only the symbol it sells, and that only beyond its cover. */
  lemma SubmitBares(b: Book, s: string, side: Side, qty: nat)
    ensures forall t :: t in Bare(Submitted(b, s, side, qty)) ==> t == s || t in Bare(b)
    ensures s in Bare(Submitted(b, s, side, qty)) <==> (if side.Sell? then Cover(b, s) < qty else s in Bare(b))
  {
    hide Reach;
    forall t
      ensures Cover(Submitted(b, s, side, qty), t) == Cover(b, t) - (if side.Sell? && s == t then qty else 0)
    {
      SubmitCover(b, s, side, qty, t);
    }
  }

  /** Whatever else a step on `s` does, other symbols keep their positions, their stops' last reports,
      their unresolved exits and their cover, and a degraded flag stays up. */
  ghost predicate Apart(w: World, w': World, s: string) {
    && Onward(w.book, w'.book, s)
    && (forall t :: t != s ==> (t in w.ledger <==> t in w'.ledger))
    && (forall t :: t != s && t in w.ledger ==> w'.ledger[t] == w.ledger[t])
    && (w'.degraded || forall k :: k in w.told && !OrderOf(w'.book, s, k) ==> k in w'.told && w'.told[k] == w.told[k])
    && (w.degraded ==> w'.degraded)
    && (forall t :: t != s && UnresolvedExit(w.rows, t) ==> UnresolvedExit(w'.rows, t))
    && w.uncovered <= w'.uncovered <= w.uncovered + iset{s}
    && w.orphans <= w'.orphans && w'.exposed == w.exposed && w'.overlaid == w.overlaid
  }

  lemma OneStaysKept(w: World, w': World, s: string, t: string)
    requires Fit(w) && Apart(w, w', s) && t != s && KeptAt(w, t) && Bare(w'.book) <= w'.uncovered
    ensures KeptAt(w', t)
  {
    hide Reach, Offered, UnresolvedExit, Onward;
    if t !in w'.uncovered {
      assert t !in Bare(w'.book);
      if !UnresolvedExit(w'.rows, t) { ClearElsewhere(w, w', s, t); }
    }
  }

  lemma ClearElsewhere(w: World, w': World, s: string, t: string)
    requires Fit(w) && Apart(w, w', s) && t != s && t !in w.uncovered && Clear(w, t)
    ensures Clear(w', t)
  {
    hide Reach, Offered, UnresolvedExit;
    var k := StopSet(w.ledger, t);
    assert StopSet(w'.ledger, t) == k && Held(w'.ledger, t) == Held(w.ledger, t);
    assert Existing(w.book, k) && Existing(w.book, k + w.orphans);
    assert Reach(w.book, t, k) <= Reach(w'.book, t, k);
    assert Offered(w'.book.orders, t, k + w.orphans) <= Offered(w.book.orders, t, k + w.orphans);
    SkippingMore(w'.book.orders, t, k + w.orphans, k + w'.orphans);
  }

  lemma OrphanStays(w: World, w': World, s: string)
    requires HasOrphan(w, s) && Grown(w.book, w'.book) && w.orphans <= w'.orphans
    ensures HasOrphan(w', s)
  {
    var k :| k in w.orphans && SellOrder(w.book, s, k);
    assert OrderLater(w.book.orders[k], w'.book.orders[k]);
    assert SellOrder(w'.book, s, k);
  }

  lemma OthersStaySafe(w: World, w': World, s: string)
    requires Fit(w) && Apart(w, w', s) && SafeElsewhere(w, s) && Bare(w'.book) <= w'.uncovered
    requires s in w'.uncovered && s !in w.uncovered ==> HasOrphan(w', s)
    ensures SafeElsewhere(w', s)
  {
    hide KeptAt, Fit, HasOrphan, Bare;
    forall t | t != s
      ensures KeptAt(w', t)
    {
      OneStaysKept(w, w', s, t);
    }
    forall t | t in w'.uncovered
      ensures HasOrphan(w', t)
    {
      if t in w.uncovered { OrphanStays(w, w', t); }
    }
  }

  lemma OthersStayProtected(w: World, w': World, s: string)
    requires Fit(w) && Apart(w, w', s) && ProtectedElsewhere(w, s)
    ensures ProtectedElsewhere(w', s)
  {
    hide StopProblem, Reach, Offered, UnresolvedExit, Confirmed;
    forall t | t in w'.ledger && t != s && !w'.degraded
      ensures t in w'.exposed || ProtectedAt(w', t)
    {
      assert t in w.ledger && (t in w.exposed || ProtectedAt(w, t));
      if t !in w.exposed {
        var k := w.ledger[t].stop.value;
        assert SellOrder(w.book, t, k);
        assert OrderLater(w.book.orders[k], w'.book.orders[k]);
        assert !OrderOf(w'.book, s, k);
      }
    }
  }

  // ---- market moves between steps ----

  /** What other tasks do while one waits: a save may go through, and while the flag is up a retry may ask
      about stops. */
  ghost predicate OthersTurns(w: World, w': World) {
    && (w'.saved == w.saved || w'.saved == Synced(w.saved, w.ledger))
    && (w'.degraded || w'.told == w.told) && (w.degraded ==> w'.degraded)
  }

  lemma SafeStays(w: World, w': World)
    requires Safe(w) && w'.ledger == w.ledger && Later(w.book, w'.book)
    requires w'.uncovered == w.uncovered && w.orphans <= w'.orphans
    requires forall s :: UnresolvedExit(w.rows, s) ==> UnresolvedExit(w'.rows, s)
    ensures Safe(w')
  {
    hide Reach, Offered, UnresolvedExit, HasOrphan, Later;
    forall s
      ensures KeptAt(w', s)
    {
      assert KeptAt(w, s);
      CoverGrows(w.book, w'.book, s);
      if s !in w.uncovered && Clear(w, s) { ClearStays(w, w', s); }
    }
    forall s | s in w'.uncovered
      ensures HasOrphan(w', s)
    {
      LaterGrows(w.book, w'.book);
      OrphanStays(w, w', s);
    }
  }

  lemma LaterGrows(b: Book, b': Book)
    requires Later(b, b')
    ensures Grown(b, b') && |b'.orders| == |b.orders|
  {
    hide Reach, Offered, Spare;
  }

  lemma BackedStays(w: World, w': World, s: string, n: nat, k: set<nat>)
    requires Backed(w, s, n, k) && Later(w.book, w'.book)
    requires w.uncovered <= w'.uncovered && w.orphans <= w'.orphans
    ensures Backed(w', s, n, k)
  {
    hide Reach, Offered;
    assert Reach(w.book, s, k) <= Reach(w'.book, s, k);
    assert Offered(w'.book.orders, s, k + w.orphans) <= Offered(w.book.orders, s, k + w.orphans);
    SkippingMore(w'.book.orders, s, k + w.orphans, k + w'.orphans);
  }

  lemma AloneStays(w: World, w': World, s: string, k: set<nat>)
    requires Alone(w, s, k) && Later(w.book, w'.book)
    requires w.uncovered <= w'.uncovered && w.orphans <= w'.orphans
    ensures Alone(w', s, k)
  {
    hide Reach, Offered;
    assert Offered(w'.book.orders, s, k + w.orphans) <= Offered(w.book.orders, s, k + w.orphans);
    SkippingMore(w'.book.orders, s, k + w.orphans, k + w'.orphans);
  }

  lemma ClearStays(w: World, w': World, s: string)
    requires w'.ledger == w.ledger && Later(w.book, w'.book) && Clear(w, s)
    requires w.uncovered <= w'.uncovered && w.orphans <= w'.orphans
    ensures Clear(w', s)
  {
    hide Backed, Later, Alone;
    BackedStays(w, w', s, Held(w.ledger, s), StopSet(w.ledger, s));
    if Doubled(w.ledger, s) { AloneStays(w, w', s, StopSet(w.ledger, s)); }
  }

  lemma FitStays(w: World, w': World)
    requires Fit(w) && Grown(w.book, w'.book)
    requires w'.ledger == w.ledger && w'.rows == w.rows && w'.nextExit == w.nextExit && w'.orphans == w.orphans
    requires w'.exposed == w.exposed && w'.overlaid == w.overlaid
    requires w'.saved == w.saved || w'.saved == Synced(w.saved, w.ledger)
    ensures Fit(w')
  {
    hide FitLedger, FitTable, FitDoubles, Synced;
    SyncedFits(w.saved, w.ledger, w.book);
    LedgerStaysFit(w.ledger, w.book, w'.book);
    TableStaysFit(w'.saved, w.book, w'.book);
    DoublesStay(w.ledger, w.saved, w.exposed, w.overlaid, w.ledger, w'.saved);
  }

  /** Another stop, or none, for the first position of `s`. */
  lemma Restopped(l: Ledger, l': Ledger, s: string, b: Book)
    requires s in l && s in l' && l' == l[s := l[s].(stop := l'[s].stop)] && FitLedger(l, b)
    requires l'[s].stop.Some? ==> SellOrder(b, s, l'[s].stop.value)
    ensures FitLedger(l', b) && forall t :: Doubled(l', t) ==> Doubled(l, t)
  {
  }

  lemma CoveredAt(w: World, s: string)
    requires Bare(w.book) <= w.uncovered && s !in w.uncovered
    ensures 0 <= Cover(w.book, s)
  {
    assert s !in Bare(w.book);
  }

  // ---- an exit in flight ----

  /** With no stop tracked: orphans aside nothing offers shares of `s`, and in a quiet exit, one that
      began with no orphan of `s` working, the account covers `n` shares. */
  ghost predicate Free(w: World, s: string, n: int, quiet: bool) {
    s in w.uncovered ||
    (Offered(w.book.orders, s, w.orphans) == 0 && (quiet ==> !OrphanWorks(w, s) && n <= Cover(w.book, s)))
  }

  /** The same with the sale `x` out, counting back what it sold. */
  ghost predicate Flight(w: World, s: string, x: nat, n: int, quiet: bool) {
    s in w.uncovered ||
    (Offered(w.book.orders, s, {x} + w.orphans) == 0 && (quiet ==> !OrphanWorks(w, s) && n <= Reach(w.book, s, {x})))
  }

  /** Orphans aside, stop `y` is all that offers shares of `s`. */
  ghost predicate Armed(w: World, s: string, y: nat) {
    s in w.uncovered || Offered(w.book.orders, s, {y} + w.orphans) == 0
  }

  lemma OrphansRest(w: World, w': World, s: string)
    requires !OrphanWorks(w, s) && Grown(w.book, w'.book) && w'.orphans == w.orphans && Existing(w.book, w.orphans)
    ensures !OrphanWorks(w', s)
  {
    forall k | k in w'.orphans && SellOrder(w'.book, s, k)
      ensures Open(w'.book.orders[k]) == 0
    {
      assert OrderLater(w.book.orders[k], w'.book.orders[k]);
      assert SellOrder(w.book, s, k);
    }
  }

  lemma FreeStays(w: World, w': World, s: string, n: int, quiet: bool)
    requires Free(w, s, n, quiet) && Later(w.book, w'.book) && w'.orphans == w.orphans && w.uncovered <= w'.uncovered
    requires Existing(w.book, w.orphans)
    ensures Free(w', s, n, quiet)
  {
    hide Reach, Spare, OrphanWorks;
    assert Offered(w'.book.orders, s, w.orphans) <= Offered(w.book.orders, s, w.orphans);
    assert Reach(w.book, s, {}) <= Reach(w'.book, s, {});
    LaterGrows(w.book, w'.book);
    if s !in w.uncovered && quiet { OrphansRest(w, w', s); }
  }

  lemma FlightStays(w: World, w': World, s: string, x: nat, n: int, quiet: bool)
    requires Flight(w, s, x, n, quiet) && Later(w.book, w'.book) && w'.orphans == w.orphans
      && w.uncovered <= w'.uncovered
    requires Existing(w.book, w.orphans)
    ensures Flight(w', s, x, n, quiet)
  {
    hide Reach, Spare, OrphanWorks;
    assert Offered(w'.book.orders, s, {x} + w.orphans) <= Offered(w.book.orders, s, {x} + w.orphans);
    assert Reach(w.book, s, {x}) <= Reach(w'.book, s, {x});
    LaterGrows(w.book, w'.book);
    if s !in w.uncovered && quiet { OrphansRest(w, w', s); }
  }

  /** A tracked stop that ended without a fill leaves its symbol as clear as it was. */
  lemma StopReleased(w: World, w': World, s: string)
    requires s in w.ledger && w.ledger[s].stop.Some? && SellOrder(w.book, s, w.ledger[s].stop.value)
    requires Open(w.book.orders[w.ledger[s].stop.value]) == 0 && w.book.orders[w.ledger[s].stop.value].filled == 0
    requires w' == w.(ledger := w.ledger[s := w.ledger[s].(stop := None)])
    ensures Clear(w, s) <==> Clear(w', s)
  {
    hide Reach;
    var k := w.ledger[s].stop.value;
    assert StopSet(w.ledger, s) == {k} && StopSet(w'.ledger, s) == {};
    UntrackEnded(w.book, s, k, w.orphans);
    assert {} + w.orphans == w.orphans;
  }

  /** An ended, unfilled order counts for nothing either way. */
  lemma UntrackEnded(b: Book, s: string, k: nat, others: set<nat>)
    requires SellOrder(b, s, k) && Open(b.orders[k]) == 0 && b.orders[k].filled == 0
    ensures Offered(b.orders, s, {k} + others) == Offered(b.orders, s, others)
    ensures Reach(b, s, {k}) == Reach(b, s, {})
  {
    SkippingIdle(b.orders, s, others, {k} + others);
    SumsWith(b.orders, k, s, {});
    assert {} + {k} == {k};
  }

  /** With no stop tracked and the broker's net equal to the position, a clear symbol is free. */
  lemma ClearIsFree(w: World, s: string, quiet: bool)
    requires s in w.ledger && w.ledger[s].stop.None? && Clear(w, s)
    requires Net(w.book, s) == w.ledger[s].qty
    requires quiet ==> !OrphanWorks(w, s)
    ensures Free(w, s, w.ledger[s].qty, quiet)
  {
    hide OrphanWorks, Offered, Reach;
    assert StopSet(w.ledger, s) == {} && {} + w.orphans == w.orphans;
    CoverNet(w.book, s);
    SkippingMore(w.book.orders, s, {}, w.orphans);
    if quiet { RestingOrphans(w, s, {}); }
  }

  /** A sale decided on a free book, once accepted and until final. In a quiet exit it uncovers nothing. */
  lemma TakenOff(w: World, mid: Book, w': World, s: string, qty: nat, n: int, quiet: bool)
    requires Free(w, s, n, quiet) && Existing(w.book, w.orphans)
    requires Later(w.book, mid) && Later(Submitted(mid, s, Sell, qty), w'.book)
    requires w'.orphans == w.orphans && w.uncovered <= w'.uncovered
    ensures Flight(w', s, |mid.orders|, n, quiet)
    ensures quiet && s !in w.uncovered && qty <= n ==> qty <= Cover(mid, s)
  {
    hide Later, OrphanWorks, Bare, Free, Flight, Reach;
    var m, x := w.(book := mid), |mid.orders|;
    var t := w.(book := Submitted(mid, s, Sell, qty));
    FreeStays(w, m, s, n, quiet);
    LaterGrows(w.book, mid);
    TakeOff(m, s, qty, n, quiet);
    LaterGrows(mid, mid) by { LaterRefl(mid); }
    FlightStays(t, w', s, x, n, quiet);
    if quiet && s !in w.uncovered { FreeCovers(m, s, n); }
  }

  lemma FreeCovers(w: World, s: string, n: int)
    requires Free(w, s, n, true) && s !in w.uncovered
    ensures n <= Cover(w.book, s)
  {
  }

  lemma TakeOff(w: World, s: string, qty: nat, n: int, quiet: bool)
    requires Free(w, s, n, quiet) && Existing(w.book, w.orphans)
    ensures Flight(w.(book := Submitted(w.book, s, Sell, qty)), s, |w.book.orders|, n, quiet)
  {
    hide Reach, Offered, OrphanWorks;
    var x := |w.book.orders|;
    var w' := w.(book := Submitted(w.book, s, Sell, qty));
    SubmitAt(w.book, s, Sell, qty, s, {x});
    SubmitAt(w.book, s, Sell, qty, s, {x} + w.orphans);
    NotYet(w.book, s, {});
    NotYet(w.book, s, w.orphans);
    assert {} + {x} == {x} && w.orphans + {x} == {x} + w.orphans;
    if s !in w.uncovered && quiet { SubmitRests(w, w', s, qty); }
  }

  lemma SubmitRests(w: World, w': World, s: string, qty: nat)
    requires !OrphanWorks(w, s) && Existing(w.book, w.orphans)
    requires w' == w.(book := Submitted(w.book, s, Sell, qty))
    ensures !OrphanWorks(w', s)
  {
    assert forall k :: k in w.orphans ==> w'.book.orders[k] == w.book.orders[k];
    OrphansRest(w, w', s);
  }

  /** Once the sale is final, the symbol is free again, less exactly what was sold. */
  lemma Landed(w: World, s: string, x: nat, n: int, quiet: bool)
    requires Flight(w, s, x, n, quiet) && SellOrder(w.book, s, x) && Open(w.book.orders[x]) == 0
    ensures Free(w, s, n - w.book.orders[x].filled, quiet)
  {
    hide Reach, OrphanWorks;
    SkippingIdle(w.book.orders, s, w.orphans, {x} + w.orphans);
    SumsWith(w.book.orders, x, s, {});
    assert {} + {x} == {x};
    LessSold(w.book, s, x);
  }

  lemma LessSold(b: Book, s: string, x: nat)
    requires SellOrder(b, s, x) && Open(b.orders[x]) == 0
    ensures Cover(b, s) == Reach(b, s, {x}) - b.orders[x].filled
  {
    SumsWith(b.orders, x, s, {});
    assert {} + {x} == {x};
  }

  /** A stop placed on a free symbol is the only thing offering it, orphans aside. In a quiet exit it
      uncovers nothing. */
  lemma ArmedAgain(w: World, mid: Book, w': World, s: string, qty: nat, quiet: bool)
    requires Free(w, s, qty, quiet) && Existing(w.book, w.orphans)
    requires Later(w.book, mid) && Later(Submitted(mid, s, Sell, qty), w'.book)
    requires w'.orphans == w.orphans && w.uncovered <= w'.uncovered
    ensures Armed(w', s, |mid.orders|)
    ensures quiet && s !in w.uncovered ==> qty <= Cover(mid, s)
  {
    hide Later, OrphanWorks, Bare, Reach, Offered;
    TakenOff(w, mid, w', s, qty, qty, quiet);
  }

  /** An accepted stop is a sell order of its symbol from then on. */
  lemma AcceptedSell(b: Book, mid: Book, b': Book, s: string, qty: nat)
    requires Later(b, mid) && Later(Submitted(mid, s, Sell, qty), b')
    ensures SellOrder(b', s, |mid.orders|) && b'.orders[|mid.orders|].qty == qty
    ensures |b.orders| == |mid.orders|
  {
    hide Reach, Offered, Spare;
    assert OrderLater(Submitted(mid, s, Sell, qty).orders[|mid.orders|], b'.orders[|mid.orders|]);
  }

  // ---- rows ----

  lemma UpdateElsewhere(rows: Rows, id: RowId, status: RowStatus, t: string)
    requires id in rows ==> rows[id].symbol != t || rows[id].side != Sell
    ensures UnresolvedExit(Updated(rows, id, status), t) <==> UnresolvedExit(rows, t)
  {
    var rows' := Updated(rows, id, status);
    if UnresolvedExit(rows, t) {
      var k :| k in rows && PendingExit(rows[k], t);
      assert rows'[k] == rows[k];
    }
    if UnresolvedExit(rows', t) {
      var k :| k in rows' && PendingExit(rows'[k], t);
      assert rows'[k] == rows[k];
    }
  }

  /** Updating a row keeps the bound when it was unresolved already, or becomes resolved. */
  lemma UpdateKeepsOne(rows: Rows, id: RowId, status: RowStatus)
    requires OneUnresolved(rows)
    requires id !in rows || Unresolved(rows[id])
             || forall k :: k in rows && k != id && Rivals(rows[k], rows[id]) ==> !Unresolved(rows[k])
    ensures OneUnresolved(Updated(rows, id, status))
  {
    var rows' := Updated(rows, id, status);
    forall a, b | a in rows' && b in rows' && Unresolved(rows'[a]) && Unresolved(rows'[b]) && Rivals(rows'[a], rows'[b])
      ensures a == b
    {
      assert Rivals(rows[a], rows[b]) && Rivals(rows[b], rows[a]);
      if a != id { assert rows'[a] == rows[a]; }
      if b != id { assert rows'[b] == rows[b]; }
    }
  }

  // ---- the steps of one exit ----

  /** During an exit of `s`: its row is unresolved, and every other position is as protected as before. */
  ghost predicate MidExit(w: World, s: string, n: nat) {
    && Fit(w) && OneUnresolved(w.rows) && ProtectedElsewhere(w, s)
    && s in w.ledger && ExitRow(n) in w.rows && PendingExit(w.rows[ExitRow(n)], s)
  }

  /** What one await of an exit may change. */
  ghost predicate ExitStep(w: World, w': World, s: string, n: nat) {
    && Onward(w.book, w'.book, s)
    && (w'.ledger == w.ledger || (s in w.ledger && w'.ledger == w.ledger[s := w.ledger[s].(stop := None)]))
    && (w'.saved == w.saved || w'.saved == Synced(w.saved, w'.ledger))
    && (w'.degraded || forall k :: k in w.told && !OrderOf(w'.book, s, k) ==> k in w'.told && w'.told[k] == w.told[k])
    && (w.degraded ==> w'.degraded)
    && (w'.rows == w.rows || w'.rows == Updated(w.rows, ExitRow(n), Unclear)
      || w'.rows == Updated(w.rows, ExitRow(n), InSubmission))
    && w.uncovered <= w'.uncovered <= w.uncovered + iset{s}
    && w'.nextExit == w.nextExit && w'.orphans == w.orphans && w'.exposed == w.exposed && w'.overlaid == w.overlaid
  }

  lemma ExitStepIsApart(w: World, w': World, s: string, n: nat)
    requires MidExit(w, s, n) && ExitStep(w, w', s, n)
    ensures Apart(w, w', s)
  {
    hide Onward, Fit, OneUnresolved, ProtectedElsewhere, UnresolvedExit;
    forall t | t != s && UnresolvedExit(w.rows, t)
      ensures UnresolvedExit(w'.rows, t)
    {
      UpdateElsewhere(w.rows, ExitRow(n), Unclear, t);
      UpdateElsewhere(w.rows, ExitRow(n), InSubmission, t);
    }
  }

  lemma MidExitStays(w: World, w': World, s: string, n: nat)
    requires MidExit(w, s, n) && ExitStep(w, w', s, n) && Bare(w'.book) <= w'.uncovered
    requires s in w'.uncovered && s !in w.uncovered ==> HasOrphan(w', s)
    ensures MidExit(w', s, n)
    ensures SafeElsewhere(w, s) ==> SafeElsewhere(w', s)
  {
    hide Bare, HasOrphan, SafeElsewhere, Onward, Apart, FitLedger, Synced;
    ExitStepIsApart(w, w', s, n);
    if SafeElsewhere(w, s) { OthersStaySafe(w, w', s); }
    OthersStayProtected(w, w', s);
    UpdateKeepsOne(w.rows, ExitRow(n), Unclear);
    UpdateKeepsOne(w.rows, ExitRow(n), InSubmission);
    assert Fit(w') by { ExitStepFits(w, w', s, n); }
  }

  lemma ExitStepFits(w: World, w': World, s: string, n: nat)
    requires MidExit(w, s, n) && ExitStep(w, w', s, n)
    ensures Fit(w')
  {
    hide Reach, Offered, ProtectedElsewhere, OneUnresolved, Synced, FitLedger, FitTable, FitDoubles;
    LedgerStaysFit(w.ledger, w.book, w'.book);
    if w'.ledger != w.ledger { Restopped(w.ledger, w'.ledger, s, w'.book); }
    TableStaysFit(w.saved, w.book, w'.book);
    SyncedFits(w.saved, w'.ledger, w'.book);
    DoublesStay(w.ledger, w.saved, w.exposed, w.overlaid, w'.ledger, w'.saved);
  }

  /** Booking a fill of `f` shares. */
  function Booked(w: World, s: string, f: nat): World
    requires f <= Held(w.ledger, s)
  {
    w.(ledger := Reduced(w.ledger, s, f))
  }

  /** Booking touches one symbol, and takes exactly the fill off it. */
  lemma BookedElsewhere(w: World, s: string, f: nat)
    requires f <= Held(w.ledger, s)
    ensures Stake(Booked(w, s, f).ledger, s) == Stake(w.ledger, s) - f
    ensures forall t :: t != s ==> KeptAt(Booked(w, s, f), t) == KeptAt(w, t)
    ensures Traced(Booked(w, s, f)) == Traced(w)
    ensures ProtectedElsewhere(Booked(w, s, f), s) <==> ProtectedElsewhere(w, s)
    ensures Fit(w) ==> Fit(Booked(w, s, f))
    ensures var b := Booked(w, s, f); b == w.(ledger := b.ledger)
  {
    hide Reduced, KeptAt, Traced, ProtectedElsewhere, Fit;
    ReducedAt(w.ledger, s, f);
    SameElsewhere(w, Booked(w, s, f), s);
    if Fit(w) { BookedFits(w, s, f); }
  }

  lemma BookedFits(w: World, s: string, f: nat)
    requires f <= Held(w.ledger, s) && Fit(w)
    ensures Fit(Booked(w, s, f))
  {
    hide Reduced, FitLedger, FitDoubles, FitTable;
    ReducedAt(w.ledger, s, f);
    ReducedFits(w.ledger, s, f, w.book);
    DoublesStay(w.ledger, w.saved, w.exposed, w.overlaid, Reduced(w.ledger, s, f), w.saved);
  }

  /** Safety and protection of a symbol do not depend on the positions in others. */
  lemma SameElsewhere(w: World, w': World, s: string)
    requires w' == w.(ledger := w'.ledger)
    requires forall t :: t != s ==>
      (t in w'.ledger <==> t in w.ledger) && (t in w.ledger ==> w'.ledger[t] == w.ledger[t])
    ensures forall t :: t != s ==> KeptAt(w', t) == KeptAt(w, t)
    ensures Traced(w') == Traced(w)
    ensures ProtectedElsewhere(w', s) <==> ProtectedElsewhere(w, s)
  {
    hide Reach, Offered, UnresolvedExit, StopProblem, Confirmed;
    forall t | t != s
      ensures KeptAt(w', t) == KeptAt(w, t)
    {
      assert Held(w'.ledger, t) == Held(w.ledger, t) && StopOf(w'.ledger, t) == StopOf(w.ledger, t);
      assert Doubled(w'.ledger, t) == Doubled(w.ledger, t);
    }
    assert forall t :: t != s ==> ProtectedAt(w', t) == ProtectedAt(w, t);
    assert forall t :: HasOrphan(w', t) == HasOrphan(w, t);
  }

  lemma NothingBooked(w: World, s: string)
    ensures Booked(w, s, 0) == w
  {
  }

  /** What is left of a position is protected by its stop when the last report confirms just that. */
  lemma RestProtected(w: World, s: string, f: nat)
    requires s in w.ledger && f < w.ledger[s].qty && w.ledger[s].stop.Some? && w.ledger[s].stop.value in w.told
    requires Confirmed(w.told[w.ledger[s].stop.value], s, w.ledger[s].qty - f)
    ensures Doubled(w.ledger, s) || ProtectedAt(Booked(w, s, f), s)
  {
    hide Confirmed;
  }

  /** A symbol listed twice counts as exposed, before and after a booking. */
  lemma DoubledIsExposed(w: World, s: string)
    requires Fit(w)
    ensures Doubled(w.ledger, s) ==> s in w.exposed
  {
  }

  /** With nothing but orphans offering it, a symbol is clear, whatever its positions. */
  lemma AloneIsClear(w: World, s: string)
    requires Alone(w, s, {})
    ensures Clear(w, s)
  {
    hide Offered, Reach;
    var these := StopSet(w.ledger, s);
    SkippingMore(w.book.orders, s, {} + w.orphans, these + w.orphans);
  }

  lemma BookedSafe(w: World, s: string, f: nat)
    requires f <= Held(w.ledger, s) && SafeElsewhere(w, s) && KeptAt(Booked(w, s, f), s)
    ensures Safe(Booked(w, s, f))
  {
    hide KeptAt, Booked, Traced;
    BookedElsewhere(w, s, f);
  }

  /** While the exit's row is unresolved its symbol is safe, whatever is booked. */
  lemma BlockedIsSafe(w: World, s: string, n: nat, f: nat)
    requires MidExit(w, s, n) && SafeElsewhere(w, s) && Bare(w.book) <= w.uncovered && f <= Held(w.ledger, s)
    ensures Safe(w) && Safe(Booked(w, s, f))
  {
    hide Reach, Offered, Fit, OneUnresolved, ProtectedElsewhere, MidExit, Traced, Bare;
    BookedElsewhere(w, s, f);
    BlockedRow(w, s, n);
    if s !in w.uncovered { CoveredAt(w, s); }
    BookedSafe(w, s, f);
    BookedSafe(w, s, 0);
  }

  lemma BlockedRow(w: World, s: string, n: nat)
    requires MidExit(w, s, n)
    ensures UnresolvedExit(w.rows, s)
  {
    assert PendingExit(w.rows[ExitRow(n)], s);
  }

  lemma SellOrderStays(b: Book, b': Book, s: string, x: nat)
    requires Later(b, b') && SellOrder(b, s, x)
    ensures SellOrder(b', s, x)
  {
    hide Reach, Offered, Spare;
    assert OrderLater(b.orders[x], b'.orders[x]);
  }

  lemma FinalStays(b: Book, b': Book, x: nat, f: nat)
    requires Later(b, b') && x < |b.orders| && Final(b.orders[x], f)
    ensures Final(b'.orders[x], f)
  {
    hide Reach, Offered, Spare;
    assert OrderLater(b.orders[x], b'.orders[x]);
  }

  /** An await of an exit, when the market moved and no order was sent; `start` is an earlier book. */
  lemma ExitAwaits(start: Book, w: World, w': World, s: string, n: nat)
    requires MidExit(w, s, n) && Onward(start, w.book, s) && Later(w.book, w'.book)
    requires w'.ledger == w.ledger || (s in w.ledger && w'.ledger == w.ledger[s := w.ledger[s].(stop := None)])
    requires w'.saved == w.saved || w'.saved == Synced(w.saved, w'.ledger)
    requires w'.degraded || forall k :: k in w.told && !OrderOf(w'.book, s, k) ==>
      k in w'.told && w'.told[k] == w.told[k]
    requires w.degraded ==> w'.degraded
    requires w'.rows == w.rows || w'.rows == Updated(w.rows, ExitRow(n), Unclear)
      || w'.rows == Updated(w.rows, ExitRow(n), InSubmission)
    requires w'.nextExit == w.nextExit && w'.orphans == w.orphans && w'.exposed == w.exposed
      && w'.overlaid == w.overlaid
    requires w'.uncovered == w.uncovered && Bare(w'.book) <= w'.uncovered
    ensures MidExit(w', s, n)
    ensures SafeElsewhere(w, s) ==> SafeElsewhere(w', s)
    ensures w'.ledger == w.ledger && Clear(w, s) ==> Clear(w', s)
    ensures Onward(start, w'.book, s)
    ensures !OrphanWorks(w, s) ==> !OrphanWorks(w', s)
    ensures HasOrphan(w, s) ==> HasOrphan(w', s)
  {
    hide Clear, SafeElsewhere, Later, Onward, HasOrphan, OrphanWorks, Bare, Synced, FitLedger;
    LaterIsOnward(w.book, w'.book, s);
    OnwardTrans(start, w.book, w'.book, s);
    MidExitStays(w, w', s, n);
    LaterGrows(w.book, w'.book);
    if w'.ledger == w.ledger && Clear(w, s) { ClearStays(w, w', s); }
    if !OrphanWorks(w, s) { OrphansRest(w, w', s); }
    if HasOrphan(w, s) { OrphanStays(w, w', s); }
  }

  lemma TrackedStopSells(w: World, s: string, n: nat)
    requires MidExit(w, s, n) && w.ledger[s].stop.Some?
    ensures SellOrder(w.book, s, w.ledger[s].stop.value)
  {
  }

  lemma MidExitOrphans(w: World, s: string, n: nat)
    requires MidExit(w, s, n)
    ensures Existing(w.book, w.orphans)
  {
  }

  // ---- the end of an exit ----

  ghost predicate Ended(w: World, s: string) { Fit(w) && OneUnresolved(w.rows) && ProtectedElsewhere(w, s) }

  lemma ExitCloses(w: World, w': World, s: string, n: nat)
    requires MidExit(w, s, n) && Later(w.book, w'.book) && Bare(w'.book) <= w.uncovered
    requires w' == w.(book := w'.book, rows := w'.rows, saved := w'.saved, told := w'.told, degraded := w'.degraded)
      && OthersTurns(w, w')
    requires w'.rows == w.rows || w'.rows == Updated(w.rows, ExitRow(n), Closed)
    ensures Ended(w', s)
    ensures SafeElsewhere(w, s) ==> SafeElsewhere(w', s)
  {
    hide Bare, SafeElsewhere;
    LaterIsOnward(w.book, w'.book, s);
    assert Apart(w, w', s) by {
      hide Onward, Later, Fit, OneUnresolved, ProtectedElsewhere, UnresolvedExit;
      forall t | t != s && UnresolvedExit(w.rows, t)
        ensures UnresolvedExit(w'.rows, t)
      {
        UpdateElsewhere(w.rows, ExitRow(n), Closed, t);
      }
    }
    if SafeElsewhere(w, s) { OthersStaySafe(w, w', s); }
    OthersStayProtected(w, w', s);
    UpdateKeepsOne(w.rows, ExitRow(n), Closed);
    assert Fit(w') by {
      hide Reach, Offered, UnresolvedExit, ProtectedElsewhere, OneUnresolved, Later, FitLedger;
      FitStays(w, w.(book := w'.book, saved := w'.saved));
    }
  }

  /** After the row is closed: rows stay, the position of `s` may get a stop, its quantity stays, and a
      lost stop joins the orphans. */
  lemma EndStays(w: World, w': World, s: string)
    requires Ended(w, s) && s in w.ledger && Onward(w.book, w'.book, s) && Bare(w'.book) <= w'.uncovered
    requires w'.rows == w.rows && w'.nextExit == w.nextExit && (w.degraded ==> w'.degraded)
    requires w'.degraded || forall k :: k in w.told && !OrderOf(w'.book, s, k) ==>
      k in w'.told && w'.told[k] == w.told[k]
    requires s in w'.ledger && w'.ledger == w.ledger[s := w.ledger[s].(stop := w'.ledger[s].stop)]
    requires w'.ledger[s].stop.Some? ==> SellOrder(w'.book, s, w'.ledger[s].stop.value)
    requires w'.saved == w.saved || w'.saved == Synced(w.saved, w.ledger)
    requires w.uncovered <= w'.uncovered <= w.uncovered + iset{s} && w'.exposed == w.exposed
      && w'.overlaid == w.overlaid
    requires w.orphans <= w'.orphans && Existing(w'.book, w'.orphans)
    requires s in w'.uncovered && s !in w.uncovered ==> HasOrphan(w', s)
    ensures Ended(w', s)
    ensures SafeElsewhere(w, s) ==> SafeElsewhere(w', s)
  {
    hide Reach, Offered, UnresolvedExit, OneUnresolved, SafeElsewhere, ProtectedElsewhere, Bare, HasOrphan, Synced;
    assert Apart(w, w', s);
    if SafeElsewhere(w, s) { OthersStaySafe(w, w', s); }
    OthersStayProtected(w, w', s);
    assert Fit(w') by {
      hide FitLedger, FitTable, FitDoubles, Apart;
      SyncedFits(w.saved, w.ledger, w.book);
      TableStaysFit(w'.saved, w.book, w'.book);
      LedgerStaysFit(w.ledger, w.book, w'.book);
      Restopped(w.ledger, w'.ledger, s, w'.book);
      DoublesStay(w.ledger, w.saved, w.exposed, w.overlaid, w'.ledger, w'.saved);
    }
  }

  lemma FreeIsKept(w: World, s: string, m: int, f: nat, quiet: bool)
    requires f <= Held(w.ledger, s) && Free(w, s, m, quiet) && Bare(w.book) <= w.uncovered
    ensures KeptAt(w, s) && KeptAt(Booked(w, s, f), s)
  {
    hide Reach, Offered, OrphanWorks, Bare, Clear, Reduced;
    assert {} + w.orphans == w.orphans;
    AloneIsClear(w, s);
    AloneIsClear(Booked(w, s, f), s);
    if s !in w.uncovered { CoveredAt(w, s); }
  }

  /** With stop `y` stored, or among the orphans and no stop stored. */
  lemma ArmedIsKept(w: World, s: string, y: nat, f: nat)
    requires s in w.ledger && f <= Held(w.ledger, s) && Armed(w, s, y) && Bare(w.book) <= w.uncovered
    requires w.ledger[s].stop == Some(y) || (w.ledger[s].stop.None? && y in w.orphans)
    requires f == w.ledger[s].qty ==> w.ledger[s].stop.None?
    ensures KeptAt(Booked(w, s, f), s)
  {
    hide Reach, Offered, Bare, UnresolvedExit;
    var b := Booked(w, s, f);
    if s !in w.uncovered { CoveredAt(w, s); }
    if y in w.orphans {
      assert {y} + w.orphans == {} + w.orphans;
      AloneIsClear(b, s);
    } else {
      assert StopSet(b.ledger, s) == {y};
    }
  }

  /** Storing a stop, or noting it as an orphan, leaves open what the orders still offer. */
  lemma Noted(w: World, w': World, s: string, y: Option<nat>, m: int, quiet: bool)
    requires w'.book == w.book && w'.uncovered == w.uncovered
    requires w.orphans <= w'.orphans <= w.orphans + AsSet(y)
    ensures y.Some? && Armed(w, s, y.value) ==> Armed(w', s, y.value)
    ensures y.None? && Free(w, s, m, quiet) ==> Free(w', s, m, quiet)
    ensures HasOrphan(w, s) ==> HasOrphan(w', s)
  {
    hide Reach, Offered;
    if y.Some? {
      assert {y.value} + w'.orphans == {y.value} + w.orphans;
    } else {
      assert w'.orphans == w.orphans;
    }
  }

  lemma SafeEverywhere(w: World, s: string)
    requires SafeElsewhere(w, s) && KeptAt(w, s)
    ensures Safe(w)
  {
    hide KeptAt, Traced;
  }

  lemma ProtectedEverywhere(w: World, s: string)
    requires ProtectedElsewhere(w, s) && (w.degraded || s in w.exposed || ProtectedAt(w, s))
    ensures Protected(w)
  {
    hide ProtectedAt;
  }

  lemma NoResidualRow(w: World, n: nat)
    requires Fit(w)
    ensures ResidualRow(n) !in w.rows && NoRow !in w.rows
  {
  }

  /** With every share sold and booked, the position is gone and the rest stands. */
  lemma SoldOut(w: World, s: string)
    requires Ended(w, s) && s in w.ledger
    ensures var b := Booked(w, s, Held(w.ledger, s)); Fit(b) && OneUnresolved(b.rows) && Protected(b)
  {
    hide ProtectedAt, OneUnresolved, KeptAt, Traced, Fit;
    BookedElsewhere(w, s, Held(w.ledger, s));
    DoubledIsExposed(w, s);
    assert 0 < w.ledger[s].qty by { NotEmpty(w, s); }
    SoldOutProtected(w, s);
  }

  lemma NotEmpty(w: World, s: string)
    requires Fit(w) && s in w.ledger
    ensures 0 < w.ledger[s].qty
  {
  }

  lemma SoldOutProtected(w: World, s: string)
    requires ProtectedElsewhere(w, s) && s in w.ledger && 0 < w.ledger[s].qty
      && (Doubled(w.ledger, s) ==> s in w.exposed)
    ensures Protected(Booked(w, s, Held(w.ledger, s)))
  {
    hide StopConfirmed;
    var b := Booked(w, s, Held(w.ledger, s));
    ReducedAt(w.ledger, s, Held(w.ledger, s));
    forall t | t in b.ledger && !b.degraded
      ensures t in b.exposed || ProtectedAt(b, t)
    {
      if t != s { assert t in w.exposed || ProtectedAt(w, t); }
    }
  }

  // ---- the start of an exit, and steps outside exits ----

  /** The part of readiness that concerns neither safety nor the account's past. */
  ghost predicate Sound(w: World) { Fit(w) && OneUnresolved(w.rows) && Protected(w) }

  /** Market moves, saves, and an update to a purchase's row keep everything. */
  lemma SoundStays(w: World, w': World, id: RowId, status: RowStatus)
    requires Fit(w) && OneUnresolved(w.rows) && Later(w.book, w'.book)
    requires w' == w.(book := w'.book, rows := w'.rows, degraded := w'.degraded, saved := w'.saved, told := w'.told)
    requires OthersTurns(w, w')
    requires w'.rows == w.rows || (w'.rows == Updated(w.rows, id, status) && EntryMay(w.rows, id, status))
    ensures Fit(w') && OneUnresolved(w'.rows)
    ensures Protected(w) ==> Protected(w')
    ensures Safe(w) ==> Safe(w')
  {
    hide FitLedger, Synced, Safe;
    LaterGrows(w.book, w'.book);
    if w'.rows != w.rows { UpdateKeeps(w, id, status); }
    assert Fit(w') by {
      hide Reach, Offered, UnresolvedExit, Protected, OneUnresolved, Later;
      FitStays(w, w.(book := w'.book, saved := w'.saved));
    }
    assert Protected(w) ==> Protected(w') by {
      hide Reach, Offered, UnresolvedExit, Confirmed, OneUnresolved, Later, Fit, Grown;
    }
    if Safe(w) { SafeStays(w, w'); }
  }

  /** The row is a purchase's, and writing the status leaves at most one of them unresolved. */
  predicate EntryMay(rows: Rows, id: RowId, status: RowStatus) {
    id in rows ==>
      && rows[id].side == Buy
      && (Unresolved(rows[id]) || status == Closed || forall k :: k in rows && k != id && rows[k].side == Buy ==>
        !Unresolved(rows[k]))
  }

  lemma UpdateKeeps(w: World, id: RowId, status: RowStatus)
    requires Fit(w) && OneUnresolved(w.rows) && EntryMay(w.rows, id, status)
    ensures OneUnresolved(Updated(w.rows, id, status))
    ensures forall s :: UnresolvedExit(Updated(w.rows, id, status), s) <==> UnresolvedExit(w.rows, s)
    ensures forall k :: k in Updated(w.rows, id, status) ==> FitRow(k, Updated(w.rows, id, status)[k], w.nextExit)
  {
    hide FitLedger;
    forall s
      ensures UnresolvedExit(Updated(w.rows, id, status), s) <==> UnresolvedExit(w.rows, s)
    {
      UpdateElsewhere(w.rows, id, status, s);
    }
    if id in w.rows && !Unresolved(w.rows[id]) && status == Closed {
      ClosingKeepsOne(w.rows, id);
    } else {
      UpdateKeepsOne(w.rows, id, status);
    }
  }

  lemma ClosingKeepsOne(rows: Rows, id: RowId)
    requires OneUnresolved(rows)
    ensures OneUnresolved(Updated(rows, id, Closed))
  {
    var rows' := Updated(rows, id, Closed);
    forall a, b | a in rows' && b in rows' && Unresolved(rows'[a]) && Unresolved(rows'[b]) && Rivals(rows'[a], rows'[b])
      ensures a == b
    {
      assert rows'[a] == rows[a] && rows'[b] == rows[b];
    }
  }

  /** A new exit row: the symbol had no unresolved exit, so it was clear. */
  lemma ExitOpens(w: World, w': World, s: string, now: nat)
    requires Sound(w) && Safe(w) && s in w.ledger && !UnresolvedExit(w.rows, s)
    requires Later(w.book, w'.book) && Bare(w'.book) <= w.uncovered
    requires w' == w.(book := w'.book, rows := Created(w.rows, ExitRow(w.nextExit), s, Sell, now),
                      nextExit := w.nextExit + 1, saved := w'.saved, told := w'.told, degraded := w'.degraded)
    requires OthersTurns(w, w')
    ensures MidExit(w', s, w.nextExit)
    ensures SafeElsewhere(w', s) && Clear(w', s)
  {
    hide Bare, Safe, FitLedger;
    var id := ExitRow(w.nextExit);
    assert id !in w.rows;
    LaterGrows(w.book, w'.book);
    assert OneUnresolved(w'.rows) by {
      forall k | k in w.rows && Rivals(w.rows[k], Row(s, Sell, Pending, now))
        ensures !Unresolved(w.rows[k])
      {
        assert PendingExit(w.rows[k], s) == Unresolved(w.rows[k]);
      }
      CreateKeepsOne(w.rows, id, s, Sell, now);
    }
    assert Fit(w') by {
      hide Reach, Offered, UnresolvedExit, Protected, OneUnresolved, Later;
      FitStays(w, w.(book := w'.book, saved := w'.saved));
    }
    assert Protected(w') by { hide Reach, Offered, Confirmed, Later, Fit, Grown, UnresolvedExit; }
    assert Clear(w', s) by {
      SafeIsClear(w, s);
      ClearStays(w, w', s);
    }
    ExitOpensElsewhere(w, w', s, now);
  }

  lemma SafeIsClear(w: World, s: string)
    requires Safe(w) && !UnresolvedExit(w.rows, s)
    ensures Clear(w, s)
  {
    hide Reach, Offered, UnresolvedExit;
    assert KeptAt(w, s);
  }

  lemma ExitOpensElsewhere(w: World, w': World, s: string, now: nat)
    requires Fit(w) && Safe(w) && Later(w.book, w'.book) && Bare(w'.book) <= w.uncovered
    requires w' == w.(book := w'.book, rows := Created(w.rows, ExitRow(w.nextExit), s, Sell, now),
                      nextExit := w.nextExit + 1, saved := w'.saved, told := w'.told, degraded := w'.degraded)
    requires OthersTurns(w, w')
    ensures SafeElsewhere(w', s)
  {
    hide Bare, KeptAt, Traced;
    assert forall k :: k in w.rows ==> w'.rows[k] == w.rows[k];
    assert Apart(w, w', s) by {
      hide Reach, Offered, Safe, Fit;
      LaterIsOnward(w.book, w'.book, s);
      forall t | UnresolvedExit(w.rows, t)
        ensures UnresolvedExit(w'.rows, t)
      {
        var k :| k in w.rows && PendingExit(w.rows[k], t);
        assert PendingExit(w'.rows[k], t);
      }
    }
    OthersStaySafe(w, w', s);
  }

  lemma NumberSpent(w: World, w': World)
    requires Sound(w) && Later(w.book, w'.book) && OthersTurns(w, w')
    requires w' == w.(book := w'.book, nextExit := w.nextExit + 1, saved := w'.saved, told := w'.told,
      degraded := w'.degraded)
    ensures Sound(w')
  {
    hide Reach, Offered, Spare, UnresolvedExit, OneUnresolved, Confirmed, FitLedger;
    LaterGrows(w.book, w'.book);
    FitStays(w, w.(book := w'.book, saved := w'.saved));
    assert Protected(w') by { hide Later, Grown, Fit; }
  }

  lemma FreshRow(w: World)
    requires Fit(w)
    ensures ExitRow(w.nextExit) !in w.rows
  {
  }

  lemma SoundIsEnded(w: World, s: string)
    requires Sound(w)
    ensures Ended(w, s)
  {
    hide ProtectedAt, Fit, OneUnresolved;
  }

  lemma StopSells(w: World, s: string)
    requires Fit(w) && s in w.ledger && w.ledger[s].stop.Some?
    ensures SellOrder(w.book, s, w.ledger[s].stop.value)
  {
  }

  /** The first position is gone. If another takes its place, its stop must be at rest or an orphan. */
  lemma GoneIsSafe(w: World, s: string)
    requires Safe(w) && Fit(w) && s in w.ledger
    requires Doubled(w.ledger, s) ==> forall k :: k in StopSet(w.ledger, s) ==>
      k in w.orphans || Open(w.book.orders[k]) == 0
    ensures Safe(Booked(w, s, Held(w.ledger, s)))
  {
    hide Reduced, UnresolvedExit, Traced, KeptAt;
    BookedElsewhere(w, s, Held(w.ledger, s));
    GoneIsKept(w, s);
    BookedSafe(w, s, Held(w.ledger, s)) by { assert SafeElsewhere(w, s); }
  }

  lemma GoneIsKept(w: World, s: string)
    requires KeptAt(w, s) && Fit(w) && s in w.ledger
    requires Doubled(w.ledger, s) ==> forall k :: k in StopSet(w.ledger, s) ==>
      k in w.orphans || Open(w.book.orders[k]) == 0
    ensures KeptAt(Booked(w, s, Held(w.ledger, s)), s)
  {
    hide Offered, Reach, UnresolvedExit, Fit;
    var b, k := Booked(w, s, Held(w.ledger, s)), StopSet(w.ledger, s);
    if Doubled(w.ledger, s) {
      if s !in w.uncovered && !UnresolvedExit(w.rows, s) {
        SkippingIdle(w.book.orders, s, {} + w.orphans, k + w.orphans);
        AloneIsClear(b, s);
      }
    } else {
      assert w.ledger[s].qty == 0 || (Held(b.ledger, s) == 0 && StopOf(b.ledger, s) == None);
    }
  }

  /** Part of the first position of a symbol listed more than once is gone. */
  lemma LessIsSafe(w: World, s: string, f: nat)
    requires Safe(w) && f < Held(w.ledger, s) && Doubled(w.ledger, s)
    ensures Safe(Booked(w, s, f))
  {
    hide Offered, Reach, UnresolvedExit, Traced;
    var b := Booked(w, s, f);
    BookedElsewhere(w, s, f);
    assert KeptAt(w, s);
    assert KeptAt(b, s) by {
      assert StopSet(b.ledger, s) == StopSet(w.ledger, s);
    }
    BookedSafe(w, s, f) by { assert SafeElsewhere(w, s); }
  }

  // ---- the steps of one entry ----

  /** No unresolved entry but this one. */
  ghost predicate OnlyEntry(rows: Rows, key: string) {
    forall k :: k in rows && rows[k].side == Buy && Unresolved(rows[k]) ==> k == EntryRow(key)
  }

  ghost predicate MidEntry(w: World, s: string, key: string) {
    Sound(w) && s !in w.ledger && EntryRow(key) in w.rows && OnlyEntry(w.rows, key)
  }

  /** What one await of an entry may change. */
  ghost predicate EntryStep(w: World, w': World, s: string, key: string, status: RowStatus) {
    && Onward(w.book, w'.book, s)
    && w'.ledger == w.ledger && w'.nextExit == w.nextExit
    && (w'.saved == w.saved || w'.saved == Synced(w.saved, w.ledger))
    && (w'.degraded || forall k :: k in w.told && !OrderOf(w'.book, s, k) ==> k in w'.told && w'.told[k] == w.told[k])
    && (w.degraded ==> w'.degraded)
    && (w'.rows == w.rows || w'.rows == Updated(w.rows, EntryRow(key), status))
    && w'.uncovered == w.uncovered && w'.exposed == w.exposed && w'.overlaid == w.overlaid
    && w.orphans <= w'.orphans && Existing(w'.book, w'.orphans)
  }

  lemma MidEntryStays(w: World, w': World, s: string, key: string, status: RowStatus)
    requires MidEntry(w, s, key) && EntryStep(w, w', s, key, status) && Bare(w'.book) <= w'.uncovered
    ensures MidEntry(w', s, key)
    ensures Safe(w) ==> Safe(w')
  {
    hide Bare, FitLedger, Synced;
    var id := EntryRow(key);
    assert EntryMay(w.rows, id, status);
    UpdateKeeps(w, id, status);
    assert Apart(w, w', s) by { hide Onward, Sound, UnresolvedExit, EntryMay, OnlyEntry; }
    assert Protected(w') by {
      hide Onward, Apart, Fit, UnresolvedExit, ProtectedAt, OneUnresolved, SellOrder, OnlyEntry, Safe;
      OthersStayProtected(w, w', s);
    }
    assert Fit(w') by {
      hide Reach, Offered, UnresolvedExit, Protected, OneUnresolved, Safe, Apart;
      FitStays(w, w.(book := w'.book, saved := w'.saved));
    }
    if Safe(w) {
      hide Onward, Apart, Fit, UnresolvedExit, Protected, OneUnresolved, OnlyEntry, KeptAt, Traced;
      OthersStaySafe(w, w', s);
      UnheldIsKept(w', s);
      SafeEverywhere(w', s);
    }
  }

  lemma UnheldIsKept(w: World, s: string)
    requires s !in w.ledger && Bare(w.book) <= w.uncovered
    ensures KeptAt(w, s)
  {
    hide Reach, Offered, Bare;
    if s !in w.uncovered { CoveredAt(w, s); }
  }

  lemma EntryOpens(w: World, w': World, s: string, key: string, now: nat)
    requires Sound(w) && s !in w.ledger && !AnyUnresolved(w.rows) && Later(w.book, w'.book)
    requires w' == w.(book := w'.book, rows := w'.rows, saved := w'.saved, told := w'.told, degraded := w'.degraded)
      && OthersTurns(w, w')
    requires w'.rows == w.rows || w'.rows == Created(w.rows, EntryRow(key), s, Buy, now)
    ensures Sound(w') && (EntryRow(key) in w'.rows ==> MidEntry(w', s, key))
    ensures Safe(w) ==> Safe(w')
  {
    hide FitLedger;
    var id := EntryRow(key);
    assert forall k :: k in w.rows ==> k in w'.rows && w'.rows[k] == w.rows[k];
    CreateKeepsOne(w.rows, id, s, Buy, now);
    LaterGrows(w.book, w'.book);
    assert Fit(w') by {
      hide Reach, Offered, UnresolvedExit, Protected, OneUnresolved, Safe, Later;
      FitStays(w, w.(book := w'.book, saved := w'.saved));
    }
    assert Protected(w') by { hide Grown, Later, Fit, UnresolvedExit, OneUnresolved, Confirmed, Safe; }
    if Safe(w) {
      assert forall t :: UnresolvedExit(w.rows, t) ==> AnyUnresolved(w.rows);
      SafeStays(w, w');
    }
  }

  /** Order `x` buys `qty` shares of `s`. */
  predicate BuyOrder(b: Book, s: string, x: nat, qty: nat) {
    x < |b.orders| && b.orders[x].side.Buy? && b.orders[x].symbol == s && b.orders[x].qty == qty
  }

  lemma BuyOrderStays(b: Book, b': Book, s: string, x: nat, qty: nat)
    requires Later(b, b') && BuyOrder(b, s, x, qty)
    ensures BuyOrder(b', s, x, qty) && b.orders[x].filled <= b'.orders[x].filled
    ensures Spare(b, s, x) <= Spare(b', s, x)
  {
    hide Reach, Offered, Spare;
    assert OrderLater(b.orders[x], b'.orders[x]);
    assert Spare(b, s, x) <= Spare(b', s, x);
  }

  /** A purchase never eats into the cover: what it has bought is spare, from acceptance on. */
  lemma AcceptedBuy(b: Book, mid: Book, b': Book, s: string, qty: nat)
    requires Later(b, mid) && Later(Submitted(mid, s, Buy, qty), b')
    ensures BuyOrder(b', s, |mid.orders|, qty)
    ensures 0 <= Cover(b, s) ==> 0 <= Spare(b', s, |mid.orders|)
  {
    hide Later, Reach;
    var taken, x := Submitted(mid, s, Buy, qty), |mid.orders|;
    BuyOrderStays(taken, b', s, x, qty);
    SubmitCover(mid, s, Buy, qty, s);
    CoverGrows(b, mid, s);
  }

  lemma SpareCovers(b: Book, s: string, x: nat, qty: nat)
    requires BuyOrder(b, s, x, qty) && 0 <= Spare(b, s, x)
    ensures b.orders[x].filled <= Cover(b, s)
  {
  }

  /** A stop for no more than the cover leaves the rest of the account covering it ever after. */
  lemma AcceptedStop(b: Book, mid: Book, b': Book, s: string, qty: nat)
    requires Later(b, mid) && Later(Submitted(mid, s, Sell, qty), b')
    ensures qty <= Cover(b, s) ==> qty <= Reach(b', s, {|mid.orders|})
    ensures qty <= Cover(b, s) ==> qty <= Cover(mid, s)
  {
    hide Reach, Offered, Spare;
    var taken, y := Submitted(mid, s, Sell, qty), |mid.orders|;
    CoverGrows(b, mid, s);
    SubmitAt(mid, s, Sell, qty, s, {y});
    NotYet(mid, s, {});
    assert {} + {y} == {y};
    assert Reach(taken, s, {y}) <= Reach(b', s, {y});
  }

  /** The sells of `s` that can still fill. */
  function AliveSells(b: Book, s: string): set<nat> {
    set k | 0 <= k < |b.orders| && SellOrder(b, s, k) && Open(b.orders[k]) != 0
  }

  lemma NothingElseOffers(b: Book, s: string, these: set<nat>)
    requires AliveSells(b, s) <= these
    ensures Offered(b.orders, s, these) == 0
  {
    SkipAll(b.orders, s, these);
  }

  lemma {:induction false} SkipAll(os: seq<Order>, s: string, these: set<nat>)
    requires forall k :: 0 <= k < |os| && k !in these ==> SellOpen(os[k], s) == 0
    ensures Offered(os, s, these) == 0
  {
    if os != [] { SkipAll(os[..|os| - 1], s, these); }
  }

  /** A new position, with its stop or without. */
  function WithPosition(w: World, s: string, p: Position): World {
    w.(ledger := w.ledger[s := p], exposed := w.exposed - {s})
  }

  lemma NewPosition(w: World, s: string, p: Position)
    requires Sound(w) && Safe(w) && s !in w.ledger && 0 < p.qty && p.next.None?
    requires p.stop.Some? ==> SellOrder(w.book, s, p.stop.value)
    requires w.degraded || (p.stop.Some? && p.stop.value in w.told && Confirmed(w.told[p.stop.value], s, p.qty))
    requires Backed(w, s, p.qty, AsSet(p.stop))
    ensures Sound(WithPosition(w, s, p)) && Safe(WithPosition(w, s, p))
  {
    hide Reach, Offered, UnresolvedExit, OneUnresolved, Confirmed;
    var w' := WithPosition(w, s, p);
    assert Protected(w') by {
      forall t | t in w'.ledger && !w.degraded
        ensures t in w'.exposed || ProtectedAt(w', t)
      {
        if t != s { assert t in w.exposed || ProtectedAt(w, t); }
      }
    }
    forall t
      ensures KeptAt(w', t)
    {
      assert KeptAt(w, t);
      if t != s { assert Held(w'.ledger, t) == Held(w.ledger, t) && StopOf(w'.ledger, t) == StopOf(w.ledger, t); }
      assert Doubled(w'.ledger, t) ==> t != s && Doubled(w.ledger, t);
    }
    assert forall t :: HasOrphan(w', t) == HasOrphan(w, t);
  }

  // ---- what operations start from and leave behind ----

  /** Uncertainty is bounded, every symbol is kept safe, and whatever is not covered has been noted. */
  ghost predicate Consistent(w: World) { Fit(w) && OneUnresolved(w.rows) && Safe(w) && Bare(w.book) <= w.uncovered }

  /** And every position is protected, or the degraded flag is up. */
  ghost predicate ReadyWith(w: World) { Consistent(w) && Protected(w) }

  /** What a step on `s` may do to cover and orphans: it uncovers no other symbol, and `s` only when an
      orphan of `s` was working as it began; new orphans are sells of `s`. */
  ghost predicate Spares(w: World, w': World, s: string) {
    && Onward(w.book, w'.book, s)
    && w.uncovered <= w'.uncovered <= w.uncovered + iset{s}
    && (s in w'.uncovered ==> s in w.uncovered || OrphanWorks(w, s))
    && OrphansOf(w, w', s)
  }

  ghost predicate OrphansOf(w: World, w': World, s: string) {
    && w.orphans <= w'.orphans
    && (forall k :: k in w'.orphans && k !in w.orphans ==> SellOrder(w'.book, s, k))
  }

  /** What is known of the orphans of `s` during an exit of it. */
  ghost predicate Known(w: World, s: string, quiet: bool) { if quiet then !OrphanWorks(w, s) else HasOrphan(w, s) }

  /** A sell may uncover only its own symbol, and that only beyond its cover. */
  lemma Bared(w: World, mid: Book, after: iset<string>, s: string, qty: nat, sent: bool)
    requires Bare(mid) <= w.uncovered
    requires after == w.uncovered + (if sent then Bare(Submitted(mid, s, Sell, qty)) else iset{})
    ensures w.uncovered <= after <= w.uncovered + iset{s}
    ensures s in after <==> s in w.uncovered || (sent && Cover(mid, s) < qty)
  {
    hide Bare, Reach;
    SubmitBares(mid, s, Sell, qty);
  }

  /** A purchase uncovers nothing. */
  lemma BuyBares(w: World, mid: Book, after: iset<string>, s: string, qty: nat, sent: bool)
    requires Bare(mid) <= w.uncovered
    requires after == w.uncovered + (if sent then Bare(Submitted(mid, s, Buy, qty)) else iset{})
    ensures after == w.uncovered
  {
    hide Bare, Reach;
    SubmitBares(mid, s, Buy, qty);
  }

  // ---- the residual stop of an exit ----

  /** A stop for `m` shares of `s` was asked for, and `y` is the one that went out: from `w` to `p`. */
  ghost predicate Residual(w: World, p: World, s: string, n: nat, m: int, y: Option<nat>, quiet: bool) {
    && Onward(w.book, p.book, s) && Bare(p.book) <= p.uncovered
    && p.ledger == w.ledger && p.nextExit == w.nextExit && (w.degraded ==> p.degraded)
    && p.exposed == w.exposed && p.overlaid == w.overlaid && p.orphans == w.orphans
    && (p.rows == w.rows || p.rows == Updated(w.rows, ResidualRow(n), Unclear))
    && (p.degraded || forall k :: k in w.told && Some(k) != y ==> k in p.told && p.told[k] == w.told[k])
    && (p.saved == w.saved || p.saved == Synced(w.saved, w.ledger))
    && w.uncovered <= p.uncovered <= w.uncovered + iset{s}
    && (s in p.uncovered && s !in w.uncovered ==> HasOrphan(p, s))
    && (if y.Some? then SellOrder(p.book, s, y.value) && Armed(p, s, y.value) else Free(p, s, m, quiet))
  }

  /** It went out on the book `mid`, or nothing did. */
  lemma ResidualPlaced(w: World, mid: Book, p: World, s: string, n: nat, qty: nat, y: Option<nat>, quiet: bool)
    requires Ended(w, s) && s in w.ledger && Free(w, s, qty, quiet) && (quiet || HasOrphan(w, s))
    requires Later(w.book, mid) && Bare(mid) <= w.uncovered && Bare(p.book) <= p.uncovered
    requires p.ledger == w.ledger && p.nextExit == w.nextExit && (w.degraded ==> p.degraded)
    requires p.exposed == w.exposed && p.overlaid == w.overlaid && p.orphans == w.orphans
    requires p.rows == w.rows || p.rows == Updated(w.rows, ResidualRow(n), Unclear)
    requires p.degraded || forall k :: k in w.told && Some(k) != y ==> k in p.told && p.told[k] == w.told[k]
    requires p.saved == w.saved || p.saved == Synced(w.saved, w.ledger)
    requires y.None? ==> Later(mid, p.book)
    requires y.Some? ==> y.value == |mid.orders| && Later(Submitted(mid, s, Sell, qty), p.book)
    requires p.uncovered == w.uncovered + (if y.Some? then Bare(Submitted(mid, s, Sell, qty)) else iset{})
    ensures Residual(w, p, s, n, qty, y, quiet)
    ensures quiet ==> p.uncovered == w.uncovered
    ensures |p.book.orders| == |w.book.orders| + (if y.Some? then 1 else 0)
    ensures y.Some? ==> y.value == |w.book.orders|
  {
    hide Later, Bare, Free, Armed, HasOrphan, Reach, Offered, Synced, ProtectedElsewhere, OneUnresolved, FitLedger;
    SentIsOnward(w.book, mid, p.book, s, Sell, qty, y.Some?);
    Bared(w, mid, p.uncovered, s, qty, y.Some?);
    LaterGrows(w.book, mid);
    if y.Some? {
      AcceptedSell(w.book, mid, p.book, s, qty);
      ArmedAgain(w, mid, p, s, qty, quiet);
      LaterGrows(Submitted(mid, s, Sell, qty), p.book);
    } else {
      LaterTrans(w.book, mid, p.book);
      LaterGrows(mid, p.book);
      FreeStays(w, p, s, qty, quiet);
    }
    if !quiet { OrphanStays(w, p, s); }
  }

  /** The stop is stored, or noted among the orphans, and the exit can be booked. */
  lemma ResidualDone(w: World, p: World, w': World, s: string, n: nat, f: nat, y: Option<nat>, quiet: bool)
    requires Ended(w, s) && SafeElsewhere(w, s) && s in w.ledger && w.ledger[s].stop.None? && f < w.ledger[s].qty
    requires Residual(w, p, s, n, w.ledger[s].qty - f, y, quiet)
    requires s in w'.ledger
    requires w' == p.(ledger := w.ledger[s := w.ledger[s].(stop := w'.ledger[s].stop)], orphans := w'.orphans)
    requires w.orphans <= w'.orphans <= w.orphans + AsSet(y)
    requires w'.ledger[s].stop == y || (w'.ledger[s].stop.None? && AsSet(y) <= w'.orphans)
    ensures Consistent(w') && ProtectedElsewhere(w', s) && OrphansOf(w, w', s)
    ensures w'.degraded || (y.Some? && w'.ledger[s].stop == y && y.value in w'.told
                            && Confirmed(w'.told[y.value], s, w.ledger[s].qty - f)) ==>
            ReadyWith(Booked(w', s, f))
  {
    hide Consistent, Fit, OneUnresolved, ProtectedElsewhere, SafeElsewhere, Bare, HasOrphan, Armed, Free, Synced,
      Onward, Confirmed, Booked, ReadyWith;
    Remembered(w, p, w', s, n, y, w.ledger[s].qty - f, quiet);
    Rearmed(w', s, f, y, quiet);
    if
      && !w'.degraded && y.Some? && w'.ledger[s].stop == y && y.value in w'.told
      && Confirmed(w'.told[y.value], s, w.ledger[s].qty - f)
    {
      RestProtected(w', s, f);
      DoubledIsExposed(w', s) by { ConsistentIsFit(w'); }
    }
  }

  lemma ConsistentIsFit(w: World)
    requires Consistent(w)
    ensures Fit(w)
  {
  }

  lemma Remembered(w: World, p: World, w': World, s: string, n: nat, y: Option<nat>, m: int, quiet: bool)
    requires Ended(w, s) && SafeElsewhere(w, s) && s in w.ledger && w.ledger[s].stop.None?
    requires Residual(w, p, s, n, m, y, quiet)
    requires s in w'.ledger
    requires w' == p.(ledger := w.ledger[s := w.ledger[s].(stop := w'.ledger[s].stop)], orphans := w'.orphans)
    requires w.orphans <= w'.orphans <= w.orphans + AsSet(y)
    requires w'.ledger[s].stop.Some? ==> w'.ledger[s].stop == y
    ensures Ended(w', s) && SafeElsewhere(w', s) && OrphansOf(w, w', s) && Bare(w'.book) <= w'.uncovered
    ensures if y.Some? then Armed(w', s, y.value) else Free(w', s, m, quiet)
  {
    hide OneUnresolved, SafeElsewhere, ProtectedElsewhere, Bare, HasOrphan, Synced, Reach, Offered, Armed, Free;
    NoResidualRow(w, n);
    assert Grown(w.book, p.book);
    Noted(p, w', s, y, m, quiet);
    EndStays(w, w', s);
  }

  /** The exit can be booked: the new stop `y` is stored or among the orphans, or there is none. */
  lemma Rearmed(w: World, s: string, f: nat, y: Option<nat>, quiet: bool)
    requires Ended(w, s) && SafeElsewhere(w, s) && Bare(w.book) <= w.uncovered
    requires s in w.ledger && f < w.ledger[s].qty
    requires if y.Some?
             then Armed(w, s, y.value) && (w.ledger[s].stop == y || (w.ledger[s].stop.None? && y.value in w.orphans))
             else Free(w, s, w.ledger[s].qty - f, quiet) && w.ledger[s].stop.None?
    ensures Consistent(w) && ProtectedElsewhere(w, s)
    ensures w.degraded || s in w.exposed || ProtectedAt(Booked(w, s, f), s) ==> ReadyWith(Booked(w, s, f))
  {
    hide Fit, OneUnresolved, SafeElsewhere, Bare, KeptAt, Safe, ProtectedElsewhere, Armed, Free, ProtectedAt, Booked;
    BookedElsewhere(w, s, f);
    NothingBooked(w, s);
    if y.Some? {
      ArmedIsKept(w, s, y.value, 0);
      ArmedIsKept(w, s, y.value, f);
    } else {
      FreeIsKept(w, s, w.ledger[s].qty - f, f, quiet);
    }
    BookedSafe(w, s, 0);
    BookedSafe(w, s, f);
    if w.degraded || s in w.exposed || ProtectedAt(Booked(w, s, f), s) { ProtectedEverywhere(Booked(w, s, f), s); }
  }

  // ---- several steps ----

  /** A symbol became uncovered only if an orphan of it was working at the start, or it was listed more than
      once. */
  ghost predicate Uncovers(w0: World, w: World) {
    forall t :: t in w.uncovered ==> t in w0.uncovered || OrphanWorks(w0, t) || Doubled(w0.ledger, t)
  }

  /** After steps on the symbols `done`; elsewhere no orphan has come to work. */
  ghost predicate Spared(w0: World, w: World, done: set<string>) {
    && Uncovers(w0, w) && w0.uncovered <= w.uncovered && w0.orphans <= w.orphans
    && Existing(w.book, w.orphans)
    && (forall t :: t !in done && OrphanWorks(w, t) ==> OrphanWorks(w0, t))
  }

  lemma SparedNone(w: World)
    requires Fit(w)
    ensures Spared(w, w, {})
  {
  }

  /** Orders only end, so an orphan that works now worked before, or is new. */
  lemma WorkedBefore(w: World, w': World, t: string)
    requires Grown(w.book, w'.book) && Existing(w.book, w.orphans) && OrphanWorks(w', t)
    requires forall k :: k in w'.orphans && k !in w.orphans ==> !SellOrder(w'.book, t, k)
    ensures OrphanWorks(w, t)
  {
    var k :| k in w'.orphans && SellOrder(w'.book, t, k) && Open(w'.book.orders[k]) != 0;
    assert OrderLater(w.book.orders[k], w'.book.orders[k]);
    assert SellOrder(w.book, t, k) && Open(w.book.orders[k]) != 0;
  }

  lemma SparedOne(w0: World, w: World, w': World, s: string, done: set<string>)
    requires Spared(w0, w, done) && (s !in done || Doubled(w0.ledger, s)) && Spares(w, w', s) && Fit(w')
    ensures Spared(w0, w', done + {s})
  {
    hide Onward, OrphanWorks;
    OnwardGrown(w.book, w'.book, s);
    forall t | t != s && OrphanWorks(w', t)
      ensures OrphanWorks(w, t)
    {
      WorkedBefore(w, w', t);
    }
  }

  lemma OnwardGrown(b: Book, b': Book, s: string)
    requires Onward(b, b', s)
    ensures Grown(b, b')
  {
    hide Reach, Offered;
  }

  lemma SparedLater(w0: World, w: World, w': World, done: set<string>)
    requires Spared(w0, w, done) && Later(w.book, w'.book) && w'.uncovered == w.uncovered && w'.orphans == w.orphans
    ensures Spared(w0, w', done)
  {
    hide Later, OrphanWorks;
    LaterGrows(w.book, w'.book);
    forall t | OrphanWorks(w', t)
      ensures OrphanWorks(w, t)
    {
      WorkedBefore(w, w', t);
    }
  }

  /** Market moves before a step on `s`. */
  lemma SparesFrom(w0: World, w: World, w': World, s: string)
    requires Spares(w, w', s) && Later(w0.book, w.book) && w.uncovered == w0.uncovered && w.orphans == w0.orphans
    requires Existing(w0.book, w0.orphans)
    ensures Spares(w0, w', s)
  {
    hide Onward, Later, OrphanWorks;
    LaterIsOnward(w0.book, w.book, s);
    OnwardTrans(w0.book, w.book, w'.book, s);
    LaterGrows(w0.book, w.book);
    if OrphanWorks(w, s) { WorkedBefore(w0, w, s); }
  }

  /** Market moves after it. */
  lemma SparesStays(w0: World, w: World, w': World, s: string)
    requires Spares(w0, w, s) && Later(w.book, w'.book) && w'.uncovered == w.uncovered && w'.orphans == w.orphans
    ensures Spares(w0, w', s)
  {
    hide Onward, Later, OrphanWorks;
    LaterIsOnward(w.book, w'.book, s);
    OnwardTrans(w0.book, w.book, w'.book, s);
    forall k | k in w'.orphans && k !in w0.orphans
      ensures SellOrder(w'.book, s, k)
    {
      SellOrderStays(w.book, w'.book, s, k);
    }
  }

  /** Nothing but market moves. */
  lemma SparesNothing(w: World, w': World, s: string)
    requires Later(w.book, w'.book) && w'.uncovered == w.uncovered && w'.orphans == w.orphans
    ensures Spares(w, w', s)
  {
    hide Onward, OrphanWorks;
    LaterIsOnward(w.book, w'.book, s);
  }

  // ---- the ledger in the database ----

  /** The database may be rewritten in quantities and stops, and rows come and go. */
  lemma SavedAnew(w: World, t: Table, overlaid: set<string>)
    requires Consistent(w) && FitTable(t, w.book) && FitDoubles(w.ledger, t, w.exposed, overlaid)
    ensures Consistent(w.(saved := t, overlaid := overlaid))
    ensures ReadyWith(w) ==> ReadyWith(w.(saved := t, overlaid := overlaid))
  {
    hide Bare, OneUnresolved, UnresolvedExit, Reach, Offered, OrphanWorks, FitLedger, FitTable, FitDoubles,
      StopConfirmed;
    var w' := w.(saved := t, overlaid := overlaid);
    assert forall s :: KeptAt(w', s) == KeptAt(w, s) by {
      forall s
        ensures KeptAt(w', s) == KeptAt(w, s)
      {
      }
    }
    assert forall s :: HasOrphan(w', s) == HasOrphan(w, s);
  }

  /** The closing write keeps everything. */
  lemma RebookedAnew(w: World, s: string)
    requires Consistent(w)
    ensures var t := Rebooked(w.saved, w.ledger, s);
            Consistent(w.(saved := t)) && (ReadyWith(w) ==> ReadyWith(w.(saved := t)))
  {
    hide Safe, OneUnresolved, Protected, Bare, Rebooked, OpenTwice, FitTable, FitLedger;
    RebookedFits(w.saved, w.ledger, s, w.book);
    RebookedOpens(w.saved, w.ledger, s);
    SavedAnew(w, Rebooked(w.saved, w.ledger, s), w.overlaid);
  }

  /** A new row keeps everything, with its symbol noted when it had an open row. */
  lemma RecordedAnew(w: World, s: string, overlaid: set<string>)
    requires Consistent(w) && s in w.ledger && overlaid == w.overlaid + (if HasOpen(w.saved, s) then {s} else {})
    ensures var t := Recorded(w.saved, w.ledger, s);
            Consistent(w.(saved := t, overlaid := overlaid))
              && (ReadyWith(w) ==> ReadyWith(w.(saved := t, overlaid := overlaid)))
  {
    hide Safe, OneUnresolved, Protected, Bare, Recorded, OpenTwice, HasOpen, FitTable, FitLedger;
    RecordedFits(w.saved, w.ledger, s, w.book);
    RecordedOpens(w.saved, w.ledger, s);
    SavedAnew(w, Recorded(w.saved, w.ledger, s), overlaid);
  }

  lemma VoidedAnew(w: World)
    requires Consistent(w)
    ensures var t := Voided(w.saved);
            Consistent(w.(saved := t)) && (ReadyWith(w) ==> ReadyWith(w.(saved := t)))
  {
    hide Safe, OneUnresolved, Protected, Bare, Voided, OpenTwice, HasOpen, FitTable, FitLedger;
    VoidedFits(w.saved, w.book);
    SavedAnew(w, Voided(w.saved), w.overlaid);
  }

  /** The position of `s` gets the key of its row. */
  function Keyed(w: World, s: string, row: Option<nat>): World
    requires s in w.ledger
  {
    w.(ledger := w.ledger[s := w.ledger[s].(row := row)])
  }

  lemma KeyedAnew(w: World, s: string, row: Option<nat>)
    requires ReadyWith(w) && s in w.ledger && w.ledger[s].next.None?
    ensures ReadyWith(Keyed(w, s, row))
  {
    hide Bare, OneUnresolved, UnresolvedExit, Reach, Offered, OrphanWorks, FitTable, OpenTwice;
    var w' := Keyed(w, s, row);
    forall t
      ensures KeptAt(w', t) == KeptAt(w, t)
    {
      assert Held(w'.ledger, t) == Held(w.ledger, t) && StopOf(w'.ledger, t) == StopOf(w.ledger, t);
      assert Doubled(w'.ledger, t) == Doubled(w.ledger, t);
    }
    assert forall t :: HasOrphan(w', t) == HasOrphan(w, t);
    assert forall t :: t in w.ledger ==> (ProtectedAt(w', t) <==> ProtectedAt(w, t)) by { hide Confirmed; }
  }

  /** More orphans keep everything. */
  lemma OrphanedAnew(w: World, more: set<nat>)
    requires Consistent(w) && Existing(w.book, more)
    ensures var w' := w.(orphans := w.orphans + more);
            Consistent(w') && (ReadyWith(w) ==> ReadyWith(w'))
  {
    hide Bare, OneUnresolved, UnresolvedExit, FitTable, FitLedger, FitDoubles, StopConfirmed, Safe, Later;
    LaterRefl(w.book);
    SafeStays(w, w.(orphans := w.orphans + more));
  }

  lemma ConsistentlyDegraded(w: World)
    requires Consistent(w) && w.degraded
    ensures ReadyWith(w)
  {
    hide Consistent;
  }

  /** Safety, protection and well-formedness do not depend on which symbols are exposed, as long as those
      listed twice are, */
  lemma Reexposed(w: World, exposed: set<string>)
    requires Doubles(w.ledger) <= exposed
    ensures Consistent(w) ==> Consistent(w.(exposed := exposed))
    ensures forall t :: ProtectedAt(w.(exposed := exposed), t) == ProtectedAt(w, t)
  {
    hide UnresolvedExit, Reach, Offered, FitLedger, Confirmed, OneUnresolved, Bare, OpenTwice, FitTable;
    var w' := w.(exposed := exposed);
    assert forall t :: Doubled(w.ledger, t) ==> t in Doubles(w.ledger);
    assert forall t :: HasOrphan(w', t) == HasOrphan(w, t);
    forall t
      ensures KeptAt(w', t) == KeptAt(w, t)
    {
    }
  }

  /** nor on the degraded flag. */
  lemma Reflagged(w: World, w': World)
    requires w' == w.(degraded := w'.degraded)
    ensures Consistent(w') == Consistent(w)
    ensures forall t :: ProtectedAt(w', t) == ProtectedAt(w, t)
  {
    hide UnresolvedExit, Reach, Offered, FitLedger, FitTable, FitDoubles, Confirmed, OneUnresolved, Bare;
    assert forall t :: HasOrphan(w', t) == HasOrphan(w, t);
    forall t
      ensures KeptAt(w', t) == KeptAt(w, t)
    {
    }
  }

  // ---- restarts ----

  /** The ledger as the database has it. */
  ghost function AsStored(w: World): World { w.(ledger := Loaded(w.saved)) }

  /** A working sell the database does not know, of a symbol whose stored position is not safe without it. */
  ghost predicate Forgotten(w: World, k: nat)
    requires k < |w.book.orders|
  {
    var o := w.book.orders[k];
    o.side.Sell? && Open(o) != 0 && StopOf(Loaded(w.saved), o.symbol) != Some(k) && !KeptAt(AsStored(w), o.symbol)
  }

  ghost function Stale(w: World): set<nat> { set k | 0 <= k < |w.book.orders| && Forgotten(w, k) }

  /** The ledger is read back from the database, what it does not know is orphaned, and a symbol it lists
      twice is exposed. */
  ghost function Reloaded(w: World): World {
    w.(ledger := Loaded(w.saved), orphans := w.orphans + Stale(w), exposed := w.exposed + Doubles(Loaded(w.saved)))
  }

  lemma ReloadKeeps(w: World)
    requires Consistent(w)
    ensures Consistent(Reloaded(w))
  {
    hide OneUnresolved, UnresolvedExit, KeptAt, FitLedger, FitTable, Bare, Reach, Forgotten, Loaded, OpenTwice;
    var w' := Reloaded(w);
    LoadedFits(w.saved, w.book);
    forall s
      ensures Doubled(w'.ledger, s) ==> OpenTwice(w.saved, s) && s in Doubles(w'.ledger)
    {
      LoadedAt(w.saved, s);
    }
    forall s
      ensures KeptAt(w', s)
    {
      ReloadKeepsAt(w, s);
    }
    forall s | s in w'.uncovered
      ensures HasOrphan(w', s)
    {
      OrphanStays(w, w', s) by { LaterRefl(w.book); LaterGrows(w.book, w.book); }
    }
  }

  lemma ReloadKeepsAt(w: World, s: string)
    requires Safe(w) && Bare(w.book) <= w.uncovered
    ensures KeptAt(Reloaded(w), s)
  {
    hide UnresolvedExit, Reach, Offered, Bare, HasOrphan, Loaded;
    var v, w' := AsStored(w), Reloaded(w);
    if s !in w.uncovered {
      CoveredAt(w, s);
      var k := StopSet(Loaded(w.saved), s);
      if KeptAt(v, s) {
        SkippingMore(w.book.orders, s, k + w.orphans, k + w'.orphans);
      } else {
        forall j | j in AliveSells(w.book, s)
          ensures j in k + w'.orphans
        {
          assert j !in k ==> Forgotten(w, j);
        }
        NothingElseOffers(w.book, s, k + w'.orphans);
      }
    }
  }

  /** A restart orphans a sell of `s` exactly when the stored position of `s` is not safe. */
  lemma ForgetsExactly(w: World, s: string)
    requires Consistent(w)
    ensures (exists k :: k in Stale(w) && SellOrder(w.book, s, k)) <==> !KeptAt(AsStored(w), s)
  {
    hide OneUnresolved, UnresolvedExit, Fit, Bare, Reach, Offered, HasOrphan;
    var v := AsStored(w);
    if !KeptAt(v, s) {
      CoveredAt(w, s);
      var these := StopSet(Loaded(w.saved), s) + w.orphans;
      if forall k :: k in AliveSells(w.book, s) ==> k in these {
        NothingElseOffers(w.book, s, these);
      } else {
        var k :| k in AliveSells(w.book, s) && k !in these;
        assert Forgotten(w, k);
      }
    }
  }

  /** Where the database agrees with the ledger, nothing is forgotten. */
  lemma AgreedIsKept(w: World, s: string)
    requires Safe(w) && Agree(w.saved, w.ledger, s)
    ensures KeptAt(AsStored(w), s)
  {
    hide UnresolvedExit, Reach, Offered;
    assert KeptAt(w, s);
  }
}
