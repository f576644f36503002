/** Where the live protocol falls short of its promises: the states in which an exit passes every check and
    still sells what another order is selling, and the interleaving in which a reconciliation retry takes
    the degraded flag down over a stop that no longer confirms. */
module LiveHazards {
  import opened Common
  import opened OrderBook
  import opened Protection
  import opened Reconciliation
  import opened Venue
  import opened TradeTable
  import opened LiveLedger
  import opened LiveSafety
  import opened LiveResults
  import Mirror = LiveMirror
  import Store = PortfolioStore

  // ---- exits that oversell ----

  /** Every guard of an exit of the whole position lets it through: no exit of `s` is unresolved, its
      tracked stop has ended unfilled if it has one, and the broker lists exactly the position in one long row. */
  ghost predicate ExitPasses(w: World, s: string, holdings: seq<Holding>) {
    && s in w.ledger && !UnresolvedExit(w.rows, s)
    && (w.ledger[s].stop.Some? ==>
      w.ledger[s].stop.value < |w.book.orders| && Final(w.book.orders[w.ledger[s].stop.value], 0))
    && Accurate(w.book, holdings)
    && |RowsOf(holdings, s)| == 1 && RowsOf(holdings, s)[0].long && RowsOf(holdings, s)[0].qty == w.ledger[s].qty
  }

  /** Sells of `s` the broker has, and those it may still get. */
  function WorkingSells(b: Book, s: string): set<nat> { set k | k in AliveSells(b, s) && b.orders[k].phase.Working? }

  function LateSells(b: Book, s: string): set<nat> { set k | k in AliveSells(b, s) && b.orders[k].phase.Underway? }

  /** An exit that passes every guard stays within the cover, whatever the market does before the sale
      arrives, exactly when no sell of the symbol is working, which could be asked of the broker, and none
      is still to arrive, which takes knowing that no submission is unheard of. */
  lemma PassingExitSafeExactly(w: World, s: string, holdings: seq<Holding>)
    requires ExitPasses(w, s, holdings)
    ensures (forall moves :: w.ledger[s].qty <= Cover(ApplyAll(w.book, moves), s))
       <==> WorkingSells(w.book, s) == {} && LateSells(w.book, s) == {}
  {
    hide Cover, ApplyAll, Net, Offered, Accurate, UnresolvedExit;
    OnlyRowIsNet(w.book, holdings, s);
    SaleSafeExactly(w.book, s, w.ledger[s].qty);
    OffersMeansWorks(w.book.orders, s);
    AliveIsEither(w.book, s);
    assert AliveSells(w.book, s) == {}
      <==> (forall k :: 0 <= k < |w.book.orders| ==> SellOpen(w.book.orders[k], s) == 0) by {
      forall k | 0 <= k < |w.book.orders|
        ensures SellOpen(w.book.orders[k], s) != 0 <==> k in AliveSells(w.book, s)
      {
      }
      if k :| 0 <= k < |w.book.orders| && SellOpen(w.book.orders[k], s) != 0 { assert k in AliveSells(w.book, s); }
    }
  }

  /** Sells of `s` whose reply brought no id. The application could keep a record of them: it made the call, and
      was told no id. */
  function UnheardSells(b: Book, s: string): set<nat> { set k | k in AliveSells(b, s) && !b.orders[k].heard }

  /** On the application's own record: if every submission of a sell of the symbol was answered, or has ended,
      the first half is the whole condition. */
  lemma HeardExitSafeExactly(w: World, s: string, holdings: seq<Holding>)
    requires ExitPasses(w, s, holdings)
    ensures LateSells(w.book, s) <= UnheardSells(w.book, s)
    ensures UnheardSells(w.book, s) == {} ==>
      ((forall moves :: w.ledger[s].qty <= Cover(ApplyAll(w.book, moves), s)) <==> WorkingSells(w.book, s) == {})
  {
    hide Cover, ApplyAll, ExitPasses;
    PassingExitSafeExactly(w, s, holdings);
    forall k | k in LateSells(w.book, s)
      ensures k in UnheardSells(w.book, s)
    {
      var o: Order := w.book.orders[k];
      assert o.phase.Underway?;
    }
  }

  lemma AliveIsEither(b: Book, s: string)
    ensures AliveSells(b, s) == WorkingSells(b, s) + LateSells(b, s)
  {
    assert forall k :: k in AliveSells(b, s) ==> Alive(b.orders[k]);
  }

  lemma {:induction false} OffersMeansWorks(os: seq<Order>, s: string)
    ensures Offered(os, s, {}) == 0 <==> forall k :: 0 <= k < |os| ==> SellOpen(os[k], s) == 0
  {
    if os != [] {
      var n := |os| - 1;
      OffersMeansWorks(os[..n], s);
      assert forall k :: 0 <= k < n ==> os[..n][k] == os[k];
    }
  }

  /** Over orphans that rest, and outside what was uncovered before, a consistent state never lets an
      overselling exit pass. */
  lemma OnlyOrphansOversell(w: World, s: string, holdings: seq<Holding>)
    requires Consistent(w) && ExitPasses(w, s, holdings) && s !in w.uncovered && AliveSells(w.book, s) != {}
    ensures OrphanWorks(w, s)
  {
    hide Bare, Fit, OneUnresolved, Accurate, UnresolvedExit, KeptAt, Offered, Reach;
    OffersMeansWorks(w.book.orders, s);
    var k :| k in AliveSells(w.book, s);
    assert SellOpen(w.book.orders[k], s) != 0;
    if !OrphanWorks(w, s) { RestedIsFree(w, s, holdings); }
  }

  lemma RestedIsFree(w: World, s: string, holdings: seq<Holding>)
    requires Safe(w) && ExitPasses(w, s, holdings) && s !in w.uncovered && !OrphanWorks(w, s)
    ensures Offered(w.book.orders, s, {}) == 0
  {
    hide Accurate, UnresolvedExit, OrphanWorks;
    assert KeptAt(w, s);
    OnlyRowIsNet(w.book, holdings, s);
    CoverNet(w.book, s);
    var k := StopSet(w.ledger, s);
    RestingOrphans(w, s, k);
    if w.ledger[s].stop.Some? {
      var x := w.ledger[s].stop.value;
      SkippingIdle(w.book.orders, s, {}, {x});
      SumsWith(w.book.orders, x, s, {});
      assert {} + {x} == {x};
    }
  }

  const STOCK := "INFY"
  const HOLDING := [Holding(STOCK, 10, true, "MIS", "NSE")]

  function Bought10(): Order { OrderData(STOCK, Buy, 10, 10, Complete, true) }

  /** Answered, if it is at the broker. */
  function Sell10(phase: Phase): Order { OrderData(STOCK, Sell, 10, 0, phase, !phase.Underway?) }

  predicate Either(phase: Phase) { phase.Working? || phase.Underway? }

  function StopReport(): OrderReport {
    OrderReport("TRIGGER PENDING", STOCK, "SELL", "MIS", "NSE", "SL-M", Some(10), Some(0), Some(95.0), 0.0)
  }

  function Holding10(stop: Option<nat>): Ledger { map[STOCK := Position(10, stop, 95.0, 120.0, Some(0), None)] }

  function Row10(stop: Option<nat>): Stored { Stored(STOCK, true, 10, stop, 95.0, 120.0) }

  /** Ten shares bought, and their stop confirmed. */
  function Entered(): World {
    World(Book(map[STOCK := 10], [Bought10(), Sell10(Working)]), iset{}, map[1 := StopReport()],
          map[EntryRow("k") := Row(STOCK, Buy, StopPlaced, 0)],
          Holding10(Some(1)), [Row10(Some(1))], false, 0, {}, {}, {})
  }

  /** After a target exit of it that was refused: the stop cancelled, the sale rejected unfilled, a
      replacement stop sent, the exit's row closed. */
  function AfterExit(stop: Option<nat>, degraded: bool, orphans: set<nat>, phase: Phase): World {
    World(Book(map[STOCK := 10], [Bought10(), Sell10(Cancelled), Sell10(Rejected), Sell10(phase)]), iset{},
          map[1 := StopReport(), 3 := StopReport()],
          map[EntryRow("k") := Row(STOCK, Buy, StopPlaced, 0), ExitRow(0) := Row(STOCK, Sell, Closed, 1)],
          Holding10(stop), [Row10(Some(1))], degraded, 1, orphans, {}, {})
  }

  /** The sale of an exit on a book like these, and what then may happen. */
  lemma SaleGoesShort(b: Book, k: nat, phase: Phase)
    requires b.net == map[STOCK := 10] && k < |b.orders| && Either(phase) && Sell10At(b, k, phase)
    requires forall i :: 0 <= i < |b.orders| && i != k ==> SellOpen(b.orders[i], STOCK) == 0
    ensures Cover(Submitted(b, STOCK, Sell, 10), STOCK) == -10
    ensures Net(ApplyAll(Submitted(b, STOCK, Sell, 10), SellsBoth(k, |b.orders|)), STOCK) == -10
  {
    var b', n := Submitted(b, STOCK, Sell, 10), |b.orders|;
    SubmitCover(b, STOCK, Sell, 10, STOCK);
    CoverNet(b, STOCK);
    SkipAll(b.orders, STOCK, {k});
    SumsWith(b.orders, k, STOCK, {});
    assert {} + {k} == {k};
    ApplyAllConcat(b', [Arrive(k), Fill(k, 10)], [Arrive(n), Fill(n, 10)]);
    ApplyTwo(b', Arrive(k), Fill(k, 10));
    ApplyTwo(ApplyAll(b', [Arrive(k), Fill(k, 10)]), Arrive(n), Fill(n, 10));
  }

  predicate Sell10At(b: Book, k: nat, phase: Phase)
    requires k < |b.orders|
  {
    b.orders[k] == Sell10(phase).(heard := b.orders[k].heard)
  }

  /** Both orders arrive and sell ten shares. */
  function SellsBoth(k: nat, n: nat): seq<Move> { [Arrive(k), Fill(k, 10)] + [Arrive(n), Fill(n, 10)] }

  lemma HoldingIsAccurate(b: Book)
    requires b.net == map[STOCK := 10]
    ensures Accurate(b, HOLDING) && RowsOf(HOLDING, STOCK) == HOLDING
  {
    assert HOLDING[0].symbol in HoldingSymbols(HOLDING);
    assert HOLDING[..0] == [];
  }

  /** A position without an unresolved exit passes, when its stop is gone and ten shares are listed. */
  lemma Passes(w: World)
    requires w.book.net == map[STOCK := 10] && STOCK in w.ledger && w.ledger[STOCK].qty == 10
    requires forall id :: id in w.rows ==> !PendingExit(w.rows[id], STOCK)
    requires w.ledger[STOCK].stop.Some? ==>
      w.ledger[STOCK].stop.value < |w.book.orders| && Final(w.book.orders[w.ledger[STOCK].stop.value], 0)
    ensures ExitPasses(w, STOCK, HOLDING)
  {
    hide Accurate;
    HoldingIsAccurate(w.book);
  }

  /** The replacement stop of a refused exit is accepted, and the await for its confirmation raises before
      its id is stored. From a state in order, the next exit passes every guard, and ten shares are sold
      that the account does not have. */
  lemma OrphanedStopOversells()
    ensures ReadyWith(Entered()) && !Entered().degraded && Entered().orphans == {}
    ensures var cancelled := Apply(Entered().book, End(1, Cancelled));
            var refused := Apply(Acknowledged(Submitted(cancelled, STOCK, Sell, 10), 2), End(2, Rejected));
            AfterExit(None, true, {3}, Working).book == Acknowledged(Submitted(refused, STOCK, Sell, 10), 3)
    ensures var w := AfterExit(None, true, {3}, Working);
            && ReadyWith(w) && OrphanWorks(w, STOCK) && !Safe(w.(orphans := {}))
            && ExitPasses(w, STOCK, HOLDING)
            && Cover(Submitted(w.book, STOCK, Sell, 10), STOCK) < 0
            && (exists moves :: Net(ApplyAll(Submitted(w.book, STOCK, Sell, 10), moves), STOCK) == -10)
  {
    hide ReadyWith, ExitPasses, Safe, ApplyAll, Cover, Apply;
    EnteredIsReady();
    var w := AfterExit(None, true, {3}, Working);
    AfterExitIsReady(None, true, {3}, Working);
    Passes(w);
    SaleGoesShort(w.book, 3, Working);
    OrphanWorking(w, Working);
    Unsafe(w.(orphans := {}), Working);
    RefusedExit(Working);
  }

  /** How the book got there. */
  lemma RefusedExit(phase: Phase)
    requires Either(phase)
    ensures var cancelled := Apply(Entered().book, End(1, Cancelled));
            var refused := Apply(Acknowledged(Submitted(cancelled, STOCK, Sell, 10), 2), End(2, Rejected));
            var sent := Submitted(refused, STOCK, Sell, 10);
            AfterExit(None, true, {3}, phase).book == if phase.Working? then Acknowledged(sent, 3) else sent
  {
  }

  /** The same when the reply to the replacement stop is lost and the stop has not reached the broker: no
      sell of the symbol works, so that asking the broker would not help either; the stop arrives after the
      sale. */
  lemma LateStopOversells()
    ensures var w := AfterExit(None, true, {3}, Underway);
            && ReadyWith(w) && WorkingSells(w.book, STOCK) == {} && LateSells(w.book, STOCK) == {3}
            && ExitPasses(w, STOCK, HOLDING)
            && Cover(Submitted(w.book, STOCK, Sell, 10), STOCK) < 0
            && Net(ApplyAll(Submitted(w.book, STOCK, Sell, 10), SellsBoth(3, 4)), STOCK) == -10
    ensures var cancelled := Apply(Entered().book, End(1, Cancelled));
            var refused := Apply(Acknowledged(Submitted(cancelled, STOCK, Sell, 10), 2), End(2, Rejected));
            AfterExit(None, true, {3}, Underway).book == Submitted(refused, STOCK, Sell, 10)
  {
    hide ReadyWith, ExitPasses, ApplyAll, Cover, Apply;
    var w := AfterExit(None, true, {3}, Underway);
    AfterExitIsReady(None, true, {3}, Underway);
    Passes(w);
    SaleGoesShort(w.book, 3, Underway);
    RefusedExit(Underway);
    forall k
      ensures k in AliveSells(w.book, STOCK) <==> k == 3
    {
    }
  }

  /** Nothing raised: the replacement stop is stored and confirmed, but only in memory. The process starts
      over, and the database still has the stop that was cancelled: the next exit passes every guard and
      sells against the working replacement. */
  lemma RestartOversells()
    ensures var w := AfterExit(Some(3), false, {}, Working);
            && ReadyWith(w) && !w.degraded && w.orphans == {} && !Agree(w.saved, w.ledger, STOCK)
            && var r := Reloaded(w);
            && Stale(w) == {3} && OrphanWorks(r, STOCK)
            && ExitPasses(r, STOCK, HOLDING)
            && Cover(Submitted(r.book, STOCK, Sell, 10), STOCK) < 0
            && (exists moves :: Net(ApplyAll(Submitted(r.book, STOCK, Sell, 10), moves), STOCK) == -10)
  {
    hide ReadyWith, ExitPasses, Safe, ApplyAll, Cover, KeptAt;
    var w := AfterExit(Some(3), false, {}, Working);
    AfterExitIsReady(Some(3), false, {}, Working);
    StaleThree();
    OneRowLoads(Some(1));
    var r := Reloaded(w);
    Passes(r);
    SaleGoesShort(r.book, 3, Working);
    OrphanWorking(r, Working);
  }

  /** Ten shares bought and recorded, their stop accepted and its reply lost: the purchase's row is marked,
      the flag is up, and the stop is an orphan. */
  function LostReply(): World {
    World(Book(map[STOCK := 10], [Bought10(), Sell10(Working).(heard := false)]), iset{}, map[],
          map[EntryRow("k") := Row(STOCK, Buy, Unclear, 0)],
          Holding10(None), [Row10(None)], true, 0, {1}, {}, {})
  }

  /** The same with no exit before: an entry whose stop was accepted and its reply lost. */
  lemma LostReplyOversells()
    ensures var w := LostReply();
            && ReadyWith(w) && OrphanWorks(w, STOCK)
            && ExitPasses(w, STOCK, HOLDING)
            && Cover(Submitted(w.book, STOCK, Sell, 10), STOCK) < 0
            && (exists moves :: Net(ApplyAll(Submitted(w.book, STOCK, Sell, 10), moves), STOCK) == -10)
  {
    hide ReadyWith, ExitPasses, ApplyAll, Cover;
    var w := LostReply();
    SmallIsReady(w, 1, Working);
    Passes(w);
    SaleGoesShort(w.book, 1, Working);
    assert SellOrder(w.book, STOCK, 1) && Open(w.book.orders[1]) != 0;
  }

  // ---- a symbol with two open rows ----

  /** Ten shares were sold, and the closing write failed, so that the row with the cancelled stop stayed open;
      then ten more were bought and stopped, and their row was stored beside it. Nothing is unresolved, no flag
      is up, and no order is lost. */
  function Refilled(): World {
    World(Book(map[STOCK := 10],
      [Bought10(), Sell10(Cancelled), OrderData(STOCK, Sell, 10, 10, Complete, true), Bought10(), Sell10(Working)]),
          iset{}, map[1 := StopReport(), 4 := StopReport()],
          map[EntryRow("k") := Row(STOCK, Buy, Closed, 0), ExitRow(0) := Row(STOCK, Sell, Closed, 1),
              EntryRow("m") := Row(STOCK, Buy, StopPlaced, 2)],
          map[STOCK := Position(10, Some(4), 95.0, 120.0, Some(1), None)], [Row10(Some(1)), Row10(Some(4))],
          false, 1, {}, {}, {STOCK})
  }

  /** The table is the one `LiveMirror.FailedCloseDuplicates` ends with, and the stored fill is the step the
      engine takes. After a restart the stale position comes first and the working stop is an orphan; the
      comparison, which keeps the last position, is clean and takes the flag down; and the next exit passes
      every guard and sells ten shares against the working stop. */
  lemma DuplicateOversells(ids: Mirror.Reading)
    requires ids("k1") == Some(1) && ids("k4") == Some(4)
    ensures var w := Refilled();
            && w.saved == Mirror.TableOf([Store.RowOf(Mirror.FIRST, 0.9), Store.RowOf(Mirror.SECOND, 0.9)], ids)
            && w.saved == Recorded([Row10(Some(1))], w.ledger, STOCK) && HasOpen([Row10(Some(1))], STOCK)
            && OnlyOpen([Row10(Some(1))], STOCK) == Some(0) && OnlyOpen(w.saved, STOCK) == None
    ensures var w := Refilled();
            && ReadyWith(w) && !w.degraded && w.orphans == {} && !AnyUnresolved(w.rows)
              && !Agree(w.saved, w.ledger, STOCK)
            && var r := Reloaded(w);
            && Stale(w) == {4} && Doubles(r.ledger) == {STOCK} && OrphanWorks(r, STOCK)
            && StopOf(r.ledger, STOCK) == Some(1) && !ProtectedAt(r, STOCK)
            && CleanSoFar(HOLDING, Internals(r.ledger), Answers(map[4 := StopReport()]))
              && Internals(r.ledger).Keys <= HoldingSymbols(HOLDING)
            && ExitPasses(r, STOCK, HOLDING)
            && Cover(Submitted(r.book, STOCK, Sell, 10), STOCK) < 0
            && Net(ApplyAll(Submitted(r.book, STOCK, Sell, 10), SellsBoth(4, 5)), STOCK) == -10
  {
    hide ReadyWith, ExitPasses, Safe, ApplyAll, Cover, KeptAt, Internals, CleanSoFar, Agree, Stale, Recorded, OnlyOpen;
    var w := Refilled();
    RefilledIsReady();
    RefilledRows();
    StaleFour();
    var r := Reloaded(w);
    RefilledLoads();
    Passes(r);
    SaleGoesShort(r.book, 4, Working);
    assert SellOrder(r.book, STOCK, 4) && Open(r.book.orders[4]) != 0;
    DoubledIsClean(r);
    AgreeExactly(w.saved, w.ledger, STOCK);
  }

  lemma RefilledIsReady()
    ensures ReadyWith(Refilled()) && !AnyUnresolved(Refilled().rows)
  {
    hide ReadyWith, StopProblem, OpenTwice;
    var w := Refilled();
    assert SellOrder(w.book, STOCK, 1) && SellOrder(w.book, STOCK, 4);
    assert ProtectedAt(w, STOCK) by { StopConfirms(); }
    assert forall s :: OpenTwice(w.saved, s) ==> s in w.overlaid by { RowsOfStock(w.saved); }
    SmallIsReady(w, 4, Working);
  }

  lemma RowsOfStock(t: Table)
    requires forall i :: 0 <= i < |t| ==> t[i].symbol == STOCK
    ensures forall s :: OpenTwice(t, s) ==> s == STOCK
  {
  }

  lemma RefilledRows()
    ensures var w := Refilled();
            && w.saved == Recorded([Row10(Some(1))], w.ledger, STOCK) && HasOpen([Row10(Some(1))], STOCK)
            && OnlyOpen([Row10(Some(1))], STOCK) == Some(0) && OpenTwice(w.saved, STOCK)
              && OnlyOpen(w.saved, STOCK) == None
  {
    var w, t := Refilled(), [Row10(Some(1))];
    assert t[0].open && t[0].symbol == STOCK;
    assert !OpenTwice(t, STOCK);
    assert w.saved[0].open && w.saved[1].open && w.saved[0].symbol == STOCK && w.saved[1].symbol == STOCK;
    assert t + [RowOf(STOCK, w.ledger[STOCK])] == w.saved;
    assert Find(w.ledger[STOCK], Some(0)).None? && Find(w.ledger[STOCK], Some(1)) == Some(w.ledger[STOCK]);
    assert Synced(w.saved, w.ledger) == w.saved;
  }

  /** The stale position, and behind it the other. */
  function Doubled10(): Position {
    Position(10, Some(1), 95.0, 120.0, Some(0), Some(Position(10, Some(4), 95.0, 120.0, Some(1), None)))
  }

  lemma RefilledLoads()
    ensures Loaded(Refilled().saved) == map[STOCK := Doubled10()] && Doubles(map[STOCK := Doubled10()]) == {STOCK}
  {
    var t := Refilled().saved;
    assert Chain(t, STOCK, 2) == None;
    assert Chain(t, STOCK, 1) == Some(Position(10, Some(4), 95.0, 120.0, Some(1), None));
    assert Chain(t, STOCK, 0) == Some(Doubled10());
    assert t[0].open && OpenSymbols(t) == {STOCK};
    assert Doubled(map[STOCK := Doubled10()], STOCK);
  }

  lemma DoubledIsClean(w: World)
    requires w.ledger == map[STOCK := Doubled10()]
    ensures CleanSoFar(HOLDING, Internals(w.ledger), Answers(map[4 := StopReport()]))
    ensures Internals(w.ledger).Keys <= HoldingSymbols(HOLDING)
  {
    assert Last(Doubled10()) == Position(10, Some(4), 95.0, 120.0, Some(1), None);
    assert HOLDING[0].symbol in HoldingSymbols(HOLDING);
    StopConfirms();
  }

  lemma StaleFour()
    ensures Stale(Refilled()) == {4}
  {
    hide KeptAt, Safe, Loaded;
    var w := Refilled();
    RefilledLoads();
    BehindIsUnsafe(AsStored(w));
    assert forall k :: 0 <= k < 5 ==> (Forgotten(w, k) <==> k == 4);
  }

  /** The working stop is not the first position's. */
  lemma BehindIsUnsafe(w: World)
    requires w.book == Refilled().book && w.orphans == {} && w.uncovered == iset{}
      && w.ledger == map[STOCK := Doubled10()]
    requires forall id :: id in w.rows ==> !PendingExit(w.rows[id], STOCK)
    ensures !KeptAt(w, STOCK)
  {
    assert StopSet(w.ledger, STOCK) == {1} && {1} + w.orphans == {1};
    SumsWith(w.book.orders, 4, STOCK, {1});
    assert SellOpen(w.book.orders[4], STOCK) == 10;
    assert Doubled(w.ledger, STOCK);
  }

  // ---- purchases nobody heard of ----

  /** A purchase that filled, while the ledger never heard of it; `stopped` says that its stop works. */
  function Unheard(stopped: bool): World {
    World(Book(map[STOCK := 10], if stopped then [Bought10(), Sell10(Working)] else [Bought10()]), iset{},
          if stopped then map[1 := StopReport()] else map[],
          map[EntryRow("k") := Row(STOCK, Buy, if stopped then StopPlaced else Declined, 0)], map[], [], false, 0, {},
            {}, {})
  }

  /** Two ways there: the call raised after its row said that the stop was placed, and before the ledger
      heard; or its key had a finished row, which the new order leaves as it is, and the call raised before
      rewriting it, so that no stop went out. Nothing is out of order then, no flag is up and no row
      unresolved, and ten shares are held unknown. */
  lemma PurchaseUnseen(stopped: bool)
    ensures var w := Unheard(stopped);
            && ReadyWith(w) && !w.degraded && !AnyUnresolved(w.rows) && w.ledger == map[] && Net(w.book, STOCK) == 10
            && AliveSells(w.book, STOCK) == if stopped then {1} else {}
    ensures Created(Unheard(false).rows, EntryRow("k"), STOCK, Buy, 1) == Unheard(false).rows
    ensures Updated(Created(map[], EntryRow("k"), STOCK, Buy, 0), EntryRow("k"), StopPlaced) == Unheard(true).rows
  {
    hide Cover, Reach, Offered;
    var w := Unheard(stopped);
    forall s
      ensures 0 <= Cover(w.book, s) && KeptAt(w, s)
    {
      CoverNet(w.book, s);
      UnheardOffers(stopped, s);
      UnheldIsKept(w, s) by { NothingBare(stopped); }
    }
  }

  lemma UnheardOffers(stopped: bool, s: string)
    ensures Offered(Unheard(stopped).book.orders, s, {}) == if stopped && s == STOCK then 10 else 0
  {
    var os := Unheard(stopped).book.orders;
    SkipAll(os, s, {1});
    SumsWith(os, 1, s, {});
    assert {} + {1} == {1};
  }

  lemma NothingBare(stopped: bool)
    ensures Bare(Unheard(stopped).book) == iset{}
  {
    hide Cover;
    var b := Unheard(stopped).book;
    forall s
      ensures 0 <= Cover(b, s)
    {
      CoverNet(b, s);
      UnheardOffers(stopped, s);
    }
  }

  // ---- the states above, checked ----

  /** Ten shares held, one sell `k` alive, tracked or orphaned. */
  lemma SmallIsReady(w: World, k: nat, phase: Phase)
    requires w.book.net == map[STOCK := 10] && k < |w.book.orders| && Either(phase) && Sell10At(w.book, k, phase)
    requires forall i :: 0 <= i < |w.book.orders| && i != k ==>
      SellOpen(w.book.orders[i], STOCK) == 0 && w.book.orders[i].symbol == STOCK
    requires w.uncovered == iset{} && w.orphans <= {k}
    requires w.ledger.Keys == {STOCK} && w.ledger[STOCK].qty == 10 && StopSet(w.ledger, STOCK) + w.orphans == {k}
    requires FitLedger(w.ledger, w.book) && FitTable(w.saved, w.book) && OneUnresolved(w.rows)
    requires !Doubled(w.ledger, STOCK) && FitDoubles(w.ledger, w.saved, w.exposed, w.overlaid)
    requires forall id :: id in w.rows ==> FitRow(id, w.rows[id], w.nextExit)
    requires w.degraded || ProtectedAt(w, STOCK)
    ensures ReadyWith(w)
  {
    hide OneUnresolved, FitLedger, ProtectedAt, UnresolvedExit;
    CoverNet(w.book, STOCK);
    SkipAll(w.book.orders, STOCK, {k});
    SumsWith(w.book.orders, k, STOCK, {});
    assert {} + {k} == {k};
    forall s
      ensures 0 <= Cover(w.book, s) && KeptAt(w, s)
    {
      if s != STOCK {
        CoverNet(w.book, s);
        SkipAll(w.book.orders, s, {});
        SkipAll(w.book.orders, s, StopSet(w.ledger, s) + w.orphans);
      }
    }
  }

  lemma EnteredIsReady()
    ensures ReadyWith(Entered())
  {
    var w := Entered();
    assert SellOrder(w.book, STOCK, 1);
    SmallIsReady(w, 1, Working);
  }

  lemma AfterExitIsReady(stop: Option<nat>, degraded: bool, orphans: set<nat>, phase: Phase)
    requires (stop == None && degraded && orphans == {3}) || (stop == Some(3) && !degraded && orphans == {})
    requires Either(phase)
    ensures ReadyWith(AfterExit(stop, degraded, orphans, phase))
  {
    hide ReadyWith, StopProblem;
    var w := AfterExit(stop, degraded, orphans, phase);
    assert SellOrder(w.book, STOCK, 1) && SellOrder(w.book, STOCK, 3);
    assert w.degraded || ProtectedAt(w, STOCK) by { StopConfirms(); }
    SmallIsReady(w, 3, phase);
  }

  lemma StopConfirms()
    ensures Confirmed(StopReport(), STOCK, 10)
  {
  }

  lemma OrphanWorking(w: World, phase: Phase)
    requires 3 in w.orphans && Either(phase) && w.book == AfterExit(None, true, {3}, phase).book
    ensures OrphanWorks(w, STOCK)
  {
    assert SellOrder(w.book, STOCK, 3) && Open(w.book.orders[3]) != 0;
  }

  /** The working sell that neither ledger nor orphans know is in the way of the position. */
  lemma Unsafe(w: World, phase: Phase)
    requires Either(phase) && w.book == AfterExit(None, true, {3}, phase).book && w.orphans == {}
      && w.uncovered == iset{}
    requires STOCK in w.ledger && w.ledger[STOCK].qty == 10 && 3 !in StopSet(w.ledger, STOCK)
      && StopSet(w.ledger, STOCK) <= {1}
    requires forall id :: id in w.rows ==> !PendingExit(w.rows[id], STOCK)
    ensures !KeptAt(w, STOCK) && !Safe(w)
  {
    var k := StopSet(w.ledger, STOCK);
    assert k == {} || k == {1};
    assert k + w.orphans == k;
    SumsWith(w.book.orders, 3, STOCK, k);
    CoverNet(w.book, STOCK);
    if k == {1} {
      UntrackEnded(w.book, STOCK, 1, {});
      assert {1} + {} == {1};
    }
    SumsWith(w.book.orders, 3, STOCK, {});
    SkipAll(w.book.orders, STOCK, {3});
    assert {} + {3} == {3};
  }

  lemma OneRowLoads(stop: Option<nat>)
    ensures Loaded([Row10(stop)]) == Holding10(stop) && forall s :: !OpenTwice([Row10(stop)], s)
  {
    var t := [Row10(stop)];
    assert Chain(t, STOCK, 1) == None;
    assert Chain(t, STOCK, 0) == Some(Position(10, stop, 95.0, 120.0, Some(0), None));
    assert t[0].open && OpenSymbols(t) == {STOCK};
  }

  lemma StaleThree()
    ensures Stale(AfterExit(Some(3), false, {}, Working)) == {3}
  {
    hide KeptAt, Safe;
    var w := AfterExit(Some(3), false, {}, Working);
    OneRowLoads(Some(1));
    Unsafe(AsStored(w), Working);
    assert forall k :: 0 <= k < 4 ==> (Forgotten(w, k) <==> k == 3);
  }

  // ---- a retry among other tasks ----

  function AfterLooks(w: World, looks: seq<Look>, product: string, exchange: string): World {
    if looks == [] then w
    else AfterLook(AfterLooks(w, looks[..|looks| - 1], product, exchange), looks[|looks| - 1], product, exchange)
  }

  /** An entry that bought: the position, and the last report about its stop, if it has one. */
  datatype Entry = Entry(symbol: string, position: Position, report: OrderReport)

  /** A symbol that is held is not entered. Without a confirmed stop the flag goes up. */
  function AfterEntry(w: World, e: Entry): World {
    if e.symbol in w.ledger then w
    else
      var p := e.position.(next := None);
      var told := if p.stop.Some? then w.told[p.stop.value := e.report] else w.told;
      w.(ledger := w.ledger[e.symbol := p], told := told, degraded := w.degraded || !StopConfirmed(told, e.symbol, p))
  }

  function AfterEntries(w: World, entries: seq<Entry>): World {
    if entries == [] then w else AfterEntry(AfterEntries(w, entries[..|entries| - 1]), entries[|entries| - 1])
  }

  /** One row of the retry's comparison: while it waits, the monitor looks at stops and entries are made; then
      comes the answer about the row's stop. */
  datatype Round = Round(looks: seq<Look>, entries: seq<Entry>, answer: OrderReport)

  /** The world, the symbols met at the start that were not closed since, and whether no row raised an issue. */
  datatype Comparison = Comparison(world: World, held: set<string>, clean: bool)

  function AfterRound(c: Comparison, h: Holding, again: bool, r: Round, product: string, exchange: string): Comparison {
    var v := AfterLooks(c.world, r.looks, product, exchange);
    var held, v' := c.held * v.ledger.Keys, AfterEntries(v, r.entries);
    var met := Met(v'.ledger, held);
    var told := if AsksAbout(h, met) then v'.told[met[h.symbol].stopOrderId.value := r.answer] else v'.told;
    Comparison(v'.(told := told), held, c.clean && !again && HoldingMatches(h, met, Answers(told)))
  }

  /** The first `n` rows compared. */
  function Compared(w: World, hs: seq<Holding>, rounds: seq<Round>, n: nat, product: string,
                    exchange: string): Comparison
    requires n <= |hs| == |rounds|
  {
    if n == 0 then Comparison(w, w.ledger.Keys, true)
    else
      var h := hs[n - 1];
      AfterRound(Compared(w, hs, rounds, n - 1, product, exchange), h, h.symbol in HoldingSymbols(hs[..n - 1]),
        rounds[n - 1], product, exchange)
  }

  /** The verdict comes in the same turn as the last answer, from the answers alone: with no issue the flag
      goes down, otherwise it goes up. */
  function Verdict(w: World, hs: seq<Holding>, rounds: seq<Round>, product: string, exchange: string): World
    requires |rounds| == |hs|
  {
    var c := Compared(w, hs, rounds, |hs|, product, exchange);
    c.world.(degraded := AnyUnresolved(w.rows) || !c.clean || !(w.ledger.Keys <= HoldingSymbols(hs)))
  }

  /** The flag is up, or the position a comparison asks about is confirmed, for every symbol. */
  ghost predicate Right(w: World) { w.degraded || forall s :: s in w.ledger ==> ComparedAt(w, s) }

  /** When every symbol is listed once, that is the protection of every position. */
  lemma RightIsProtected(w: World)
    requires Doubles(w.ledger) == {} && w.exposed == {}
    ensures Right(w) <==> Protected(w)
  {
    hide ComparedAt, ProtectedAt;
    forall s | s in w.ledger
      ensures ComparedAt(w, s) <==> ProtectedAt(w, s)
    {
      assert Doubled(w.ledger, s) ==> s in Doubles(w.ledger);
      ComparedOnce(w, s);
    }
  }

  /** The broker's rows and the ledger would raise no issue if every stop were confirmed. */
  ghost predicate Comparable(w: World, hs: seq<Holding>) {
    && !AnyUnresolved(w.rows) && w.ledger.Keys <= HoldingSymbols(hs)
    && forall i :: 0 <= i < |hs| ==> Askable(w, hs, i)
  }

  ghost predicate Askable(w: World, hs: seq<Holding>, i: nat)
    requires i < |hs|
  {
    hs[i].symbol !in HoldingSymbols(hs[..i]) && hs[i].long && AsksAbout(hs[i], Internals(w.ledger))
  }

  /** How many looks and entries come before an answer. */
  datatype Gap = Gap(looks: nat, entries: nat)

  ghost predicate Fitting(rounds: seq<Round>, gaps: seq<Gap>) {
    |rounds| == |gaps| && forall i :: 0 <= i < |gaps| ==>
      |rounds[i].looks| == gaps[i].looks && |rounds[i].entries| == gaps[i].entries
  }

  /** No look after the first answer, and no entry at all. */
  ghost predicate Quiet(gaps: seq<Gap>) {
    forall i :: 0 <= i < |gaps| ==> gaps[i].entries == 0 && (i == 0 || gaps[i].looks == 0)
  }

  /** A retry's verdict is right, whatever looks, entries and answers say, exactly when the rows could not be
      clean anyway, or no look comes after the first of its answers and no entry before the last. */
  lemma {:induction false} VerdictRightExactly(w: World, hs: seq<Holding>, gaps: seq<Gap>, product: string,
      exchange: string)
    requires FitLedger(w.ledger, w.book) && |gaps| == |hs|
    ensures (forall rounds :: Fitting(rounds, gaps) ==> Right(Verdict(w, hs, rounds, product, exchange)))
       <==> !Comparable(w, hs) || Quiet(gaps)
  {
    hide FitLedger, AnyUnresolved, HoldingSymbols, Compared, ComparedAt, Comparable;
    if Comparable(w, hs) && !Quiet(gaps) {
      var other := OtherSymbol(w.ledger.Keys);
      BlindVerdict(w, hs, gaps, other, product, exchange);
      assert Fitting(BlindRounds(w, hs, gaps, other), gaps);
    } else {
      forall rounds | Fitting(rounds, gaps)
        ensures Right(Verdict(w, hs, rounds, product, exchange))
      {
        QuietVerdict(w, hs, rounds, product, exchange);
      }
    }
  }

  // ---- when it is right ----

  /** Looks and entries leave the last position of a symbol alone, or it is closed. */
  ghost predicate Within(l: Ledger, l': Ledger, held: set<string>) {
    forall s :: s in l' && s in held ==> s in l && Last(l'[s]) == Last(l[s])
  }

  lemma {:induction false} LooksShrink(w: World, looks: seq<Look>, product: string, exchange: string)
    ensures var v := AfterLooks(w, looks, product, exchange);
            v.ledger.Keys <= w.ledger.Keys && Within(w.ledger, v.ledger, v.ledger.Keys)
  {
    hide StopProblem, StopIdentityProblem, Last, PositionAt, AfterLook;
    if looks != [] {
      var v := AfterLooks(w, looks[..|looks| - 1], product, exchange);
      LooksShrink(w, looks[..|looks| - 1], product, exchange);
      LookShrinks(v, looks[|looks| - 1], product, exchange);
    }
  }

  lemma LookShrinks(w: World, look: Look, product: string, exchange: string)
    ensures var v := AfterLook(w, look, product, exchange);
            v.ledger.Keys <= w.ledger.Keys && Within(w.ledger, v.ledger, v.ledger.Keys)
  {
    hide StopProblem, StopIdentityProblem, StopConfirmed;
    if look.symbol in w.ledger && PositionAt(w.ledger, look.symbol, look.row).Some? {
      FoundWithin(w.ledger[look.symbol], look.row);
    }
  }

  /** A sole position is the one found. */
  lemma FoundWithin(p: Position, row: Option<nat>)
    requires Find(p, row).Some?
    ensures p.next.None? ==> Find(p, row).value == p
    ensures p.next.Some? ==> Last(p) == Last(p.next.value)
    ensures forall q: nat :: Last(p.(qty := q)) == if p.next.Some? then Last(p) else p.(qty := q)
  {
  }

  lemma {:induction false} EntriesAdd(w: World, entries: seq<Entry>)
    ensures var v := AfterEntries(w, entries);
            w.ledger.Keys <= v.ledger.Keys && forall s :: s in w.ledger ==> v.ledger[s] == w.ledger[s]
  {
    hide StopConfirmed;
    if entries != [] { EntriesAdd(w, entries[..|entries| - 1]); }
  }

  /** Rows that raise no issue are rows of the positions there were. */
  lemma {:induction false} CleanRows(w: World, hs: seq<Holding>, rounds: seq<Round>, n: nat, product: string,
                                     exchange: string)
    requires n <= |hs| == |rounds|
    ensures var c := Compared(w, hs, rounds, n, product, exchange);
            && c.held <= w.ledger.Keys && c.held <= c.world.ledger.Keys && Within(w.ledger, c.world.ledger, c.held)
            && (c.clean ==> forall i :: 0 <= i < n ==> Askable(w, hs, i))
  {
    hide StopProblem, HoldingSymbols, AfterLooks, AfterEntries, Last;
    if 0 < n {
      CleanRows(w, hs, rounds, n - 1, product, exchange);
      var c, r := Compared(w, hs, rounds, n - 1, product, exchange), rounds[n - 1];
      LooksShrink(c.world, r.looks, product, exchange);
      EntriesAdd(AfterLooks(c.world, r.looks, product, exchange), r.entries);
    }
  }

  lemma Undisturbed(w: World, product: string, exchange: string)
    ensures AfterLooks(w, [], product, exchange) == w && AfterEntries(w, []) == w
  {
  }

  /** With no look after the first answer and no entry, every clean row still matches at the end. */
  lemma {:induction false} AnswersStand(w: World, hs: seq<Holding>, rounds: seq<Round>, n: nat, product: string,
                                        exchange: string)
    requires FitLedger(w.ledger, w.book) && n <= |hs| == |rounds|
    requires forall i :: 0 <= i < |rounds| ==> rounds[i].entries == [] && (i == 0 || rounds[i].looks == [])
    ensures var c := Compared(w, hs, rounds, n, product, exchange);
            && FitLedger(c.world.ledger, w.book) && c.held == c.world.ledger.Keys
            && (c.clean ==> CleanSoFar(hs[..n], Internals(c.world.ledger), Answers(c.world.told)))
  {
    hide StopProblem, HoldingSymbols, AfterLooks, AfterEntries, HoldingMatches, CleanSoFar, Last, FitLedger, AsksAbout;
    if n == 0 {
      NothingSeen(hs, Internals(w.ledger), Answers(w.told));
    } else {
      AnswersStand(w, hs, rounds, n - 1, product, exchange);
      OneAnswer(w.book, Compared(w, hs, rounds, n - 1, product, exchange), hs, n - 1, rounds[n - 1], product, exchange);
    }
  }

  lemma OneAnswer(b: Book, c: Comparison, hs: seq<Holding>, m: nat, r: Round, product: string, exchange: string)
    requires m < |hs| && FitLedger(c.world.ledger, b) && c.held == c.world.ledger.Keys && r.entries == []
      && (m == 0 || r.looks == [])
    requires c.clean ==> CleanSoFar(hs[..m], Internals(c.world.ledger), Answers(c.world.told))
    ensures var d := AfterRound(c, hs[m], hs[m].symbol in HoldingSymbols(hs[..m]), r, product, exchange);
            && FitLedger(d.world.ledger, b) && d.held == d.world.ledger.Keys
            && (d.clean ==> CleanSoFar(hs[..m + 1], Internals(d.world.ledger), Answers(d.world.told)))
  {
    hide StopProblem, HoldingSymbols, AfterLooks, AfterEntries, HoldingMatches, CleanSoFar, Last, FitLedger;
    var d := AfterRound(c, hs[m], hs[m].symbol in HoldingSymbols(hs[..m]), r, product, exchange);
    var v := AfterLooks(c.world, r.looks, product, exchange);
    Undisturbed(c.world, product, exchange);
    Undisturbed(v, product, exchange);
    LooksShrink(c.world, r.looks, product, exchange);
    LooksFit(c.world, b, r.looks, product, exchange);
    assert Met(v.ledger, d.held) == Internals(v.ledger);
    CleanExtends(hs, m, Internals(d.world.ledger), Answers(d.world.told));
    if d.clean {
      if m == 0 {
        NothingSeen(hs, Internals(d.world.ledger), Answers(d.world.told));
      } else {
        EarlierRowsStand(v, d.world, b, hs, m);
      }
    }
  }

  lemma {:induction false} LooksFit(w: World, b: Book, looks: seq<Look>, product: string, exchange: string)
    requires FitLedger(w.ledger, b)
    ensures FitLedger(AfterLooks(w, looks, product, exchange).ledger, b)
  {
    hide StopProblem, StopIdentityProblem, PositionAt, FitLedger, Reduced;
    if looks != [] {
      var v, look := AfterLooks(w, looks[..|looks| - 1], product, exchange), looks[|looks| - 1];
      LooksFit(w, b, looks[..|looks| - 1], product, exchange);
      var held := Held(v.ledger, look.symbol);
      forall f: nat | f <= held
        ensures FitLedger(Reduced(v.ledger, look.symbol, f), b)
      {
        ReducedFits(v.ledger, look.symbol, f, b);
      }
    }
  }

  /** An answer about another symbol's stop decides nothing about the rows before. */
  lemma EarlierRowsStand(v: World, v': World, b: Book, hs: seq<Holding>, m: nat)
    requires FitLedger(v.ledger, b) && m < |hs| && hs[m].symbol !in HoldingSymbols(hs[..m])
    requires CleanSoFar(hs[..m], Internals(v.ledger), Answers(v.told)) && v' == v.(told := v'.told)
    requires forall k :: (!AsksAbout(hs[m], Internals(v.ledger)) || Some(k) != Last(v.ledger[hs[m].symbol]).stop) ==>
      (k in v.told <==> k in v'.told) && (k in v.told ==> v'.told[k] == v.told[k])
    ensures CleanSoFar(hs[..m], Internals(v'.ledger), Answers(v'.told))
  {
    hide StopProblem, Last;
    forall i | 0 <= i < m
      ensures HoldingMatches(hs[..m][i], Internals(v'.ledger), Answers(v'.told))
    {
      var s, t := hs[i].symbol, hs[m].symbol;
      assert hs[..m][i].symbol in HoldingSymbols(hs[..m]);
      assert HoldingMatches(hs[..m][i], Internals(v.ledger), Answers(v.told));
      if AsksAbout(hs[m], Internals(v.ledger)) { OwnStops(v, b, s, t); }
    }
  }

  /** Two symbols never share a stop. */
  lemma OwnStops(w: World, b: Book, s: string, t: string)
    requires FitLedger(w.ledger, b) && s in w.ledger && t in w.ledger && s != t
    ensures Last(w.ledger[s]).stop.None? || Last(w.ledger[s]).stop != Last(w.ledger[t]).stop
  {
    LastFits(w.ledger[s], s, b);
    LastFits(w.ledger[t], t, b);
    var p, q := Last(w.ledger[s]), Last(w.ledger[t]);
    assert p.stop.Some? && q.stop.Some? ==> SellOrder(b, s, p.stop.value) && SellOrder(b, t, q.stop.value);
  }

  lemma QuietVerdict(w: World, hs: seq<Holding>, rounds: seq<Round>, product: string, exchange: string)
    requires FitLedger(w.ledger, w.book) && |rounds| == |hs|
    requires !Comparable(w, hs) || forall i :: 0 <= i < |hs| ==>
      |rounds[i].entries| == 0 && (i == 0 || |rounds[i].looks| == 0)
    ensures Right(Verdict(w, hs, rounds, product, exchange))
  {
    hide FitLedger, AnyUnresolved, HoldingSymbols, Compared, ComparedAt, CleanSoFar, Askable;
    var c := Compared(w, hs, rounds, |hs|, product, exchange);
    CleanRows(w, hs, rounds, |hs|, product, exchange);
    if c.clean && !AnyUnresolved(w.rows) && w.ledger.Keys <= HoldingSymbols(hs) {
      assert Comparable(w, hs);
      AnswersStand(w, hs, rounds, |hs|, product, exchange);
      assert hs[..|hs|] == hs;
      CleanIsProtected(c.world, hs, Internals(c.world.ledger), Answers(c.world.told));
      StillCompared(c.world);
    }
  }

  lemma StillCompared(v: World)
    ensures forall s, degraded :: ComparedAt(v.(degraded := degraded), s) == ComparedAt(v, s)
  {
    hide StopConfirmed;
  }

  // ---- when it is not ----

  lemma {:induction false} OtherSymbol(keys: set<string>) returns (other: string)
    ensures other !in keys
  {
    var n := LongerThanAll(keys);
    other := seq(n, _ => 'A');
  }

  lemma {:induction false} LongerThanAll(keys: set<string>) returns (n: nat)
    ensures forall s :: s in keys ==> |s| < n
  {
    if keys == {} {
      n := 0;
    } else {
      var s :| s in keys;
      n := LongerThanAll(keys - {s});
      n := if n <= |s| then |s| + 1 else n;
      assert forall t :: t in keys ==> t == s || t in keys - {s};
    }
  }

  /** A report that confirms the stop of the position in row `h`. */
  function GoodReport(h: Holding, p: Position): OrderReport {
    OrderReport("OPEN", h.symbol, "SELL", h.product, h.exchange, "SL-M", Some(p.qty), Some(0), Some(1.0), 0.0)
  }

  function BlindLook(w: World, s: string): Look {
    Look(s, if s in w.ledger then Last(w.ledger[s]).row else None, UNKNOWN_REPORT)
  }

  const NAKED := Position(1, None, 0.0, 0.0, None, None)

  /** Every look is at the first row's stop and fails; every entry is of the symbol `other` and gets no stop;
      every answer is good. */
  function BlindRounds(w: World, hs: seq<Holding>, gaps: seq<Gap>, other: string): (rounds: seq<Round>)
    requires |gaps| == |hs|
    ensures |rounds| == |hs|
  {
    seq(|hs|, i requires 0 <= i < |hs| =>
      Round(seq(gaps[i].looks, j => BlindLook(w, hs[0].symbol)),
            seq(gaps[i].entries, j => Entry(other, NAKED, UNKNOWN_REPORT)),
            if hs[i].symbol in w.ledger then GoodReport(hs[i], Last(w.ledger[hs[i].symbol])) else UNKNOWN_REPORT))
  }

  predicate Blinded(told: map<nat, OrderReport>, k: Option<nat>) {
    k.Some? && k.value in told && told[k.value] == UNKNOWN_REPORT
  }

  /** Failed looks at the last position of `s` change the report of its stop. */
  lemma {:induction false} BlindLooks(w: World, l: World, s: string, b: Book, n: nat, product: string, exchange: string)
    requires s in w.ledger && FitPosition(w.ledger[s], s, b) && Last(w.ledger[s]).stop.Some?
    requires s in l.ledger && l.ledger[s] == w.ledger[s]
    ensures var v := AfterLooks(l, seq(n, j => BlindLook(w, s)), product, exchange);
            && v.ledger == l.ledger
            && v.told == if n == 0 then l.told else l.told[Last(w.ledger[s]).stop.value := UNKNOWN_REPORT]
  {
    hide Last, Find, FitPosition, StopIdentityProblem;
    LastFits(w.ledger[s], s, b);
    if 0 < n {
      assert seq(n, j => BlindLook(w, s))[..n - 1] == seq(n - 1, j => BlindLook(w, s));
      BlindLooks(w, l, s, b, n - 1, product, exchange);
    }
  }

  /** Entries of a symbol without a stop add it once, and leave reports alone. */
  lemma {:induction false} NakedEntries(w: World, other: string, n: nat)
    ensures var v := AfterEntries(w, seq(n, j => Entry(other, NAKED, UNKNOWN_REPORT)));
            && v.told == w.told
            && v.ledger == if n == 0 || other in w.ledger then w.ledger else w.ledger[other := NAKED]
  {
    if 0 < n {
      assert seq(n, j => Entry(other, NAKED, UNKNOWN_REPORT))[..n - 1]
        == seq(n - 1, j => Entry(other, NAKED, UNKNOWN_REPORT));
      NakedEntries(w, other, n - 1);
    }
  }

  lemma GoodReportPasses(h: Holding, p: Position)
    requires 0 < p.qty
    ensures StopProblem(GoodReport(h, p), h.symbol, p.qty as real, h.product, h.exchange) == NoProblem
  {
    assert Upper("SELL") == "SELL";
  }

  /** Where such a run stands: the positions met are there, with the naked one or without. */
  ghost predicate Standing(w: World, c: Comparison, other: string, entered: bool) {
    && c.clean && c.held == w.ledger.Keys
    && c.world.ledger == if entered then w.ledger[other := NAKED] else w.ledger
  }

  /** One such round: only the report about the first stop and the row's own change, and the row is clean. */
  lemma BlindRound(w: World, c: Comparison, hs: seq<Holding>, gaps: seq<Gap>, m: nat, other: string, entered: bool,
                   product: string, exchange: string)
    requires FitLedger(w.ledger, w.book) && |gaps| == |hs| && m < |hs| && Standing(w, c, other, entered)
      && other !in w.ledger
    requires Askable(w, hs, m) && Askable(w, hs, 0)
    ensures var d := AfterRound(c, hs[m], false, BlindRounds(w, hs, gaps, other)[m], product, exchange);
            && Standing(w, d, other, entered || gaps[m].entries != 0)
            && var k, k0 := Last(w.ledger[hs[m].symbol]).stop, Last(w.ledger[hs[0].symbol]).stop;
            && (k != k0 && (gaps[m].looks != 0 || Blinded(c.world.told, k0)) ==> Blinded(d.world.told, k0))
  {
    hide StopProblem, AfterLooks, AfterEntries, FitLedger, HoldingSymbols, Last, Upper;
    var s0, s := hs[0].symbol, hs[m].symbol;
    assert FitPosition(w.ledger[s0], s0, w.book) && FitPosition(w.ledger[s], s, w.book) by { PositionsFit(w); }
    var r := BlindRounds(w, hs, gaps, other)[m];
    BlindLooks(w, c.world, s0, w.book, gaps[m].looks, product, exchange);
    var v := AfterLooks(c.world, r.looks, product, exchange);
    NakedEntries(v, other, gaps[m].entries);
    LastFits(w.ledger[s], s, w.book);
    GoodReportPasses(hs[m], Last(w.ledger[s]));
  }

  lemma PositionsFit(w: World)
    requires FitLedger(w.ledger, w.book)
    ensures forall s :: s in w.ledger ==> FitPosition(w.ledger[s], s, w.book)
  {
  }

  predicate AnyEntry(gaps: seq<Gap>, n: nat)
    requires n <= |gaps|
  {
    n != 0 && (gaps[n - 1].entries != 0 || AnyEntry(gaps, n - 1))
  }

  predicate LateLook(gaps: seq<Gap>, n: nat)
    requires n <= |gaps|
  {
    1 < n && (gaps[n - 1].looks != 0 || LateLook(gaps, n - 1))
  }

  lemma {:induction false} NotQuiet(gaps: seq<Gap>, n: nat, i: nat)
    requires i < n <= |gaps|
    ensures gaps[i].entries != 0 ==> AnyEntry(gaps, n)
    ensures i != 0 && gaps[i].looks != 0 ==> LateLook(gaps, n)
  {
    if i < n - 1 { NotQuiet(gaps, n - 1, i); }
  }

  /** All rows come out clean; after a later look the last report about the first stop is the failed one, and
      after an entry its position stands without a stop. */
  lemma {:induction false} BlindRun(w: World, hs: seq<Holding>, gaps: seq<Gap>, other: string, n: nat, product: string,
                                    exchange: string)
    requires FitLedger(w.ledger, w.book) && |gaps| == |hs| && Comparable(w, hs) && other !in w.ledger && n <= |hs|
    ensures var c := Compared(w, hs, BlindRounds(w, hs, gaps, other), n, product, exchange);
            && Standing(w, c, other, AnyEntry(gaps, n))
            && (LateLook(gaps, n) ==>
                  hs[0].symbol in w.ledger && Blinded(c.world.told, Last(w.ledger[hs[0].symbol]).stop))
  {
    hide AfterRound, FitLedger, AnyUnresolved, BlindRounds, Last, Blinded, Standing, Askable, HoldingSymbols;
    if n == 0 {
      assert Standing(w, Comparison(w, w.ledger.Keys, true), other, false) by { StartsStanding(w, other); }
    } else {
      var m := n - 1;
      BlindRun(w, hs, gaps, other, m, product, exchange);
      var c := Compared(w, hs, BlindRounds(w, hs, gaps, other), m, product, exchange);
      assert Askable(w, hs, m) && Askable(w, hs, 0);
      NotAgain(w, hs, m);
      BlindRound(w, c, hs, gaps, m, other, AnyEntry(gaps, m), product, exchange);
      if 0 < m { FirstStop(w, hs, m); }
    }
  }

  lemma StartsStanding(w: World, other: string)
    ensures Standing(w, Comparison(w, w.ledger.Keys, true), other, false)
  {
  }

  lemma NotAgain(w: World, hs: seq<Holding>, m: nat)
    requires m < |hs| && Askable(w, hs, m)
    ensures hs[m].symbol !in HoldingSymbols(hs[..m])
  {
  }

  lemma FirstStop(w: World, hs: seq<Holding>, m: nat)
    requires FitLedger(w.ledger, w.book) && 1 <= m < |hs| && Askable(w, hs, m) && Askable(w, hs, 0)
    ensures hs[0].symbol in w.ledger && hs[m].symbol in w.ledger
    ensures Last(w.ledger[hs[m].symbol]).stop != Last(w.ledger[hs[0].symbol]).stop
  {
    hide Last, FitLedger;
    assert hs[..m][0] == hs[0] && hs[0].symbol in HoldingSymbols(hs[..m]);
    OwnStops(w, w.book, hs[0].symbol, hs[m].symbol);
  }

  lemma BlindVerdict(w: World, hs: seq<Holding>, gaps: seq<Gap>, other: string, product: string, exchange: string)
    requires FitLedger(w.ledger, w.book) && |gaps| == |hs| && Comparable(w, hs) && other !in w.ledger && !Quiet(gaps)
    ensures !Right(Verdict(w, hs, BlindRounds(w, hs, gaps, other), product, exchange))
  {
    hide FitLedger, AnyUnresolved, HoldingSymbols, Compared, Last, BlindRounds;
    BlindRun(w, hs, gaps, other, |hs|, product, exchange);
    var v := Verdict(w, hs, BlindRounds(w, hs, gaps, other), product, exchange);
    var i :| 0 <= i < |gaps| && (gaps[i].entries != 0 || (i != 0 && gaps[i].looks != 0));
    NotQuiet(gaps, |gaps|, i);
    if AnyEntry(gaps, |gaps|) {
      assert Last(NAKED) == NAKED by { NakedIsLast(); }
      assert !ComparedAt(v, other);
    } else {
      assert !ComparedAt(v, hs[0].symbol) by { assert Blinded(v.told, Last(w.ledger[hs[0].symbol]).stop); }
    }
  }

  lemma NakedIsLast()
    ensures Last(NAKED) == NAKED
  {
  }

  /** What the engine's retry records for a row is such a round's answer. */
  lemma AskedIsRound(c: Comparison, r: Retry, r': Retry, told': map<nat, OrderReport>, product: string,
                     exchange: string)
    requires r.Comparing? && r.next < |r.holdings| && c.held == r.held && c.held <= c.world.ledger.Keys
    requires Asked(r, r', Met(c.world.ledger, r.held), c.world.told, told')
    ensures var h := r.holdings[r.next];
            exists a ::
              var d := AfterRound(c, h, h.symbol in r.seen, Round([], [], a), product, exchange);
              && d.world == c.world.(told := told') && d.held == c.held
              && (d.clean <==> c.clean && r'.issues == r.issues)
  {
    hide HoldingMatches, Last;
    var h, met := r.holdings[r.next], Met(c.world.ledger, r.held);
    var a := if AsksAbout(h, met) then told'[met[h.symbol].stopOrderId.value] else UNKNOWN_REPORT;
    Undisturbed(c.world, product, exchange);
    assert c.held * c.world.ledger.Keys == c.held;
    var d := AfterRound(c, h, h.symbol in r.seen, Round([], [], a), product, exchange);
    assert d.world == c.world.(told := told');
    assert d.clean <==> c.clean && r'.issues == r.issues;
  }

  const OTHER := "TCS"

  /** Two positions with their stops; the flag is up for something long settled. */
  function TwoPositions(): World {
    World(Book(map[STOCK := 10, OTHER := 5],
               [Bought10(), Sell10(Working), OrderData(OTHER, Buy, 5, 5, Complete, true),
                 OrderData(OTHER, Sell, 5, 0, Working, true)]),
          iset{}, map[], map[],
          map[STOCK := Position(10, Some(1), 95.0, 120.0, Some(0), None),
            OTHER := Position(5, Some(3), 190.0, 240.0, Some(1), None)],
          [], true, 0, {}, {}, {})
  }

  function OtherReport(): OrderReport {
    OrderReport("TRIGGER PENDING", OTHER, "SELL", "MIS", "NSE", "SL-M", Some(5), Some(0), Some(190.0), 0.0)
  }

  function GoneReport(): OrderReport {
    OrderReport("REJECTED", STOCK, "SELL", "MIS", "NSE", "SL-M", Some(0), Some(0), Some(95.0), 0.0)
  }

  const BOTH := [Holding(STOCK, 10, true, "MIS", "NSE"), Holding(OTHER, 5, true, "MIS", "NSE")]

  function Looked(): Look { Look(STOCK, Some(0), GoneReport()) }

  /** The interleaving: the retry hears that the first stop works and asks about the second; the broker
      rejects the first, the monitor looks at it and puts the flag up; the retry hears that the second works
      and takes the flag down. Every report was reliable when it was given and every answer the retry got
      was clean, and ten shares stand without a working stop and without the flag. */
  lemma RetryClearsTooMuch()
    ensures var w := TwoPositions();
            var rounds := [Round([], [], StopReport()), Round([Looked()], [], OtherReport())];
            var gone := Apply(w.book, End(1, Rejected));
            && Reliable(w.book.orders[1], StopReport()) && Reliable(gone.orders[1], GoneReport())
            && AliveSells(gone, STOCK) == {} && Net(gone, STOCK) == 10
            && AfterLook(w.(told := map[1 := StopReport()]), Looked(), "MIS", "NSE").degraded
            && Compared(w, BOTH, rounds, 2, "MIS", "NSE").clean
            && var v := Verdict(w, BOTH, rounds, "MIS", "NSE");
            && !v.degraded && STOCK in v.ledger && !Right(v)
            && Protected(v.(exposed := {STOCK}))
  {
    hide AfterRound, AfterLook, HoldingMatches, HoldingSymbols, StopProblem, Apply, AliveSells, Reliable;
    var w := TwoPositions();
    var rounds := [Round([], [], StopReport()), Round([Looked()], [], OtherReport())];
    BothRows();
    StopIsGone(w);
    FirstRound(w);
    var c := Comparison(w.(told := map[1 := StopReport()]), {STOCK, OTHER}, true);
    assert Compared(w, BOTH, rounds, 0, "MIS", "NSE") == Comparison(w, {STOCK, OTHER}, true);
    assert Compared(w, BOTH, rounds, 1, "MIS", "NSE") == c;
    SecondRound(c);
    assert Last(w.ledger[STOCK]) == w.ledger[STOCK];
  }

  lemma BothRows()
    ensures STOCK != OTHER
    ensures HoldingSymbols(BOTH[..0]) == {} && HoldingSymbols(BOTH[..1]) == {STOCK}
      && HoldingSymbols(BOTH) == {STOCK, OTHER}
  {
    assert STOCK[0] != OTHER[0];
    assert BOTH[..1][0].symbol == STOCK;
    assert BOTH[0].symbol == STOCK && BOTH[1].symbol == OTHER;
  }

  lemma StopIsGone(w: World)
    requires w == TwoPositions()
    ensures var gone := Apply(w.book, End(1, Rejected));
            && Reliable(w.book.orders[1], StopReport()) && Reliable(gone.orders[1], GoneReport())
            && AliveSells(gone, STOCK) == {} && Net(gone, STOCK) == 10
    ensures Confirmed(OtherReport(), OTHER, 5) && !Confirmed(GoneReport(), STOCK, 10)
    ensures AfterLook(w.(told := map[1 := StopReport()]), Looked(), "MIS", "NSE").degraded
  {
    assert STOCK != OTHER by { assert STOCK[0] != OTHER[0]; }
  }

  lemma FirstRound(w: World)
    requires w == TwoPositions()
    ensures AfterRound(Comparison(w, {STOCK, OTHER}, true), BOTH[0], false, Round([], [], StopReport()), "MIS", "NSE")
         == Comparison(w.(told := map[1 := StopReport()]), {STOCK, OTHER}, true)
  {
    BothRows();
    StopConfirms();
    assert Last(w.ledger[STOCK]) == w.ledger[STOCK];
    assert {STOCK, OTHER} * w.ledger.Keys == {STOCK, OTHER};
  }

  lemma SecondRound(c: Comparison)
    requires c == Comparison(TwoPositions().(told := map[1 := StopReport()]), {STOCK, OTHER}, true)
    ensures AfterRound(c, BOTH[1], false, Round([Looked()], [], OtherReport()), "MIS", "NSE")
         == Comparison(c.world.(told := map[1 := GoneReport(), 3 := OtherReport()]), {STOCK, OTHER}, true)
  {
    hide StopIdentityProblem;
    BothRows();
    StopIsGone(TwoPositions());
    var v := c.world.(told := map[1 := GoneReport()]);
    assert [Looked()][..0] == [];
    assert AfterLooks(c.world, [Looked()], "MIS", "NSE") == AfterLook(c.world, Looked(), "MIS", "NSE")
      == v by { LookedGone(c.world); }
    assert Last(v.ledger[OTHER]) == v.ledger[OTHER];
    assert {STOCK, OTHER} * v.ledger.Keys == {STOCK, OTHER};
  }

  lemma LookedGone(w: World)
    requires w == TwoPositions().(told := map[1 := StopReport()])
    ensures AfterLook(w, Looked(), "MIS", "NSE") == w.(told := map[1 := GoneReport()])
  {
    assert STOCK != OTHER by { assert STOCK[0] != OTHER[0]; }
  }
}
