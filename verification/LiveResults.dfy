/** Results of the live order steps, and what they promise about ledger and account. */
module LiveResults {
  import opened Common
  import opened OrderBook
  import opened Protection
  import opened Reconciliation
  import opened Venue
  import opened TradeTable
  import opened LiveLedger
  import opened LiveSafety

  /** An order step's result. */
  datatype OrderResult = OrderResult(
    status: OrderStatus, order: Option<nat>, filled: nat, average: real, stop: Option<nat>, unknown: bool)

  /** What one submission came to: no broker id means rejected, or unknown. */
  datatype Placed = Placed(status: OrderStatus, id: Option<nat>, unknown: bool)

  /** An approved trade: whole shares, a stop below the price. */
  datatype Proposal = Proposal(
    symbol: string, key: string, qty: int, stopPrice: real, takeProfit: real, marketPrice: real)

  /** What may happen next; a check is of the position with the key. Other tasks also take turns while a step
      waits, and a restart may follow anything. */
  datatype Step =
    | Enter(p: Proposal) | Monitor | Check(symbol: string, row: Option<nat>) | Sync | SquareOffAll | Kill
    | OperatorResume | RetryTurn | Save | Idle | Restart

  /** The steps that hold the order lock, or may put the flag up. */
  predicate Trades(step: Step) {
    step.Enter? || step.Monitor? || step.Check? || step.Sync? || step.SquareOffAll? || step.Kill?
  }

  /** A reconciliation retry on its way: whether an order was unresolved; then the broker's rows, the
      positions it met and those of them still open, and how far it has come in the rows. */
  datatype RetryData =
    | RowsRead(unresolved: bool)
    | Comparing(unresolved: bool, holdings: seq<Holding>, met: set<string>, held: set<string>,
                next: nat, seen: set<string>, issues: nat)

  type Retry = r: RetryData | r.Comparing? ==> r.next <= |r.holdings| witness RowsRead(false)

  /** The ledger as a comparison sees it: the last position of each symbol. */
  function Internals(l: Ledger): map<string, Tracked> {
    map s | s in l :: Tracked(s, Last(l[s]).qty as real, Last(l[s]).stop)
  }

  /** Of the symbols met at its start, those still held. */
  function Met(l: Ledger, held: set<string>): map<string, Tracked> {
    map s | s in l && s in held :: Tracked(s, Last(l[s]).qty as real, Last(l[s]).stop)
  }

  /** The stop the comparison asks about was confirmed. */
  predicate ComparedAt(w: World, s: string) { s in w.ledger ==> StopConfirmed(w.told, s, Last(w.ledger[s])) }

  /** For a symbol listed once that is the whole of its protection. */
  lemma ComparedOnce(w: World, s: string)
    ensures !Doubled(w.ledger, s) ==> (ComparedAt(w, s) <==> ProtectedAt(w, s))
  {
    hide StopConfirmed;
  }

  function Answers(told: map<nat, OrderReport>): nat -> OrderReport {
    (k: nat) => if k in told then told[k] else UNKNOWN_REPORT
  }

  /** The row matches a position with a stop, so its stop is asked about. */
  predicate AsksAbout(h: Holding, internal: map<string, Tracked>) {
    && h.symbol in internal
    && Abs(internal[h.symbol].qty - h.qty as real) <= TOLERANCE
    && internal[h.symbol].stopOrderId.Some?
  }

  /** A row was checked: its stop was asked about if it matches a position, and the count of issues stays
      exactly when the row is the first of its symbol and the answer confirms the stop. */
  ghost predicate Asked(r: Retry, r': Retry, internal: map<string, Tracked>, told: map<nat, OrderReport>,
                        told': map<nat, OrderReport>)
    requires r.Comparing? && r.next < |r.holdings|
  {
    var h := r.holdings[r.next];
    && r'.Comparing? && r' == r.(next := r.next + 1, seen := r.seen + {h.symbol}, issues := r'.issues)
    && (if AsksAbout(h, internal)
        then var k := internal[h.symbol].stopOrderId.value; k in told' && told' == told[k := told'[k]]
        else told' == told)
    && (r'.issues == r.issues <==> h.symbol !in r.seen && HoldingMatches(h, internal, Answers(told')))
  }

  datatype Attached = Attached(stop: Option<nat>, unknown: bool)

  datatype StopNews = StillWorking | SoldAll(filled: nat, price: real) | Amiss

  /** The sale behind a stop that sold everything, as far as the ledger's first position has shares. */
  function StopSale(k: nat, news: StopNews, held: nat): OrderResult
    requires news.SoldAll?
  {
    OrderResult(FILLED, Some(k), if news.filled < held then news.filled else held, news.price, None, false)
  }

  /** The monitor's look at the stop of one position. */
  datatype Look = Look(symbol: string, row: Option<nat>, report: OrderReport)

  /** What one look leaves behind: the report is known; a stop that sold everything is booked, on the first
      position of its symbol, and any other that does not pass puts the flag up. */
  function AfterLook(w: World, look: Look, product: string, exchange: string): World {
    var s, r, at := look.symbol, look.report, PositionAt(w.ledger, look.symbol, look.row);
    if at.None? then w
    else if at.value.stop.None? then w.(degraded := true)
    else
      var p, v := at.value, w.(told := w.told[at.value.stop.value := r]);
      if StopProblem(r, s, p.qty as real, product, exchange) == NoProblem then v
      else if StopIdentityProblem(r, s, product, exchange) == NoProblem && r.status == "COMPLETE"
              && OrZero(r.filled) == p.qty && 0.0 < r.averagePrice
      then Booked(v, s, if p.qty < Held(w.ledger, s) then p.qty else Held(w.ledger, s))
      else v.(degraded := true)
  }

  /** A sale booked for a symbol whose first position held `held` shares then. */
  datatype Sale = Sale(symbol: string, held: nat, result: OrderResult)

  datatype SquareOff = SquareOff(ok: bool, accounted: nat, sales: seq<Sale>, remaining: seq<Holding>)

  /** The parts of the square-off, in order. */
  datatype Stage = Exits | Reading | Listing | Closing

  const NOT_DONE := OrderResult(REJECTED, None, 0, 0.0, None, false)

  /** A sale the broker has finished is behind the result's fill, which never exceeds the position. */
  predicate SoldBy(b: Book, s: string, r: OrderResult, held: nat) {
    0 < r.filled ==>
      && r.order.Some? && SellOrder(b, s, r.order.value) && 0.0 < r.average
      && var o := b.orders[r.order.value];
      && Open(o) == 0 && r.filled == if o.filled < held then o.filled else held
  }

  /** The result is of one order to sell `qty` shares of `s`. */
  predicate SaleOf(b: Book, s: string, r: OrderResult, qty: int) {
    r.order.Some? && SellOrder(b, s, r.order.value) && b.orders[r.order.value].qty == qty
  }

  function RowStatusFor(status: OrderStatus, stop: bool, unknown: bool): RowStatus {
    if unknown then Unclear
    else if stop then StopPlaced
    else match status
      case FILLED => Bought
      case PARTIAL => Bought
      case SUBMITTED => InSubmission
      case REJECTED => Declined
      case FAILED => Errored
  }

  lemma UpdatedTwice(rows: Rows, id: RowId)
    ensures Updated(Updated(rows, id, Unclear), id, Unclear) == Updated(rows, id, Unclear)
  {
  }

  function RowsOf(holdings: seq<Holding>, s: string): seq<Holding> {
    if holdings == [] then []
    else
      var n := |holdings| - 1;
      RowsOf(holdings[..n], s) + if holdings[n].symbol == s then [holdings[n]] else []
  }

  lemma {:induction false} RowsOfFinds(holdings: seq<Holding>, s: string)
    ensures RowsOf(holdings, s) == [] <==> s !in HoldingSymbols(holdings)
    ensures |RowsOf(holdings, s)| == 1 ==>
      exists i :: 0 <= i < |holdings| && holdings[i] == RowsOf(holdings, s)[0] && holdings[i].symbol == s
        && OnlyRow(holdings, i)
  {
    if holdings != [] {
      var n := |holdings| - 1;
      RowsOfFinds(holdings[..n], s);
      SeenExtends(holdings, n);
      assert holdings[..n + 1] == holdings;
      if |RowsOf(holdings, s)| == 1 {
        if holdings[n].symbol == s {
          assert RowsOf(holdings[..n], s) == [];
          forall j | 0 <= j < n
            ensures holdings[j].symbol != s
          {
            assert holdings[..n][j].symbol in HoldingSymbols(holdings[..n]);
          }
          assert OnlyRow(holdings, n);
        } else {
          var i :| 0 <= i < n && holdings[..n][i] == RowsOf(holdings, s)[0] && holdings[..n][i].symbol == s
            && OnlyRow(holdings[..n], i);
          forall j | 0 <= j < |holdings| && j != i
            ensures holdings[j].symbol != s
          {
            if j < n { assert holdings[..n][j].symbol != s; }
          }
          assert OnlyRow(holdings, i);
        }
      }
    }
  }

  lemma OnlyRowIsNet(b: Book, holdings: seq<Holding>, s: string)
    requires Accurate(b, holdings)
    ensures |RowsOf(holdings, s)| == 1 ==>
      Net(b, s) == if RowsOf(holdings, s)[0].long then RowsOf(holdings, s)[0].qty else -RowsOf(holdings, s)[0].qty
  {
    hide OnlyRow;
    RowsOfFinds(holdings, s);
  }

  /** An await of an exit whose sale `x` is out. */
  lemma SaleAwaits(start: Book, w: World, w': World, s: string, n: nat, x: nat, qty: nat, held: nat, quiet: bool)
    requires MidExit(w, s, n) && Onward(start, w.book, s) && Later(w.book, w'.book) && SellOrder(w.book, s, x)
      && w.book.orders[x].qty == qty
    requires w'.ledger == w.ledger && w'.nextExit == w.nextExit && (w.degraded ==> w'.degraded)
    requires w'.saved == w.saved || w'.saved == Synced(w.saved, w'.ledger)
    requires w'.degraded || forall k :: k in w.told && !OrderOf(w'.book, s, k) ==>
      k in w'.told && w'.told[k] == w.told[k]
    requires w'.rows == w.rows || w'.rows == Updated(w.rows, ExitRow(n), Unclear)
      || w'.rows == Updated(w.rows, ExitRow(n), InSubmission)
    requires w'.uncovered == w.uncovered && Bare(w'.book) <= w'.uncovered
    requires w'.orphans == w.orphans && w'.exposed == w.exposed && w'.overlaid == w.overlaid
    ensures MidExit(w', s, n)
    ensures SafeElsewhere(w, s) ==> SafeElsewhere(w', s)
    ensures SellOrder(w'.book, s, x) && w'.book.orders[x].qty == qty
    ensures Flight(w, s, x, held, quiet) ==> Flight(w', s, x, held, quiet)
    ensures Onward(start, w'.book, s)
    ensures HasOrphan(w, s) ==> HasOrphan(w', s)
  {
    hide MidExit, SafeElsewhere, Flight, Reach, Offered, Spare, Onward, Bare, HasOrphan;
    ExitAwaits(start, w, w', s, n);
    assert OrderLater(w.book.orders[x], w'.book.orders[x]);
    MidExitOrphans(w, s, n);
    if Flight(w, s, x, held, quiet) { FlightStays(w, w', s, x, held, quiet); }
  }

  lemma SaleOfStays(b: Book, b': Book, s: string, r: OrderResult, qty: int)
    requires Onward(b, b', s) && SaleOf(b, s, r, qty)
    ensures SaleOf(b', s, r, qty)
  {
    hide Reach, Offered;
    assert OrderLater(b.orders[r.order.value], b'.orders[r.order.value]);
  }

  /** Only the stop of `s` may differ. */
  ghost predicate SameBut(a: Ledger, b: Ledger, s: string) {
    s in a && s in b && b == a[s := a[s].(stop := b[s].stop)]
  }

  lemma SoldByGrows(b: Book, b': Book, s: string, r: OrderResult, held: nat)
    requires Grown(b, b') && SoldBy(b, s, r, held)
    ensures SoldBy(b', s, r, held)
  {
    if 0 < r.filled { assert OrderLater(b.orders[r.order.value], b'.orders[r.order.value]); }
  }

  lemma SoldByStays(b: Book, b': Book, s: string, r: OrderResult, held: nat)
    requires Onward(b, b', s) && SoldBy(b, s, r, held)
    ensures SoldBy(b', s, r, held)
  {
    SoldByGrows(b, b', s, r, held);
  }

  /** The ledger changed at `s` alone, by exactly the shares of a finished sale. */
  ghost predicate Sells(b: Book, l: Ledger, l': Ledger, s: string, sale: OrderResult) {
    && SoldBy(b, s, sale, Held(l, s))
    && sale.filled <= Held(l, s) && Stake(l', s) == Stake(l, s) - sale.filled
    && OthersKept(l, l', s) && (Doubled(l', s) ==> Doubled(l, s))
  }

  ghost predicate OthersKept(l: Ledger, l': Ledger, s: string) {
    forall t :: t != s ==> (t in l <==> t in l') && (t in l ==> l'[t] == l[t])
  }

  lemma SameHeld(l: Ledger, l': Ledger, s: string)
    requires l' == l || SameBut(l, l', s)
    ensures Held(l', s) == Held(l, s) && Stake(l', s) == Stake(l, s) && OthersKept(l, l', s)
    ensures Doubled(l', s) == Doubled(l, s)
  {
  }

  lemma SellsNothing(b: Book, l: Ledger, l': Ledger, s: string)
    requires l' == l || SameBut(l, l', s)
    ensures Sells(b, l, l', s, NOT_DONE)
  {
    SameHeld(l, l', s);
  }

  /** An exit moved the stop, its booking took the fill off. */
  lemma SellsThrough(b: Book, l: Ledger, w: World, l': Ledger, s: string, r: OrderResult)
    requires w.ledger == l || SameBut(l, w.ledger, s)
    requires r.filled <= Held(w.ledger, s) && SoldBy(b, s, r, Held(w.ledger, s))
    requires l' == Booked(w, s, r.filled).ledger
    ensures Sells(b, l, l', s, r)
  {
    hide SoldBy;
    SameHeld(l, w.ledger, s);
    BookedSells(w, s, r.filled);
  }

  lemma BookedSells(w: World, s: string, f: nat)
    requires f <= Held(w.ledger, s)
    ensures Stake(Booked(w, s, f).ledger, s) == Stake(w.ledger, s) - f
      && OthersKept(w.ledger, Booked(w, s, f).ledger, s)
    ensures Doubled(Booked(w, s, f).ledger, s) ==> Doubled(w.ledger, s)
  {
    hide Reduced;
    ReducedAt(w.ledger, s, f);
  }

  /** The shares of `s` that the sales took. */
  function SoldOf(sales: seq<Sale>, s: string): nat {
    if sales == [] then 0
    else
      var last := sales[|sales| - 1];
      SoldOf(sales[..|sales| - 1], s) + (if last.symbol == s then last.result.filled else 0)
  }

  /** Every symbol holds what it did less exactly the fills of the finished sales booked for it; a symbol
      listed once has at most one. */
  ghost predicate Accounted(b: Book, l: Ledger, l': Ledger, sales: seq<Sale>) {
    && (forall i :: 0 <= i < |sales| ==> Finished(b, l, sales[i]))
    && (forall i, j :: 0 <= i < j < |sales| && sales[i].symbol == sales[j].symbol ==> Doubled(l, sales[i].symbol))
    && (forall s :: Stake(l', s) == Stake(l, s) - SoldOf(sales, s))
    && (forall s :: Doubled(l', s) ==> Doubled(l, s))
  }

  /** The sale is of a finished order, and of no more than the position there was. */
  predicate Finished(b: Book, l: Ledger, sale: Sale) {
    && SoldBy(b, sale.symbol, sale.result, sale.held) && sale.result.filled <= sale.held <= Stake(l, sale.symbol)
    && (!Doubled(l, sale.symbol) ==> sale.held == Held(l, sale.symbol))
  }

  lemma AccountedStays(b: Book, b': Book, l: Ledger, l': Ledger, sales: seq<Sale>)
    requires Accounted(b, l, l', sales) && Grown(b, b')
    ensures Accounted(b', l, l', sales)
  {
    hide SoldBy, Grown;
    forall i | 0 <= i < |sales|
      ensures Finished(b', l, sales[i])
    {
      assert Finished(b, l, sales[i]);
      SoldByGrows(b, b', sales[i].symbol, sales[i].result, sales[i].held);
    }
  }

  lemma BooksStay(b: Book, b': Book, l: Ledger, l': Ledger, sales: seq<Sale>)
    requires Accounted(b, l, l', sales) && Later(b, b')
    ensures Accounted(b', l, l', sales)
  {
    hide Later, Accounted, Grown;
    LaterGrows(b, b');
    AccountedStays(b, b', l, l', sales);
  }

  lemma NoneBooked(b: Book, l: Ledger)
    ensures Accounted(b, l, l, [])
  {
  }

  lemma {:induction false} NoneSoldOf(sales: seq<Sale>, s: string)
    requires forall i :: 0 <= i < |sales| ==> sales[i].symbol != s
    ensures SoldOf(sales, s) == 0
  {
    if sales != [] { NoneSoldOf(sales[..|sales| - 1], s); }
  }

  lemma OneMore(b: Book, b': Book, l0: Ledger, l: Ledger, l': Ledger, sales: seq<Sale>, s: string, sale: OrderResult)
    requires Accounted(b, l0, l, sales) && Onward(b, b', s) && Sells(b', l, l', s, sale)
    requires Doubled(l0, s) || forall i :: 0 <= i < |sales| ==> sales[i].symbol != s
    ensures Accounted(b', l0, l', sales + [Sale(s, Held(l, s), sale)])
  {
    hide SoldBy, Grown, Reach, Offered;
    AccountedStays(b, b', l0, l, sales);
    var last, more := Sale(s, Held(l, s), sale), sales + [Sale(s, Held(l, s), sale)];
    assert more[..|sales|] == sales;
    forall t
      ensures Stake(l', t) == Stake(l0, t) - SoldOf(more, t)
      ensures Doubled(l', t) ==> Doubled(l0, t)
    {
      assert t != s ==> Stake(l', t) == Stake(l, t) && (Doubled(l', t) ==> Doubled(l, t));
    }
    if !Doubled(l0, s) { NoneSoldOf(sales, s); }
    assert Finished(b', l0, last) by {
      assert !Doubled(l, s) ==> Held(l, s) == Stake(l, s);
      assert Held(l, s) <= Stake(l, s);
    }
  }

  lemma NothingHeld(b: Book, holdings: seq<Holding>)
    requires holdings == []
    ensures Accurate(b, holdings) ==> forall s :: Net(b, s) == 0
  {
    assert HoldingSymbols(holdings) == {};
  }

  /** A stop that passes is of the right identity, and working rather than complete. */
  lemma PassingHasIdentity(r: OrderReport, s: string, qty: nat, product: string, exchange: string)
    ensures StopProblem(r, s, qty as real, product, exchange) == NoProblem ==>
      StopIdentityProblem(r, s, product, exchange) == NoProblem && r.status != "COMPLETE"
  {
  }

  lemma DegradedIsProtected(w: World)
    ensures w.degraded ==> Protected(w)
  {
  }

  /** When the comparison raises no issue, every stop it asked about has just been confirmed. */
  lemma CleanIsProtected(w: World, hs: seq<Holding>, internal: map<string, Tracked>, answers: nat -> OrderReport)
    requires CleanSoFar(hs, internal, answers) && internal.Keys <= HoldingSymbols(hs) && internal == Internals(w.ledger)
    requires forall k :: answers(k) == UNKNOWN_REPORT || (k in w.told && w.told[k] == answers(k))
    ensures forall s :: s in w.ledger ==> ComparedAt(w, s)
    ensures forall s :: s in w.ledger ==> Doubled(w.ledger, s) || ProtectedAt(w, s)
    ensures Doubles(w.ledger) <= w.exposed ==> Protected(w)
  {
    hide Last;
    forall s | s in w.ledger
      ensures ComparedAt(w, s) && (Doubled(w.ledger, s) || ProtectedAt(w, s))
      ensures Doubled(w.ledger, s) ==> s in Doubles(w.ledger)
    {
      assert s in internal.Keys;
      var i :| 0 <= i < |hs| && hs[i].symbol == s;
      assert HoldingMatches(hs[i], internal, answers);
      var p := Last(w.ledger[s]);
      assert answers(p.stop.value).status != "UNKNOWN";
      PassingIsConfirmed(answers(p.stop.value), s, p.qty, hs[i].product, hs[i].exchange);
      ComparedOnce(w, s);
    }
  }

  /** A purchase's fill the ledger may record: bought, backed, and stopped and confirmed unless the
      degraded flag is up. */
  ghost predicate Recordable(w: World, s: string, qty: nat, r: OrderResult) {
    0 < r.filled ==>
      && r.order.Some? && BuyOrder(w.book, s, r.order.value, qty)
      && r.filled <= w.book.orders[r.order.value].filled && 0.0 < r.average
      && (r.status == FILLED ==> Final(w.book.orders[r.order.value], r.filled))
      && (r.stop.Some? ==> SellOrder(w.book, s, r.stop.value))
      && Backed(w, s, r.filled, AsSet(r.stop))
      && (w.degraded || (r.stop.Some? && r.stop.value in w.told && Confirmed(w.told[r.stop.value], s, r.filled)))
  }

  lemma RecordableStays(w: World, w': World, s: string, qty: nat, r: OrderResult)
    requires Recordable(w, s, qty, r) && Later(w.book, w'.book)
    requires (w'.degraded || w'.told == w.told) && (w.degraded ==> w'.degraded)
    requires w.uncovered <= w'.uncovered && w.orphans <= w'.orphans
    ensures Recordable(w', s, qty, r)
  {
    hide Reach, Spare, Offered, Confirmed, Backed;
    if 0 < r.filled {
      assert OrderLater(w.book.orders[r.order.value], w'.book.orders[r.order.value]);
      if r.stop.Some? { SellOrderStays(w.book, w'.book, s, r.stop.value); }
      BackedStays(w, w', s, r.filled, AsSet(r.stop));
    }
  }

  lemma PurchaseStaysFinal(b: Book, mid: Book, b': Book, s: string, x: nat, filled: nat, stop: Option<nat>)
    requires x < |b.orders| && Final(b.orders[x], filled)
    requires Later(b, mid) && Later(if stop.Some? then Submitted(mid, s, Sell, filled) else mid, b')
    ensures x < |b'.orders| && Final(b'.orders[x], filled)
  {
    hide Reach, Offered, Spare;
    assert OrderLater(b.orders[x], mid.orders[x]);
    assert OrderLater(mid.orders[x], b'.orders[x]);
  }

  /** A purchase's fills and their cover, while its stop is placed. */
  lemma PurchaseKept(b: Book, mid: Book, b': Book, s: string, x: nat, qty: nat, filled: nat, stop: Option<nat>)
    requires BuyOrder(b, s, x, qty) && filled <= b.orders[x].filled
    requires Later(b, mid) && Later(if stop.Some? then Submitted(mid, s, Sell, filled) else mid, b')
    requires stop.Some? ==> stop.value == |mid.orders|
    ensures BuyOrder(b', s, x, qty) && filled <= b'.orders[x].filled
    ensures Final(b.orders[x], filled) ==> Final(b'.orders[x], filled)
    ensures 0 <= Spare(b, s, x) ==> filled <= Reach(b', s, AsSet(stop))
  {
    hide Reach, Offered, Spare, Later;
    if Final(b.orders[x], filled) { PurchaseStaysFinal(b, mid, b', s, x, filled, stop); }
    BuyOrderStays(b, mid, s, x, qty);
    if stop.Some? {
      var taken := Submitted(mid, s, Sell, filled);
      BuyOrderStays(taken, b', s, x, qty);
      if 0 <= Spare(b, s, x) {
        SpareCovers(b, s, x, qty);
        AcceptedStop(b, mid, b', s, filled);
      }
    } else {
      BuyOrderStays(mid, b', s, x, qty);
      if 0 <= Spare(b, s, x) { SpareCovers(b', s, x, qty); }
    }
  }

  /** One new position, of no more than the shares its purchase bought. */
  ghost predicate Buys(b: Book, l: Ledger, l': Ledger, p: Proposal, purchase: Option<nat>) {
    && p.symbol !in l && p.symbol in l' && l' == l[p.symbol := l'[p.symbol]] && l'[p.symbol].next.None?
    && purchase.Some? && 0 < p.qty && BuyOrder(b, p.symbol, purchase.value, p.qty)
    && l'[p.symbol].qty <= b.orders[purchase.value].filled
    && l'[p.symbol].stopLoss == p.stopPrice && l'[p.symbol].takeProfit == p.takeProfit
  }

  /** No order placed since `b` bought anything, or can. */
  ghost predicate NothingBought(b: Book, b': Book) {
    forall k :: |b.orders| <= k < |b'.orders| && b'.orders[k].side.Buy? ==> Final(b'.orders[k], 0)
  }

  lemma NothingBoughtStays(b: Book, mid: Book, b': Book)
    requires NothingBought(b, mid) && Later(mid, b')
    ensures NothingBought(b, b')
  {
    hide Reach, Offered, Spare;
    forall k | |b.orders| <= k < |b'.orders| && b'.orders[k].side.Buy?
      ensures Final(b'.orders[k], 0)
    {
      assert OrderLater(mid.orders[k], b'.orders[k]);
    }
  }

  lemma NoneSent(b: Book, b': Book)
    requires |b'.orders| == |b.orders|
    ensures NothingBought(b, b')
  {
  }

  /** The status of a key's row. */
  function StatusOf(rows: Rows, key: string): Option<RowStatus> {
    if EntryRow(key) in rows then Some(rows[EntryRow(key)].status) else None
  }

  /** The key's row is there and unresolved. */
  predicate Pends(rows: Rows, key: string) { EntryRow(key) in rows && Unresolved(rows[EntryRow(key)]) }

  /** How a followed purchase may end: with its fill, refused, or with its row marked and the flag up. */
  predicate PurchaseEnds(r: OrderResult, degraded: bool, rows: Rows, rows': Rows, key: string) {
    && (0 < r.filled ==> r.status == FILLED || r.status == PARTIAL)
    && (r.status == SUBMITTED ==> r.unknown && degraded && rows' == Updated(rows, EntryRow(key), Unclear))
  }

  lemma StatusWritten(rows: Rows, key: string, status: RowStatus)
    ensures EntryRow(key) in rows ==> StatusOf(Updated(rows, EntryRow(key), status), key) == Some(status)
    ensures Pends(rows, key) && Unresolved(Row("", Buy, status, 0)) ==> Pends(Updated(rows, EntryRow(key), status), key)
  {
  }
}
