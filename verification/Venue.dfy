/** The broker and the market as the application meets them: every await is one turn of a script the
    application cannot see, in which orders fill, end or lie low, calls raise, and replies get lost. */
module Venue {
  import opened Common
  import opened OrderBook
  import opened Protection
  import opened Reconciliation

  /** `Fault` is an exception; `Interrupted` is a cancellation, which `except Exception` lets through;
      `Killed` is the end of the process, which no handler sees. */
  datatype Failure = Fault | Interrupted | Killed

  datatype Outcome<+T> = Done(value: T) | Raised(failure: Failure) {
    predicate IsFailure() { Raised? }

    function PropagateFailure<U>(): Outcome<U>
      requires Raised?
    {
      Raised(failure)
    }

    function Extract(): T
      requires Done?
    {
      value
    }
  }

  /** The last entry of an order's history; `None` is a key the broker left out. */
  datatype HistoryEntry = HistoryEntry(
    status: string,
    filled: Option<int>,
    pending: Option<int>,
    quantity: Option<int>,
    averagePrice: Option<real>,
    symbol: string,
    transactionType: string,
    product: string,
    exchange: string,
    orderType: string,
    trigger: Option<real>
  )

  datatype Reply = Answered | LostReply | Offline

  /** What another task of the application may do while one waits: go on with a reconciliation retry, save,
      halt trading as a kill switch does, resume it as an operator does, or find a position missing. */
  datatype Other = RetryTurn | SaveTurn | HaltTurn | ResumeTurn | AlertTurn

  /** What the world does at one await: the turns of other tasks, moves before and after the call takes
      effect, whether it raises, whether it took effect all the same, and what it would answer. */
  datatype Turn = Turn(
    others: seq<Other>,
    moves: seq<Move>,
    afterwards: seq<Move>,
    failure: Option<Failure>,
    effective: bool,
    reply: Reply,
    history: Option<HistoryEntry>,
    holdings: seq<Holding>,
    polls: nat,
    allowed: bool,
    price: real
  )

  datatype OrderStatus = SUBMITTED | PARTIAL | FILLED | REJECTED | FAILED

  datatype Ack = Accepted(id: nat) | InvalidQuantity | NotConnected | OutcomeUnknown

  /** What polling an order's history came to. */
  datatype Settlement = Settlement(status: OrderStatus, filled: nat, average: real, unknown: bool)

  function OrZero(x: Option<int>): int { if x.Some? then x.value else 0 }

  function Price(x: Option<real>): real { if x.Some? then x.value else 0.0 }

  predicate Terminal(status: string) { status == "COMPLETE" || status == "CANCELLED" || status == "REJECTED" }

  // ---- what the broker is trusted with ----

  /** Fills are cumulative and final once the status is terminal, quantities agree with the order, and
      a fill has a positive average price. */
  predicate Truthful(o: Order, e: HistoryEntry) {
    && 0 <= OrZero(e.filled) <= o.filled
    && (0 < OrZero(e.filled) ==> 0.0 < Price(e.averagePrice))
    && (if Terminal(Upper(e.status))
        then !Alive(o) && OrZero(e.filled) == o.filled
        else
          && (OrZero(e.quantity) != 0 ==> OrZero(e.quantity) == o.qty)
          && (e.pending.Some? ==> e.pending.value == o.qty - OrZero(e.filled)))
  }

  /** Every symbol with a nonzero net is listed, and the only row of a symbol carries its net. */
  ghost predicate Accurate(b: Book, holdings: seq<Holding>) {
    && (forall s :: Net(b, s) != 0 ==> s in HoldingSymbols(holdings))
    && (forall i :: 0 <= i < |holdings| && OnlyRow(holdings, i) ==>
          Net(b, holdings[i].symbol) == if holdings[i].long then holdings[i].qty else -holdings[i].qty)
  }

  ghost predicate OnlyRow(holdings: seq<Holding>, i: nat)
    requires i < |holdings|
  {
    forall j :: 0 <= j < |holdings| && j != i ==> holdings[j].symbol != holdings[i].symbol
  }

  // ---- order reports ----

  const UNKNOWN_REPORT := OrderReport("UNKNOWN", "", "", "", "", "", None, None, None, 0.0)

  /** `fetch_order_status`: a quantity the broker left out reads as zero. */
  function Summary(e: HistoryEntry): OrderReport {
    OrderReport(e.status, e.symbol, e.transactionType, e.product, e.exchange, e.orderType,
                Some(OrZero(e.pending)), Some(OrZero(e.filled)), e.trigger, Price(e.averagePrice))
  }

  /** The order can fill no further, and has filled `f`. */
  predicate Final(o: Order, f: nat) { Open(o) == 0 && o.filled == f }

  /** A report the application may rely on for order `o`. */
  predicate Reliable(o: Order, r: OrderReport) {
    && 0 <= OrZero(r.filled) <= o.filled
    && (0 < OrZero(r.filled) ==> 0.0 < r.averagePrice)
    && (Terminal(r.status) ==> Final(o, OrZero(r.filled)))
  }

  lemma TerminalIsUpper(status: string)
    requires Terminal(status)
    ensures Upper(status) == status
  {
    assert forall i :: 0 <= i < |status| ==> 'A' <= status[i] <= 'Z';
  }

  lemma TruthfulIsReliable(o: Order, e: HistoryEntry)
    requires Truthful(o, e)
    ensures Reliable(o, Summary(e))
  {
    if Terminal(e.status) { TerminalIsUpper(e.status); }
  }

  /** What a settlement promises about the order it is about. */
  predicate Settles(o: Order, r: Settlement) {
    && (0 < r.filled ==> 0.0 < r.average)
    && (r.unknown <==> r.status == SUBMITTED)
    && match r.status
       case FILLED => Final(o, r.filled)
       case REJECTED => r.filled == 0 && Final(o, 0)
       case PARTIAL => 0 < r.filled <= o.filled
       case _ => r.filled == 0
  }

  /** The symbols working sells could take short. */
  ghost function Bare(b: Book): iset<string> { iset s | Cover(b, s) < 0 }

  // ---- the broker ----

  class Broker {
    const script: nat -> Turn
    var tick: nat
    var book: Book
    /** The symbols that were not covered at some moment since the start. */
    ghost var uncovered: iset<string>
    /** The last answer to a status query, by order. */
    ghost var told: map<nat, OrderReport>

    constructor (script: nat -> Turn, net: map<string, int>)
      requires forall s :: s in net ==> 0 <= net[s]
      ensures this.script == script && book == Book(net, []) && told == map[]
      ensures uncovered == iset{} && Latched()
    {
      this.script := script;
      tick, book := 0, Book(net, []);
      uncovered, told := iset{}, map[];
    }

    /** Whatever is not covered now has been noted. */
    ghost predicate Latched()
      reads this
    {
      Bare(book) <= uncovered
    }

    /** The market moves. Fills and ends only ever add cover, so no moment of it leaves a symbol
        uncovered that was covered before. */
    method Drift(moves: seq<Move>)
      requires Latched()
      modifies this`book
      ensures book == ApplyAll(old(book), moves) && Later(old(book), book)
      ensures forall n :: 0 <= n <= |moves| ==> Bare(ApplyAll(old(book), moves[..n])) <= uncovered
      ensures Latched()
    {
      hide Later, Bare, Apply;
      ghost var start := book;
      LaterRefl(book);
      var i := 0;
      while i < |moves|
        invariant 0 <= i <= |moves|
        invariant book == ApplyAll(start, moves[..i]) && Later(start, book)
        invariant forall n :: 0 <= n <= i ==> Bare(ApplyAll(start, moves[..n])) <= uncovered
      {
        MoveIsLater(book, moves[i]);
        LaterTrans(start, book, Apply(book, moves[i]));
        NoneBared(book, Apply(book, moves[i]));
        assert moves[..i + 1][..i] == moves[..i];
        book := Apply(book, moves[i]);
        i := i + 1;
      }
      assert moves[..|moves|] == moves;
    }

    /** One await: the market moves, and nothing else does. */
    method Pass() returns (t: Turn)
      requires Latched()
      modifies this`tick, this`book
      ensures t == script(old(tick)) && book == ApplyAll(old(book), t.moves)
      ensures Later(old(book), book) && Latched()
    {
      t := script(tick);
      tick := tick + 1;
      Drift(t.moves);
    }

    /** An await that may raise. */
    method Await() returns (out: Outcome<Turn>)
      requires Latched()
      modifies this`tick, this`book
      ensures book == ApplyAll(old(book), script(old(tick)).moves)
      ensures var t := script(old(tick)); out == if t.failure.Some? then Raised(t.failure.value) else Done(t)
      ensures Later(old(book), book) && Latched()
    {
      var t := Pass();
      return if t.failure.Some? then Raised(t.failure.value) else Done(t);
    }

    /** Submit an order. `sent` says whether it went out, on the book `mid`: a lost reply, a timeout or an
        exception may hide an order that reaches the broker now, at any later moment, or never. A symbol
        becomes uncovered here or nowhere. */
    method PlaceOrder(symbol: string, side: Side, qty: int)
      returns (out: Outcome<Ack>, ghost sent: bool, ghost mid: Book)
      requires Latched()
      modifies this`tick, this`book, this`uncovered
      ensures mid == ApplyAll(old(book), script(old(tick)).moves) && Later(old(book), mid)
        && Bare(mid) <= old(uncovered)
      ensures sent ==> 0 < qty && Later(Submitted(mid, symbol, side, qty), book)
      ensures !sent ==> book == mid
      ensures out.Done? && out.value.Accepted? ==> sent && out.value.id == |mid.orders|
      ensures out.Done? && out.value.Accepted? ==> book.orders[out.value.id].heard
      ensures out.Done? && (out.value.InvalidQuantity? || out.value.NotConnected?) ==> !sent
      ensures out.Done? && out.value.InvalidQuantity? ==> qty <= 0
      ensures uncovered == old(uncovered) + (if sent then Bare(Submitted(mid, symbol, side, qty)) else iset{})
      ensures Latched()
    {
      hide Bare, Reach, Spare, Offered;
      var t := Pass();
      mid, sent := book, false;
      if t.reply.Offline? { return Done(NotConnected), sent, mid; }
      if qty <= 0 { return Done(InvalidQuantity), sent, mid; }
      var answered := t.failure.None? && t.reply.Answered?;
      if t.effective {
        sent := true;
        var id := |book.orders|;
        book := Submitted(book, symbol, side, qty);
        uncovered := uncovered + Bare(book);
        ghost var taken := book;
        if answered {
          Arrives(taken, id);
          book := Acknowledged(book, id);
          ghost var heard := book;
          Drift(t.afterwards);
          StaysHeard(heard, t.afterwards, id);
          LaterTrans(taken, heard, book);
          return Done(Accepted(id)), sent, mid;
        }
        Drift(t.afterwards);
      }
      return if t.failure.Some? then Raised(t.failure.value) else Done(OutcomeUnknown), sent, mid;
    }

    /** Ask for a cancellation; whether the order ends is the market's move. */
    method Cancel(id: nat) returns (out: Outcome<()>)
      requires Latched()
      modifies this`tick, this`book
      ensures book == ApplyAll(old(book), script(old(tick)).moves)
      ensures Later(old(book), book) && Latched()
    {
      var t := Pass();
      return if t.failure.Some? then Raised(t.failure.value) else Done(());
    }

    /** A failed query answers UNKNOWN; only a cancellation or the end raises. */
    method FetchStatus(id: nat) returns (out: Outcome<OrderReport>)
      requires Latched()
      modifies this`tick, this`book, this`told
      ensures book == ApplyAll(old(book), script(old(tick)).moves)
      ensures Later(old(book), book) && Latched()
      ensures told == if out.Done? then old(told)[id := out.value] else old(told)
      ensures out.Done? && id < |book.orders| ==> Reliable(book.orders[id], out.value)
    {
      hide Later, Bare, Truthful;
      var t := Pass();
      if t.failure.Some? && !t.failure.value.Fault? { return Raised(t.failure.value); }
      var r := UNKNOWN_REPORT;
      if t.failure.None? && t.history.Some? && id < |book.orders| && Truthful(book.orders[id], t.history.value) {
        TruthfulIsReliable(book.orders[id], t.history.value);
        r := Summary(t.history.value);
      }
      told := told[id := r];
      return Done(r);
    }

    method FetchPositions() returns (out: Outcome<seq<Holding>>)
      requires Latched()
      modifies this`tick, this`book
      ensures book == ApplyAll(old(book), script(old(tick)).moves)
      ensures Later(old(book), book) && Latched()
      ensures out.Done? ==> Accurate(book, out.value)
    {
      hide Later, Bare;
      var t := Pass();
      if t.failure.Some? { return Raised(t.failure.value); }
      var accurate := AccurateRows(book, t.holdings);
      if !accurate { return Raised(Fault); }
      return Done(t.holdings);
    }

    /** Poll the order's history until it settles or time runs out. */
    method ReconcileOrder(id: nat, qty: nat) returns (out: Outcome<Settlement>)
      requires id < |book.orders| && book.orders[id].qty == qty
      requires Latched()
      modifies this`tick, this`book
      ensures Later(old(book), book) && Latched()
      ensures out.Done? ==> Settles(book.orders[id], out.value)
    {
      hide Reach, Bare, Spare, Offered;
      ghost var start := book;
      var t := Pass();
      if t.reply.Offline? { return Done(Settlement(FAILED, 0, 0.0, false)); }
      var lastPartial: Option<Settlement> := None;
      var polls := t.polls;
      while 0 < polls
        invariant Later(start, book) && Latched()
        invariant lastPartial.Some? ==>
          lastPartial.value.status == PARTIAL && Settles(book.orders[id], lastPartial.value)
        decreases polls
      {
        ghost var before := book;
        t := Pass();
        LaterTrans(start, before, book);
        assert OrderLater(before.orders[id], book.orders[id]);
        if t.failure.Some? && !t.failure.value.Fault? { return Raised(t.failure.value); }
        if t.failure.None? && t.history.Some? && Truthful(book.orders[id], t.history.value) {
          var e := t.history.value;
          var status := Upper(e.status);
          var filled: nat, average := OrZero(e.filled), Price(e.averagePrice);
          var asked := if OrZero(e.quantity) != 0 then OrZero(e.quantity) else qty;
          var pending := if e.pending.Some? then e.pending.value else if asked < filled then 0 else asked - filled;
          if status == "COMPLETE" || (0 < filled && pending <= 0) {
            return Done(Settlement(FILLED, filled, average, false));
          }
          if 0 < filled && status != "CANCELLED" && status != "REJECTED" {
            lastPartial := Some(Settlement(PARTIAL, filled, average, false));
          }
          if status == "CANCELLED" || status == "REJECTED" {
            if 0 < filled { return Done(Settlement(PARTIAL, filled, average, false)); }
            return Done(Settlement(REJECTED, 0, 0.0, false));
          }
        }
        polls := polls - 1;
      }
      if lastPartial.Some? { return Done(lastPartial.value); }
      return Done(Settlement(SUBMITTED, 0, 0.0, true));
    }
  }

  /** The order is at the broker, and its reply brought its id. */
  function Acknowledged(b: Book, id: nat): Book
    requires id < |b.orders|
  {
    var o := b.orders[id];
    b.(orders := b.orders[id := o.(phase := if o.phase.Underway? then Working else o.phase, heard := true)])
  }

  lemma Arrives(b: Book, id: nat)
    requires id < |b.orders| && Alive(b.orders[id])
    ensures Later(b, Acknowledged(b, id)) && Bare(Acknowledged(b, id)) <= Bare(b)
  {
    hide Bare;
    var b' := Acknowledged(b, id);
    forall s, these: set<nat>
      ensures Reach(b', s, these) == Reach(b, s, these) && Offered(b'.orders, s, these) == Offered(b.orders, s, these)
    {
      SumsUpdate(b.orders, id, b'.orders[id], s, these);
    }
    NoneBared(b, b');
  }

  lemma {:induction false} StaysHeard(b: Book, moves: seq<Move>, id: nat)
    requires id < |b.orders| && b.orders[id].heard
    ensures id < |ApplyAll(b, moves).orders| && ApplyAll(b, moves).orders[id].heard
  {
    if moves != [] { StaysHeard(b, moves[..|moves| - 1], id); }
  }

  lemma NoneBared(b: Book, b': Book)
    requires Later(b, b')
    ensures Bare(b') <= Bare(b)
  {
    forall s | s in Bare(b')
      ensures s in Bare(b)
    {
      CoverGrows(b, b', s);
    }
  }

  method AccurateRows(b: Book, holdings: seq<Holding>) returns (ok: bool)
    ensures ok <==> Accurate(b, holdings)
  {
    ok := (forall s :: s in b.net.Keys ==> Net(b, s) != 0 ==> s in HoldingSymbols(holdings))
      && (forall i :: 0 <= i < |holdings| ==>
        (forall j :: 0 <= j < |holdings| && j != i ==> holdings[j].symbol != holdings[i].symbol) ==>
            Net(b, holdings[i].symbol) == if holdings[i].long then holdings[i].qty else -holdings[i].qty);
  }
}
