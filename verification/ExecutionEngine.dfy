/** The live order protocol: entries with their protective stops, exits, the square-off, the position
    monitor, reconciliation and restarts, one method each, against the adversary of `Venue`. */
module ExecutionEngine {
  import opened Common
  import opened OrderBook
  import opened Protection
  import opened Reconciliation
  import opened Venue
  import opened TradeTable
  import opened LiveLedger
  import opened LiveSafety
  import opened LiveResults

  /** What other tasks of the application write as well: the degraded flag, the halt, the reconciliation
      retry, and the portfolio in the database. */
  class Shared {
    var degraded: bool
    var halted: bool
    var retry: Option<Retry>
    /** The position table, and the halt flag beside it. */
    var saved: Table
    var savedHalt: bool
    /** The flag was up at some moment of the running step, or a retry was on its way. Between steps it is
        the flag. */
    ghost var alarm: bool
    /** An order step is under way. */
    ghost var busy: bool
    /** The retry has seen no order step since its first read. */
    ghost var undisturbed: bool
    /** How often a retry took the flag down, and how often one that had seen an order step. */
    ghost var verdicts: nat
    ghost var disturbed: nat
    /** How often an order step halted trading: it left an order unknown, could not store a booking, or was
        the kill switch or a square-off that is not flat. How often another task did, how often an operator
        lifted the halt, and how often another task put the degraded flag up. */
    ghost var marks: nat
    ghost var halts: nat
    ghost var resumes: nat
    ghost var alerts: nat

    constructor ()
      ensures saved == [] && !halted && !degraded && retry.None? && !alarm && !busy && disturbed == 0
    {
      degraded, halted, retry, saved, savedHalt := false, false, None, [], false;
      alarm, busy, undisturbed, verdicts, disturbed := false, false, false, 0, 0;
      marks, halts, resumes, alerts := 0, 0, 0, 0;
    }
  }

  class Engine {
    const broker: Broker
    const trades: TradeRepository
    const shared: Shared
    const product: string
    const exchange: string
    var ledger: Ledger
    var nextExit: nat
    /** The process is up and its recovery went through. */
    var running: bool
    /** Sells that went out and that the ledger does not know, or lost. */
    ghost var orphans: set<nat>
    /** Symbols whose last stop report did not confirm when a retry took the degraded flag down, and symbols
        that a load listed more than once. */
    ghost var exposed: set<string>
    /** Symbols a fill was stored for while the database had an open row of them. */
    ghost var overlaid: set<string>

    ghost function W(): World
      reads this, broker, trades, shared
    {
      World(broker.book, broker.uncovered, broker.told, trades.rows, ledger, shared.saved, shared.alarm, nextExit,
        orphans, exposed, overlaid)
    }

    constructor (broker: Broker, trades: TradeRepository, shared: Shared, product: string, exchange: string)
      ensures this.broker == broker && this.trades == trades && this.shared == shared
      ensures ledger == map[] && running && orphans == {} && exposed == {} && overlaid == {}
    {
      this.broker, this.trades, this.shared, this.product, this.exchange := broker, trades, shared, product, exchange;
      ledger, nextExit, running, orphans, exposed, overlaid := map[], 0, true, {}, {}, {};
    }

    // ---- what other tasks do while one waits ----

    /** The alarm and a retry mean that the flag is up, as they do until a retry's verdict. */
    ghost predicate Up()
      reads shared
    {
      shared.alarm || shared.retry.Some? ==> shared.degraded
    }

    ghost predicate Retrying()
      reads shared
    {
      shared.retry.Some? ==> shared.degraded
    }

    /** The flag only goes down by a retry's verdict, which during an order step is a disturbed one, and
        never unnoticed. */
    twostate predicate FlagKept()
      reads shared
    {
      FlagAndHaltKept() && RowsKept()
    }

    twostate predicate FlagAndHaltKept()
      reads shared
    {
      && (old(shared.alarm) ==> shared.alarm)
      && old(shared.verdicts) <= shared.verdicts
      && (shared.verdicts == old(shared.verdicts) && old(shared.degraded) ==> shared.degraded)
      && (shared.verdicts == old(shared.verdicts) && old(Up()) ==> Up())
      && (old(Retrying()) ==> Retrying())
      && shared.busy == old(shared.busy) && old(shared.disturbed) <= shared.disturbed
      && (shared.busy && shared.disturbed == old(shared.disturbed) ==> shared.verdicts == old(shared.verdicts))
      && HaltKept()
    }

    /** As long as no operator lifts it, the halt is what it was, or somebody halted trading. */
    twostate predicate HaltKept()
      reads shared
    {
      && old(shared.marks) <= shared.marks && old(shared.halts) <= shared.halts
      && old(shared.resumes) <= shared.resumes && old(shared.alerts) <= shared.alerts
      && (shared.resumes == old(shared.resumes) ==>
            (shared.halted <==>
               old(shared.halted) || old(shared.marks) < shared.marks || old(shared.halts) < shared.halts))
    }

    /** No new open row, and none comes back. */
    twostate predicate RowsKept()
      reads shared
    {
      OpenSymbols(shared.saved) <= OpenSymbols(old(shared.saved))
    }

    /** The flag is down and no retry is on its way. */
    predicate AllClear()
      reads shared
    {
      !shared.degraded && shared.retry.None?
    }

    /** `persist`: a save that fails answers false, and may have committed all the same. */
    method Store() returns (out: Outcome<bool>)
      requires broker.Latched()
      modifies shared`saved, shared`savedHalt, broker`tick, broker`book
      ensures broker.Latched() && Later(old(broker.book), broker.book)
      ensures broker.book == ApplyAll(old(broker.book), broker.script(old(broker.tick)).moves)
      ensures shared.saved == old(shared.saved) || shared.saved == Synced(old(shared.saved), ledger)
      ensures out == Done(true) ==>
        shared.saved == Synced(old(shared.saved), ledger) && shared.savedHalt == shared.halted
      ensures out != Raised(Fault) && OpenSymbols(shared.saved) == OpenSymbols(old(shared.saved))
    {
      hide Later, Bare, Synced, OpenSymbols;
      var t := broker.Pass();
      if (if t.failure.None? then t.allowed else t.effective) {
        SyncedOpens(shared.saved, ledger);
        shared.saved, shared.savedHalt := Synced(shared.saved, ledger), shared.halted;
      }
      if t.failure.Some? && !t.failure.value.Fault? { return Raised(t.failure.value); }
      return Done(t.failure.None? && t.allowed);
    }

    /** The turns of other tasks during one await: a reconciliation retry, background saves, a kill switch, an
        operator, the monitor's listing. None of them is an order step. */
    method Others() returns (ghost moves: seq<Move>)
      requires broker.Latched()
      modifies shared, broker`tick, broker`book, broker`told
      ensures broker.Latched() && Later(old(broker.book), broker.book)
      ensures broker.book == ApplyAll(old(broker.book), moves)
      ensures OthersTurns(old(W()), W()) && FlagKept() && shared.marks == old(shared.marks)
      ensures old(AllClear()) && shared.alerts == old(shared.alerts) ==>
        AllClear() && shared.alarm == old(shared.alarm) && broker.told == old(broker.told)
    {
      hide Later, Bare, Synced, ApplyAll, AnyUnresolved, CleanSoFar, HoldingSymbols, OpenSymbols;
      moves := [];
      LaterRefl(broker.book);
      NoMoves(broker.book);
      shared.alarm := shared.alarm || shared.retry.Some?;
      var others := broker.script(broker.tick).others;
      for i := 0 to |others|
        invariant broker.Latched() && Later(old(broker.book), broker.book)
        invariant broker.book == ApplyAll(old(broker.book), moves)
        invariant OthersTurns(old(W()), W()) && FlagKept() && (shared.retry.Some? ==> shared.alarm)
        invariant shared.marks == old(shared.marks)
        invariant old(AllClear()) && shared.alerts == old(shared.alerts) ==>
          AllClear() && shared.alarm == old(shared.alarm) && broker.told == old(broker.told)
      {
        ghost var b := broker.book;
        SyncedTwice(old(shared.saved), ledger);
        ghost var more;
        more := OtherTurn(others[i]);
        ApplyAllConcat(old(broker.book), moves, more);
        moves := moves + more;
        LaterTrans(old(broker.book), b, broker.book);
      }
    }

    method OtherTurn(other: Other) returns (ghost moves: seq<Move>)
      requires broker.Latched() && (shared.retry.Some? ==> shared.alarm)
      modifies shared, broker`tick, broker`book, broker`told
      ensures broker.Latched() && Later(old(broker.book), broker.book)
      ensures broker.book == ApplyAll(old(broker.book), moves)
      ensures OthersTurns(old(W()), W()) && FlagKept() && (shared.retry.Some? ==> shared.alarm)
      ensures shared.marks == old(shared.marks)
      ensures old(AllClear()) && shared.alerts == old(shared.alerts) ==>
        AllClear() && shared.alarm == old(shared.alarm) && broker.told == old(broker.told)
    {
      hide Later, Bare, Synced, ApplyAll, AnyUnresolved, CleanSoFar, HoldingSymbols, OpenSymbols, Calm, Fit,
        ProtectedAt;
      moves := [];
      LaterRefl(broker.book);
      NoMoves(broker.book);
      match other {
        case SaveTurn =>
          moves := broker.script(broker.tick).moves;
          var _ := Store();
        case RetryTurn => moves := RetryTurn();
        case HaltTurn => shared.halted, shared.halts := true, shared.halts + 1;
        case ResumeTurn => shared.halted, shared.resumes := false, shared.resumes + 1;
        case AlertTurn => shared.degraded, shared.alarm, shared.alerts := true, true, shared.alerts + 1;
      }
    }

    // ---- the reconciliation retry ----

    /** The ledger as a comparison sees it, the last position of a symbol winning; a symbol closed since the
        retry met it counts as missing. */
    function Internal(held: set<string>): map<string, Tracked>
      reads this`ledger
    {
      Met(ledger, held)
    }

    /** What a retry has established so far, as long as no order step came since its first read. */
    ghost predicate Current(r: Retry)
      reads this`ledger, trades`rows, broker`told
    {
      && r.unresolved == AnyUnresolved(trades.rows)
      && (r.Comparing? ==>
            && r.met == r.held == ledger.Keys
            && r.seen == HoldingSymbols(r.holdings[..r.next])
            && (r.issues == 0 ==>
                  !r.unresolved && CleanSoFar(r.holdings[..r.next], Internal(r.held), Answers(broker.told))))
    }

    ghost predicate Calm()
      reads shared`retry, shared`undisturbed, this`ledger, trades`rows, broker`told
    {
      shared.undisturbed && shared.retry.Some? ==> Current(shared.retry.value)
    }

    /** One turn of `retry_reconciliation`, from one await to the next. With no order step under way since
        its first read, the retry knows what it has established. */
    method RetryTurn() returns (ghost moves: seq<Move>)
      requires broker.Latched() && (shared.retry.Some? ==> shared.alarm)
      modifies shared`degraded, shared`retry, shared`alarm, shared`undisturbed, shared`verdicts, shared`disturbed
      modifies broker`tick, broker`book, broker`told
      ensures broker.Latched() && Later(old(broker.book), broker.book)
      ensures broker.book == ApplyAll(old(broker.book), moves)
      ensures (shared.alarm || broker.told == old(broker.told)) && FlagKept() && (shared.retry.Some? ==> shared.alarm)
      ensures old(AllClear()) ==> AllClear() && shared.alarm == old(shared.alarm) && broker.told == old(broker.told)
      ensures !shared.busy && Fit(W()) && old(Calm()) ==> Calm()
      ensures shared.disturbed == old(shared.disturbed) ==>
        shared.verdicts == old(shared.verdicts) || shared.undisturbed
      ensures shared.verdicts == old(shared.verdicts) || !shared.degraded
      ensures Fit(W()) && old(Calm()) && shared.undisturbed && old(shared.degraded) && !shared.degraded ==>
        !AnyUnresolved(trades.rows) && forall s :: s in ledger ==> Doubled(ledger, s) || ProtectedAt(W(), s)
    {
      hide Later, Bare, AnyUnresolved, CleanSoFar, HoldingSymbols, ProtectedAt, Fit, OpenSymbols, Current, ApplyAll;
      if shared.retry.None? {
        moves := BeginRetry();
      } else {
        moves := Receive();
        if shared.retry.Some? { EndOfRows(); }
      }
    }

    /** The next answer: the broker's positions, or the report about a row's stop. */
    method Receive() returns (ghost moves: seq<Move>)
      requires broker.Latched() && shared.retry.Some?
      modifies shared`retry, shared`degraded, broker`tick, broker`book, broker`told
      ensures broker.Latched() && Later(old(broker.book), broker.book)
      ensures broker.book == ApplyAll(old(broker.book), moves)
      ensures old(shared.degraded) ==> shared.degraded
      ensures shared.retry.Some? ==> shared.retry.value.Comparing?
      ensures Fit(W()) && old(Calm()) ==> Calm()
    {
      hide Later, Bare, AnyUnresolved, CleanSoFar, HoldingSymbols, Fit, Current;
      if shared.retry.value.RowsRead? { moves := ReadPositions(); } else { moves := AskOne(); }
    }

    /** The first read, while degraded. */
    method BeginRetry() returns (ghost moves: seq<Move>)
      requires broker.Latched() && shared.retry.None?
      modifies shared`retry, shared`alarm, shared`undisturbed, broker`tick, broker`book
      ensures broker.Latched() && Later(old(broker.book), broker.book)
      ensures broker.book == ApplyAll(old(broker.book), moves)
      ensures FlagKept() && (shared.retry.Some? ==>
        shared.alarm && shared.degraded && shared.undisturbed == !shared.busy)
      ensures !shared.degraded ==> shared.retry.None? && shared.alarm == old(shared.alarm)
      ensures Calm()
    {
      hide Later, Bare, AnyUnresolved, OpenSymbols;
      moves := [];
      LaterRefl(broker.book);
      if !shared.degraded { return; }
      moves := broker.script(broker.tick).moves;
      var read := broker.Await();
      if read.Raised? { return; }
      shared.retry := Some(RowsRead(AnyUnresolved(trades.rows)));
      shared.alarm, shared.undisturbed := true, !shared.busy;
    }

    method ReadPositions() returns (ghost moves: seq<Move>)
      requires broker.Latched() && shared.retry.Some? && shared.retry.value.RowsRead?
      modifies shared`retry, shared`degraded, broker`tick, broker`book
      ensures broker.Latched() && Later(old(broker.book), broker.book)
      ensures broker.book == ApplyAll(old(broker.book), moves)
      ensures old(shared.degraded) ==> shared.degraded
      ensures shared.retry.Some? ==> shared.retry.value.Comparing?
      ensures old(Calm()) ==> Calm()
    {
      hide Later, Bare, AnyUnresolved, CleanSoFar, OpenSymbols;
      moves := broker.script(broker.tick).moves;
      var positions := broker.FetchPositions();
      if positions.Raised? {
        shared.retry := None;
        if positions.failure.Fault? { shared.degraded := true; }
        return;
      }
      var u, hs := shared.retry.value.unresolved, positions.value;
      NothingSeen(hs, Internal(ledger.Keys), Answers(broker.told));
      shared.retry := Some(Comparing(u, hs, ledger.Keys, ledger.Keys, 0, {}, if u then 1 else 0));
    }

    /** Ask about the stop of the next row, when it matches a position, and count its issues. */
    method AskOne() returns (ghost moves: seq<Move>)
      requires broker.Latched() && shared.retry.Some? && shared.retry.value.Comparing?
      modifies shared`retry, broker`tick, broker`book, broker`told
      ensures broker.Latched() && Later(old(broker.book), broker.book)
      ensures broker.book == ApplyAll(old(broker.book), moves)
      ensures shared.retry.Some? ==> shared.retry.value.Comparing?
      ensures shared.retry.Some? && old(shared.retry.value.next < |shared.retry.value.holdings|) ==>
        Asked(old(shared.retry.value), shared.retry.value, Internal(shared.retry.value.held), old(broker.told),
          broker.told)
      ensures Fit(W()) && old(Calm()) ==> Calm()
    {
      hide Later, Bare, Fit, AnyUnresolved, CleanSoFar, HoldingSymbols, HoldingMatches, OpenSymbols;
      moves := [];
      LaterRefl(broker.book);
      var r := shared.retry.value;
      if r.next == |r.holdings| { return; }
      var h, internal := r.holdings[r.next], Internal(r.held);
      var stop;
      stop, moves := AskAbout(h, r);
      if stop.Raised? {
        shared.retry := None;
        return;
      }
      var report := stop.value;
      var answers: nat -> OrderReport := (k: nat) => report;
      var found := CheckRow(h, r.seen, internal, answers);
      SameAnswer(h, internal, answers, Answers(broker.told));
      CleanExtends(r.holdings, r.next, internal, Answers(broker.told));
      SeenExtends(r.holdings, r.next);
      shared.retry := Some(r.(next := r.next + 1, seen := r.seen + {h.symbol}, issues := r.issues + found));
    }

    /** The report of the stop of the position `h` matches, if it matches one. */
    method AskAbout(h: Holding, r: Retry) returns (out: Outcome<OrderReport>, ghost moves: seq<Move>)
      requires broker.Latched() && r.Comparing?
      modifies broker`tick, broker`book, broker`told
      ensures broker.Latched() && Later(old(broker.book), broker.book)
      ensures broker.book == ApplyAll(old(broker.book), moves)
      ensures Fit(W()) && old(Current(r)) && h.symbol !in r.seen ==> Current(r)
      ensures out.Done? && !AsksAbout(h, Internal(r.held)) ==> broker.told == old(broker.told)
      ensures out.Done? && AsksAbout(h, Internal(r.held)) ==>
        broker.told == old(broker.told)[Internal(r.held)[h.symbol].stopOrderId.value := out.value]
    {
      hide Later, Bare, Fit, AnyUnresolved, CleanSoFar, HoldingSymbols, OpenSymbols;
      moves := [];
      LaterRefl(broker.book);
      var internal := Internal(r.held);
      if !AsksAbout(h, internal) { return Done(UNKNOWN_REPORT), moves; }
      ghost var told := broker.told;
      var k := internal[h.symbol].stopOrderId.value;
      moves := broker.script(broker.tick).moves;
      out := broker.FetchStatus(k);
      if Fit(W()) && r.issues == 0 && h.symbol !in r.seen && old(Current(r)) {
        OthersStillMatch(W(), told, h, internal, r.holdings[..r.next], k);
      }
    }

    /** Asking about a stop of `h` leaves the rows of other symbols matched. */
    lemma OthersStillMatch(w: World, told: map<nat, OrderReport>, h: Holding, internal: map<string, Tracked>,
                           hs: seq<Holding>, k: nat)
      requires Fit(w) && h.symbol in internal && internal[h.symbol].stopOrderId == Some(k)
      requires internal == Met(w.ledger, internal.Keys)
      requires forall j :: j != k && j in told ==> j in w.told && w.told[j] == told[j]
      requires forall j :: j != k && j in w.told ==> j in told
      requires h.symbol !in HoldingSymbols(hs) && CleanSoFar(hs, internal, Answers(told))
      ensures CleanSoFar(hs, internal, Answers(w.told))
    {
      hide StopProblem;
      forall i | 0 <= i < |hs|
        ensures HoldingMatches(hs[i], internal, Answers(w.told))
      {
        assert HoldingMatches(hs[i], internal, Answers(told));
        var j := internal[hs[i].symbol].stopOrderId.value;
        assert hs[i].symbol in HoldingSymbols(hs);
        LastFits(w.ledger[hs[i].symbol], hs[i].symbol, w.book);
        LastFits(w.ledger[h.symbol], h.symbol, w.book);
        assert SellOrder(w.book, hs[i].symbol, j) && SellOrder(w.book, h.symbol, k);
      }
    }

    /** Only the report of a row's own stop decides about it. */
    lemma SameAnswer(h: Holding, internal: map<string, Tracked>, a: nat -> OrderReport, b: nat -> OrderReport)
      requires AsksAbout(h, internal) ==>
        a(internal[h.symbol].stopOrderId.value) == b(internal[h.symbol].stopOrderId.value)
      ensures HoldingMatches(h, internal, a) <==> HoldingMatches(h, internal, b)
    {
      hide StopProblem;
    }

    /** After the last row, in the same turn, the verdict: with no issue the flag goes down, whatever
        happened since the reads. */
    method EndOfRows()
      requires shared.retry.Some? && shared.retry.value.Comparing?
      modifies shared`retry, shared`degraded, shared`verdicts, shared`disturbed
      ensures shared.retry == old(shared.retry) ==>
        shared.degraded == old(shared.degraded) && shared.verdicts == old(shared.verdicts)
      ensures shared.retry == old(shared.retry) || shared.retry.None?
      ensures shared.retry.None? && !shared.degraded ==> shared.verdicts == old(shared.verdicts) + 1
      ensures shared.degraded ==> shared.verdicts == old(shared.verdicts)
      ensures shared.disturbed - old(shared.disturbed)
           == if shared.undisturbed && !shared.busy then 0 else shared.verdicts - old(shared.verdicts)
      ensures old(Current(shared.retry.value)) && shared.retry.None? && !shared.degraded ==>
        !AnyUnresolved(trades.rows) && forall s :: s in ledger ==> Doubled(ledger, s) || ProtectedAt(W(), s)
    {
      hide ProtectedAt, AnyUnresolved, Current;
      var r := shared.retry.value;
      if r.next < |r.holdings| { return; }
      shared.retry := None;
      if r.issues + |r.met - r.seen| != 0 {
        shared.degraded := true;
        return;
      }
      NoneAbsent(r.met, r.seen);
      if Current(r) { RetryConfirms(r); }
      shared.degraded := false;
      shared.verdicts := shared.verdicts + 1;
      if shared.busy || !shared.undisturbed { shared.disturbed := shared.disturbed + 1; }
    }

    /** What a retry that ran undisturbed and raised no issue has established. */
    lemma RetryConfirms(r: Retry)
      requires Current(r) && r.Comparing? && r.next == |r.holdings| && r.issues == 0 && r.met <= r.seen
      ensures !AnyUnresolved(trades.rows) && forall s :: s in ledger ==> Doubled(ledger, s) || ProtectedAt(W(), s)
    {
      hide ProtectedAt, AnyUnresolved, CleanSoFar, HoldingSymbols, Last;
      assert r.holdings[..r.next] == r.holdings;
      CleanIsProtected(W(), r.holdings, Internal(r.held), Answers(broker.told));
    }

    lemma SameReports(w: World, w': World)
      requires w'.told == w.told && w'.ledger == w.ledger
      ensures forall s :: ProtectedAt(w', s) == ProtectedAt(w, s)
    {
      hide Confirmed;
    }

    // ---- awaits ----

    // Each of these lets other tasks have their turns and then makes the call.

    lemma TurnsThen(w0: World, w: World, w': World)
      requires OthersTurns(w0, w) && w' == w.(book := w'.book)
      ensures OthersTurns(w0, w')
    {
    }

    method Pass() returns (t: Turn)
      requires broker.Latched()
      modifies shared, broker`tick, broker`book, broker`told
      ensures shared.marks == old(shared.marks)
      ensures broker.Latched() && Later(old(broker.book), broker.book)
      ensures OthersTurns(old(W()), W()) && FlagKept()
    {
      hide Later, Bare, OthersTurns, ApplyAll, OpenSymbols;
      ghost var _ := Others();
      ghost var w := W();
      t := broker.Pass();
      TurnsThen(old(W()), w, W());
      LaterTrans(old(broker.book), w.book, broker.book);
    }

    method Await() returns (out: Outcome<Turn>)
      requires broker.Latched()
      modifies shared, broker`tick, broker`book, broker`told
      ensures shared.marks == old(shared.marks)
      ensures broker.Latched() && Later(old(broker.book), broker.book)
      ensures OthersTurns(old(W()), W()) && FlagKept()
    {
      hide Later, Bare, OthersTurns, OpenSymbols;
      var t := Pass();
      return if t.failure.Some? then Raised(t.failure.value) else Done(t);
    }

    method Cancel(id: nat) returns (out: Outcome<()>)
      requires broker.Latched()
      modifies shared, broker`tick, broker`book, broker`told
      ensures broker.Latched() && Later(old(broker.book), broker.book)
      ensures OthersTurns(old(W()), W()) && FlagKept()
    {
      hide Later, Bare, OthersTurns, ApplyAll, OpenSymbols;
      ghost var _ := Others();
      ghost var w := W();
      out := broker.Cancel(id);
      TurnsThen(old(W()), w, W());
      LaterTrans(old(broker.book), w.book, broker.book);
    }

    /** The answer is the last report about the order when the call comes back. */
    method FetchStatus(id: nat) returns (out: Outcome<OrderReport>)
      requires broker.Latched()
      modifies shared, broker`tick, broker`book, broker`told
      ensures broker.Latched() && Later(old(broker.book), broker.book)
      ensures FlagKept() && (shared.saved == old(shared.saved) || shared.saved == Synced(old(shared.saved), ledger))
      ensures out.Done? ==> id in broker.told && broker.told[id] == out.value
      ensures shared.alarm || broker.told == if out.Done? then old(broker.told)[id := out.value] else old(broker.told)
      ensures out.Done? && id < |broker.book.orders| ==> Reliable(broker.book.orders[id], out.value)
      ensures old(AllClear()) && shared.alerts == old(shared.alerts) ==> AllClear() && shared.alarm == old(shared.alarm)
    {
      hide Later, Bare, ApplyAll, Reliable, Synced, OpenSymbols;
      ghost var _ := Others();
      ghost var b := broker.book;
      out := broker.FetchStatus(id);
      LaterTrans(old(broker.book), b, broker.book);
    }

    method FetchPositions() returns (out: Outcome<seq<Holding>>)
      requires broker.Latched()
      modifies shared, broker`tick, broker`book, broker`told
      ensures shared.marks == old(shared.marks)
      ensures broker.Latched() && Later(old(broker.book), broker.book)
      ensures OthersTurns(old(W()), W()) && FlagKept()
      ensures out.Done? ==> Accurate(broker.book, out.value)
    {
      hide Later, Bare, OthersTurns, ApplyAll, Accurate, OpenSymbols;
      ghost var _ := Others();
      ghost var w := W();
      out := broker.FetchPositions();
      TurnsThen(old(W()), w, W());
      LaterTrans(old(broker.book), w.book, broker.book);
    }

    method ReconcileOrder(id: nat, qty: nat) returns (out: Outcome<Settlement>)
      requires broker.Latched() && id < |broker.book.orders| && broker.book.orders[id].qty == qty
      modifies shared, broker`tick, broker`book, broker`told
      ensures broker.Latched() && Later(old(broker.book), broker.book)
      ensures OthersTurns(old(W()), W()) && FlagKept()
      ensures out.Done? ==> Settles(broker.book.orders[id], out.value)
    {
      hide Reach, Spare, Offered, Bare, OthersTurns, ApplyAll, Settles, OpenSymbols;
      ghost var _ := Others();
      ghost var w := W();
      assert OrderLater(old(broker.book).orders[id], broker.book.orders[id]);
      out := broker.ReconcileOrder(id, qty);
      TurnsThen(old(W()), w, W());
      LaterTrans(old(broker.book), w.book, broker.book);
    }

    /** A submission, on the book `mid` that the moves before it lead to. */
    method Submit(s: string, side: Side, qty: int)
      returns (out: Outcome<Ack>, ghost sent: bool, ghost mid: Book, ghost moves: seq<Move>)
      requires broker.Latched()
      modifies shared, broker`tick, broker`book, broker`told, broker`uncovered
      ensures broker.Latched() && OthersTurns(old(W()), W()) && FlagKept()
      ensures mid == ApplyAll(old(broker.book), moves) && Later(old(broker.book), mid)
        && Bare(mid) <= old(broker.uncovered)
      ensures sent ==> 0 < qty && Later(Submitted(mid, s, side, qty), broker.book)
      ensures !sent ==> broker.book == mid
      ensures out.Done? && out.value.Accepted? ==> sent && out.value.id == |mid.orders|
      ensures out.Done? && (out.value.InvalidQuantity? || out.value.NotConnected?) ==> !sent
      ensures out.Done? && out.value.InvalidQuantity? ==> qty <= 0
      ensures broker.uncovered == old(broker.uncovered) + (if sent then Bare(Submitted(mid, s, side, qty)) else iset{})
    {
      hide Later, Bare, ApplyAll, Synced, OpenSymbols;
      moves := Others();
      ghost var b, turn := broker.book, broker.script(broker.tick).moves;
      out, sent, mid := broker.PlaceOrder(s, side, qty);
      LaterTrans(old(broker.book), b, mid);
      ApplyAllConcat(old(broker.book), moves, turn);
      moves := moves + turn;
    }

    // ---- small steps ----

    /** A row update: the market moves, then the write commits or not, then the call may raise. */
    method SetStatus(id: RowId, status: RowStatus) returns (out: Outcome<()>)
      requires broker.Latched()
      modifies shared, broker`tick, broker`book, broker`told, trades`rows
      ensures broker.Latched() && Later(old(broker.book), broker.book)
      ensures OthersTurns(old(W()), W()) && FlagKept()
      ensures trades.rows == old(trades.rows) || trades.rows == Updated(old(trades.rows), id, status)
      ensures out.Done? ==> trades.rows == Updated(old(trades.rows), id, status)
    {
      hide Later, Bare, Synced, OpenSymbols;
      var t := Pass();
      if t.failure.None? || t.effective { trades.UpdateStatus(id, status); }
      return if t.failure.Some? then Raised(t.failure.value) else Done(());
    }

    method CreateRow(id: RowId, symbol: string, side: Side) returns (out: Outcome<()>)
      requires broker.Latched()
      modifies shared, broker`tick, broker`book, broker`told, trades
      ensures broker.Latched() && Later(old(broker.book), broker.book)
      ensures OthersTurns(old(W()), W()) && FlagKept()
      ensures trades.rows == old(trades.rows)
        || trades.rows == Created(old(trades.rows), id, symbol, side, old(trades.clock))
      ensures out.Done? ==> trades.rows == Created(old(trades.rows), id, symbol, side, old(trades.clock))
    {
      hide Later, Bare, Synced, OpenSymbols;
      var t := Pass();
      if t.failure.None? || t.effective { trades.CreatePending(id, symbol, side); }
      return if t.failure.Some? then Raised(t.failure.value) else Done(());
    }

    /** `persist`. */
    method Persist() returns (out: Outcome<bool>)
      requires broker.Latched()
      modifies shared, broker`tick, broker`book, broker`told
      ensures broker.Latched() && Later(old(broker.book), broker.book)
      ensures OthersTurns(old(W()), W()) && FlagKept() && out != Raised(Fault)
      ensures out == Done(true) ==>
        shared.saved == Synced(old(shared.saved), ledger) && shared.savedHalt == shared.halted
    {
      hide Later, Bare, Synced, OpenSymbols;
      ghost var _ := Others();
      ghost var b := broker.book;
      SyncedTwice(old(shared.saved), ledger);
      out := Store();
      LaterTrans(old(broker.book), b, broker.book);
    }

    /** Set the degraded flag, halt trading, mark the row unknown; any of the awaits may raise, but the
        flag is up before the first of them. */
    method MarkUnknown(id: RowId) returns (out: Outcome<()>)
      requires broker.Latched()
      modifies shared, broker`tick, broker`book, broker`told, trades`rows
      ensures broker.Latched() && Later(old(broker.book), broker.book)
      ensures shared.alarm
      ensures OthersTurns(old(W()), W()) && FlagKept()
      ensures trades.rows == old(trades.rows) || trades.rows == Updated(old(trades.rows), id, Unclear)
      ensures out.Done? ==> old(shared.marks) < shared.marks && trades.rows == Updated(old(trades.rows), id, Unclear)
    {
      hide Later, Bare, Synced, OpenSymbols;
      SyncedTwice(old(shared.saved), ledger);
      shared.degraded, shared.alarm := true, true;
      var _ :- Await();
      shared.halted, shared.marks := true, shared.marks + 1;
      ghost var b1 := broker.book;
      var persisted := Persist();
      LaterTrans(old(broker.book), b1, broker.book);
      if persisted.Raised? { return Raised(persisted.failure); }
      ghost var b2 := broker.book;
      out := SetStatus(id, Unclear);
      LaterTrans(old(broker.book), b2, broker.book);
    }

    /** An await, with the market's moves counted from an earlier book. */
    method Chained(ghost start: Book) returns (out: Outcome<Turn>)
      requires broker.Latched() && Later(start, broker.book)
      modifies shared, broker`tick, broker`book, broker`told
      ensures broker.Latched() && Later(start, broker.book) && Later(old(broker.book), broker.book)
      ensures OthersTurns(old(W()), W()) && FlagKept()
    {
      hide Later, Bare, OthersTurns, OpenSymbols;
      out := Await();
      LaterTrans(start, old(broker.book), broker.book);
    }

    /** The live branch of `_place_with_retry`: one submission, never retried; whatever is not plainly
        accepted or refused is unknown. */
    method PlaceOnce(row: RowId, s: string, side: Side, qty: nat)
      returns (out: Outcome<Placed>, ghost sent: bool, ghost mid: Book, ghost moves: seq<Move>)
      requires broker.Latched()
      modifies shared, broker`tick, broker`book, broker`uncovered, broker`told, trades`rows
      ensures mid == ApplyAll(old(broker.book), moves)
      ensures Later(old(broker.book), mid) && Bare(mid) <= old(broker.uncovered)
      ensures Later(if sent then Submitted(mid, s, side, qty) else mid, broker.book)
      ensures broker.uncovered == old(broker.uncovered) + (if sent then Bare(Submitted(mid, s, side, qty)) else iset{})
      ensures broker.Latched()
      ensures out.Done? && out.value.id.Some? ==> sent && out.value.id.value == |mid.orders|
      ensures out.Done? && !out.value.unknown ==>
        (if out.value.id.Some? then out.value.status == SUBMITTED else !sent && out.value.status == REJECTED)
      ensures out.Done? && out.value.unknown ==>
        && out.value.id.None? && out.value.status == SUBMITTED && shared.alarm
        && trades.rows == Updated(old(trades.rows), row, Unclear)
      ensures out.Done? && out.value.status == REJECTED ==> qty == 0
      ensures out.Raised? ==> shared.alarm || trades.rows == old(trades.rows)
      ensures OthersTurns(old(W()), W()) && FlagKept()
      ensures trades.rows == old(trades.rows) || trades.rows == Updated(old(trades.rows), row, Unclear)
    {
      hide Later, Bare, Reach, Synced, ApplyAll, Submitted, OpenSymbols;
      var ack;
      ack, sent, mid, moves := Submit(s, side, qty);
      SyncedTwice(old(shared.saved), ledger);
      ghost var taken := if sent then Submitted(mid, s, side, qty) else mid;
      LaterRefl(mid);
      if ack.Done? && ack.value.Accepted? {
        return Done(Placed(SUBMITTED, Some(ack.value.id), false)), sent, mid, moves;
      }
      if ack.Done? && ack.value.InvalidQuantity? { return Done(Placed(REJECTED, None, false)), sent, mid, moves; }
      if ack == Raised(Killed) { return Raised(Killed), sent, mid, moves; }
      ghost var b1 := broker.book;
      var marked := MarkUnknown(row);
      LaterTrans(taken, b1, broker.book);
      if marked.Raised? && (ack.Raised? || marked.failure.Killed?) { return Raised(marked.failure), sent, mid, moves; }
      if marked.Raised? {
        // Raised inside the try block: its handler marks the order unknown once more.
        ghost var b2 := broker.book;
        marked := MarkUnknown(row);
        LaterTrans(taken, b2, broker.book);
        UpdatedTwice(old(trades.rows), row);
        if marked.Raised? { return Raised(marked.failure), sent, mid, moves; }
      }
      return Done(Placed(SUBMITTED, None, true)), sent, mid, moves;
    }

    /** Write an order result to its row; the dead-letter queue and the event record are awaits. */
    method RecordResult(id: RowId, status: OrderStatus, stop: bool, unknown: bool) returns (out: Outcome<()>)
      requires broker.Latched()
      modifies shared, broker`tick, broker`book, broker`told, trades`rows
      ensures broker.Latched() && Later(old(broker.book), broker.book)
      ensures OthersTurns(old(W()), W()) && FlagKept()
      ensures trades.rows == old(trades.rows)
        || trades.rows == Updated(old(trades.rows), id, RowStatusFor(status, stop, unknown))
      ensures out.Done? ==> trades.rows == Updated(old(trades.rows), id, RowStatusFor(status, stop, unknown))
    {
      hide Later, Bare, Synced, OpenSymbols;
      LaterRefl(broker.book);
      SyncedTwice(old(shared.saved), ledger);
      if status == REJECTED || status == FAILED { var _ :- Chained(old(broker.book)); }
      ghost var b1 := broker.book;
      out := SetStatus(id, RowStatusFor(status, stop, unknown));
      LaterTrans(old(broker.book), b1, broker.book);
      if out.Done? { var _ :- Chained(old(broker.book)); }
    }

    /** Attach a protective stop for `qty` shares and have the broker confirm it. `accepted` is the stop
        that went out, on the book `mid`, whether or not the caller gets to hear of it: the reply may be lost
        or late, or a later await may raise. */
    method AttachStop(row: RowId, s: string, qty: nat, stopPrice: real, prod: string, exch: string)
      returns (out: Outcome<Attached>, ghost accepted: Option<nat>, ghost mid: Book)
      requires broker.Latched()
      modifies shared, broker`tick, broker`book, broker`uncovered, broker`told, trades`rows
      ensures Later(old(broker.book), mid) && Bare(mid) <= old(broker.uncovered)
      ensures accepted.None? ==> Later(mid, broker.book)
      ensures accepted.Some? ==> accepted.value == |mid.orders| && Later(Submitted(mid, s, Sell, qty), broker.book)
      ensures broker.uncovered
           == old(broker.uncovered) + (if accepted.Some? then Bare(Submitted(mid, s, Sell, qty)) else iset{})
      ensures broker.Latched()
      ensures shared.alarm || forall k :: k in old(broker.told) && Some(k) != accepted ==>
        k in broker.told && broker.told[k] == old(broker.told)[k]
      ensures out.Done? && out.value.stop.Some? ==> out.value.stop == accepted
      ensures out.Done? && out.value.stop.None? ==> out.value.unknown
      ensures out.Done? && out.value.unknown ==> shared.alarm && trades.rows == Updated(old(trades.rows), row, Unclear)
      ensures out.Done? && !out.value.unknown ==>
        accepted.Some? && accepted.value in broker.told && Confirmed(broker.told[accepted.value], s, qty)
      ensures FlagKept()
      ensures shared.saved == old(shared.saved) || shared.saved == Synced(old(shared.saved), ledger)
      ensures trades.rows == old(trades.rows) || trades.rows == Updated(old(trades.rows), row, Unclear)
    {
      hide Later, Bare, Reach, StopProblem, Confirmed, Synced, OpenSymbols;
      accepted, mid := None, broker.book;
      LaterRefl(broker.book);
      SyncedTwice(old(shared.saved), ledger);
      var stop: Option<nat> := None;
      if 0.0 < stopPrice {
        var ack; ghost var sent, moves;
        ack, sent, mid, moves := Submit(s, Sell, qty);
        LaterRefl(mid);
        if sent { accepted := Some(|mid.orders|); }
        if ack.Raised? && !ack.failure.Fault? { return Raised(ack.failure), accepted, mid; }
        if ack.Done? && ack.value.Accepted? { stop := Some(ack.value.id); }
      }
      ghost var taken := if accepted.Some? then Submitted(mid, s, Sell, qty) else mid;
      var confirmed := false;
      if stop.Some? {
        ghost var b1 := broker.book;
        var asked := ConfirmStop(stop.value, s, qty, prod, exch);
        LaterTrans(taken, b1, broker.book);
        if asked.Raised? { return Raised(asked.failure), accepted, mid; }
        confirmed := asked.value;
      }
      if !confirmed {
        ghost var b2 := broker.book;
        var marked := MarkUnknown(row);
        LaterTrans(taken, b2, broker.book);
        if marked.Raised? { return Raised(marked.failure), accepted, mid; }
      }
      return Done(Attached(stop, !confirmed)), accepted, mid;
    }

    /** Have the broker confirm the stop. */
    method ConfirmStop(stop: nat, s: string, qty: nat, prod: string, exch: string) returns (out: Outcome<bool>)
      requires broker.Latched()
      modifies shared, broker`tick, broker`book, broker`told
      ensures broker.Latched() && Later(old(broker.book), broker.book) && FlagKept()
      ensures shared.saved == old(shared.saved) || shared.saved == Synced(old(shared.saved), ledger)
      ensures shared.alarm || forall k :: k in old(broker.told) && k != stop ==>
        k in broker.told && broker.told[k] == old(broker.told)[k]
      ensures out == Done(true) ==> stop in broker.told && Confirmed(broker.told[stop], s, qty)
    {
      hide Later, Bare, StopProblem, Confirmed, Synced, OpenSymbols;
      var report := FetchStatus(stop);
      if report.Raised? { return Raised(report.failure); }
      var passes := StopProblem(report.value, s, qty as real, prod, exch) == NoProblem;
      if passes { PassingIsConfirmed(report.value, s, qty, prod, exch); }
      return Done(passes);
    }

    // ---- exits ----

    /** Between two awaits of an exit of `s` whose row is `ExitRow(n)`. */
    ghost predicate Exiting(s: string, n: nat)
      reads this, broker, trades, shared
    {
      s in ledger && MidExit(W(), s, n) && SafeElsewhere(W(), s) && broker.Latched()
    }

    /** Cancel the tracked stop and have its end confirmed. `None` means go on: no stop is left, and it
        sold nothing. Otherwise the exit is over: the stop may still work, or it sold. */
    method ReleaseStop(s: string, n: nat, ghost quiet: bool) returns (out: Outcome<Option<OrderResult>>)
      requires Exiting(s, n) && ledger[s].stop.Some? && Clear(W(), s) && Known(W(), s, quiet)
      modifies this`ledger
      modifies shared, broker`tick, broker`book, broker`told, trades`rows
      ensures Exiting(s, n) && Known(W(), s, quiet)
      ensures ledger == old(ledger) || ledger == old(ledger)[s := old(ledger)[s].(stop := None)]
      ensures Onward(old(broker.book), broker.book, s)
      ensures FlagKept()
      ensures out == Done(None) ==> ledger[s].stop.None? && Clear(W(), s)
      ensures out == Done(None) ==>
        var k := old(ledger)[s].stop.value; k < |broker.book.orders| && Final(broker.book.orders[k], 0)
      ensures out.Done? && out.value.Some? ==>
        shared.alarm && SoldBy(broker.book, s, out.value.value, old(ledger)[s].qty)
      ensures out.Done? && out.value.Some? ==> out.value.value.filled <= old(ledger)[s].qty
      ensures out.Done? && out.value.Some? ==>
        out.value.value.status == PARTIAL || (out.value.value.status == REJECTED && out.value.value.filled == 0)
    {
      hide Onward, MidExit, SafeElsewhere, Clear, Later, Bare, HasOrphan, OrphanWorks, Synced, OpenSymbols;
      var k, held := ledger[s].stop.value, ledger[s].qty;
      ghost var start, w := broker.book, W();
      var report := CancelStop(s, n, k, quiet);
      if report.Raised? { return Raised(report.failure); }
      if !Terminal(report.value.status) {
        w := W();
        var marked := MarkUnknown(ExitRow(n));
        ExitAwaits(start, w, W(), s, n);
        return if marked.Raised? then Raised(marked.failure) else Done(Some(NOT_DONE));
      }
      var sold: nat := OrZero(report.value.filled);
      w := W();
      ledger := ledger[s := ledger[s].(stop := None)];
      LaterRefl(broker.book);
      ExitAwaits(start, w, W(), s, n);
      if 0 < sold {
        out := BookStop(start, s, n, k, sold, held, report.value.averagePrice, quiet);
        return;
      }
      StopReleased(w, W(), s);
      return Done(None);
    }

    /** Cancel the tracked stop `k` and ask about it. */
    method CancelStop(s: string, n: nat, k: nat, ghost quiet: bool) returns (out: Outcome<OrderReport>)
      requires Exiting(s, n) && ledger[s].stop == Some(k) && Clear(W(), s) && Known(W(), s, quiet)
      modifies shared, broker`tick, broker`book, broker`told
      ensures Exiting(s, n) && Clear(W(), s) && Known(W(), s, quiet)
      ensures Onward(old(broker.book), broker.book, s) && SellOrder(broker.book, s, k)
      ensures FlagKept()
      ensures out.Done? ==> Reliable(broker.book.orders[k], out.value)
    {
      hide Onward, MidExit, SafeElsewhere, Clear, Later, Bare, HasOrphan, OrphanWorks, Synced, Reliable, OpenSymbols;
      ghost var start := broker.book;
      OnwardRefl(start, s);
      ghost var w := W();
      TrackedStopSells(w, s, n);
      var cancelled := Cancel(k);
      ExitAwaits(start, w, W(), s, n);
      SellOrderStays(w.book, broker.book, s, k);
      if cancelled.Raised? { return Raised(cancelled.failure); }
      w := W();
      out := FetchStatus(k);
      SellOrderStays(w.book, broker.book, s, k);
      ExitAwaits(start, w, W(), s, n);
    }

    /** The stop sold while it was being cancelled: its fill, capped by the position, is the exit's. */
    method BookStop(ghost start: Book, s: string, n: nat, k: nat, sold: nat, held: nat, price: real, ghost quiet: bool)
      returns (out: Outcome<Option<OrderResult>>)
      requires Exiting(s, n) && Known(W(), s, quiet) && Onward(start, broker.book, s)
      requires 0 < sold && 0.0 < price && SellOrder(broker.book, s, k) && Final(broker.book.orders[k], sold)
      modifies shared, broker`tick, broker`book, broker`told, trades`rows
      ensures Exiting(s, n) && Known(W(), s, quiet) && Onward(start, broker.book, s)
      ensures FlagKept()
      ensures out.Done? ==> shared.alarm && out.value.Some? && out.value.value.status == PARTIAL
      ensures out.Done? ==> SoldBy(broker.book, s, out.value.value, held) && out.value.value.filled <= held
    {
      hide Onward, MidExit, SafeElsewhere, Clear, Later, Bare, HasOrphan, OrphanWorks, Synced, OpenSymbols;
      ghost var w := W();
      var persisted := Persist();
      ExitAwaits(start, w, W(), s, n);
      SellOrderStays(w.book, broker.book, s, k);
      FinalStays(w.book, broker.book, k, sold);
      if persisted.Raised? { return Raised(persisted.failure); }
      w := W();
      var marked := MarkUnknown(ExitRow(n));
      ExitAwaits(start, w, W(), s, n);
      SellOrderStays(w.book, broker.book, s, k);
      FinalStays(w.book, broker.book, k, sold);
      if marked.Raised? { return Raised(marked.failure); }
      var booked := if sold < held then sold else held;
      return Done(Some(OrderResult(PARTIAL, Some(k), booked, price, None, false)));
    }

    /** The broker must hold exactly the ledger position, in one long row. */
    method CheckHolding(s: string, n: nat, ghost quiet: bool) returns (out: Outcome<Option<Holding>>)
      requires Exiting(s, n) && ledger[s].stop.None? && Clear(W(), s) && Known(W(), s, quiet)
      modifies shared, broker`tick, broker`book, broker`told, trades`rows
      ensures Exiting(s, n) && Known(W(), s, quiet)
      ensures Onward(old(broker.book), broker.book, s)
      ensures FlagKept()
      ensures out == Done(None) ==> shared.alarm
      ensures out.Done? && out.value.Some? ==>
        Net(broker.book, s) == ledger[s].qty && Free(W(), s, ledger[s].qty, quiet)
    {
      hide Onward, MidExit, SafeElsewhere, Clear, Later, Bare, Free, Accurate, HasOrphan, OrphanWorks, Synced,
        OpenSymbols;
      ghost var start := broker.book;
      OnwardRefl(start, s);
      ghost var w := W();
      var positions := FetchPositions();
      ExitAwaits(start, w, W(), s, n);
      if positions.Raised? { return Raised(positions.failure); }
      var matching := RowsOf(positions.value, s);
      if |matching| != 1 || !matching[0].long || TOLERANCE < Abs(matching[0].qty as real - ledger[s].qty as real) {
        w := W();
        var marked := MarkUnknown(ExitRow(n));
        ExitAwaits(start, w, W(), s, n);
        return if marked.Raised? then Raised(marked.failure) else Done(None);
      }
      WholeShares(matching[0].qty, ledger[s].qty);
      OnlyRowIsNet(broker.book, positions.value, s);
      ClearIsFree(W(), s, quiet);
      return Done(Some(matching[0]));
    }

    /** Follow a sale to its end: poll, and when that does not settle it, cancel and ask once more.
        `SUBMITTED` means its end is unknown; any other status is final. */
    method SettleSale(s: string, n: nat, x: nat, qty: nat, ghost quiet: bool) returns (out: Outcome<Settlement>)
      requires Exiting(s, n) && SellOrder(broker.book, s, x) && broker.book.orders[x].qty == qty
      requires Flight(W(), s, x, ledger[s].qty, quiet) && (quiet || HasOrphan(W(), s))
      modifies shared, broker`tick, broker`book, broker`told, trades`rows
      ensures Exiting(s, n) && Onward(old(broker.book), broker.book, s)
      ensures FlagKept()
      ensures SellOrder(broker.book, s, x) && broker.book.orders[x].qty == qty
      ensures Flight(W(), s, x, ledger[s].qty, quiet) && (quiet || HasOrphan(W(), s))
      ensures out.Done? && out.value.status == SUBMITTED ==> shared.alarm && out.value.unknown && out.value.filled == 0
      ensures out.Done? && out.value.status != SUBMITTED ==> Final(broker.book.orders[x], out.value.filled)
      ensures out.Done? && 0 < out.value.filled ==> 0.0 < out.value.average
      ensures out.Done? ==> out.value.status == FILLED || out.value.status == PARTIAL || out.value.filled == 0
    {
      hide Onward, MidExit, SafeElsewhere, Later, Bare, Flight, HasOrphan, OpenSymbols;
      ghost var start := broker.book;
      OnwardRefl(start, s);
      ghost var w := W();
      out := ReconcileOrder(x, qty);
      SaleAwaits(start, w, W(), s, n, x, qty, ledger[s].qty, quiet);
      if out.Raised? || out.value.status == FILLED || out.value.status == REJECTED { return; }
      ghost var b := broker.book;
      out := CancelSale(s, n, x, qty, out.value.unknown, quiet);
      OnwardTrans(start, b, broker.book, s);
    }

    /** A sale polling did not settle: cancel it and ask once more. */
    method CancelSale(s: string, n: nat, x: nat, qty: nat, unknown: bool, ghost quiet: bool)
      returns (out: Outcome<Settlement>)
      requires Exiting(s, n) && SellOrder(broker.book, s, x) && broker.book.orders[x].qty == qty
      requires Flight(W(), s, x, ledger[s].qty, quiet) && (quiet || HasOrphan(W(), s))
      modifies shared, broker`tick, broker`book, broker`told, trades`rows
      ensures Exiting(s, n) && Onward(old(broker.book), broker.book, s)
      ensures FlagKept()
      ensures SellOrder(broker.book, s, x) && broker.book.orders[x].qty == qty
      ensures Flight(W(), s, x, ledger[s].qty, quiet) && (quiet || HasOrphan(W(), s))
      ensures out.Done? && out.value.status == SUBMITTED ==> shared.alarm && out.value.unknown && out.value.filled == 0
      ensures out.Done? && out.value.status != SUBMITTED ==> Final(broker.book.orders[x], out.value.filled)
      ensures out.Done? && 0 < out.value.filled ==> 0.0 < out.value.average
      ensures out.Done? ==> out.value.status == FILLED || out.value.status == PARTIAL || out.value.filled == 0
    {
      hide Onward, MidExit, SafeElsewhere, Later, Bare, Flight, HasOrphan, Synced, OpenSymbols;
      ghost var start, w := broker.book, W();
      var report := AskSale(s, n, x, qty, quiet);
      if report.Raised? { return Raised(report.failure); }
      if !Terminal(report.value.status) {
        w := W();
        var marked := MarkUnknown(ExitRow(n));
        SaleAwaits(start, w, W(), s, n, x, qty, ledger[s].qty, quiet);
        return if marked.Raised? then Raised(marked.failure) else Done(Settlement(SUBMITTED, 0, 0.0, true));
      }
      var filled: nat := OrZero(report.value.filled);
      return Done(Settlement(if 0 < filled then PARTIAL else REJECTED, filled, report.value.averagePrice, unknown));
    }

    method AskSale(s: string, n: nat, x: nat, qty: nat, ghost quiet: bool) returns (out: Outcome<OrderReport>)
      requires Exiting(s, n) && SellOrder(broker.book, s, x) && broker.book.orders[x].qty == qty
      requires Flight(W(), s, x, ledger[s].qty, quiet) && (quiet || HasOrphan(W(), s))
      modifies shared, broker`tick, broker`book, broker`told
      ensures Exiting(s, n) && Onward(old(broker.book), broker.book, s)
      ensures FlagKept()
      ensures SellOrder(broker.book, s, x) && broker.book.orders[x].qty == qty
      ensures Flight(W(), s, x, ledger[s].qty, quiet) && (quiet || HasOrphan(W(), s))
      ensures out.Done? ==> Reliable(broker.book.orders[x], out.value)
    {
      hide Onward, MidExit, SafeElsewhere, Later, Bare, Flight, HasOrphan, Synced, Reliable, OpenSymbols;
      ghost var start := broker.book;
      OnwardRefl(start, s);
      ghost var w := W();
      var cancelled := Cancel(x);
      SaleAwaits(start, w, W(), s, n, x, qty, ledger[s].qty, quiet);
      if cancelled.Raised? { return Raised(cancelled.failure); }
      w := W();
      out := FetchStatus(x);
      SellOrderStays(w.book, broker.book, s, x);
      SaleAwaits(start, w, W(), s, n, x, qty, ledger[s].qty, quiet);
    }

    ghost predicate Ready()
      reads this, broker, trades, shared
    {
      ReadyWith(W())
    }

    /** An exit of `s` that raised: all but the protection of `s`. */
    ghost predicate Aborted(s: string)
      reads this, broker, trades, shared
    {
      Consistent(W()) && ProtectedElsewhere(W(), s)
    }

    /** An exit whose row is still unresolved leaves everything safe, whatever of it is booked. */
    lemma Withheld(s: string, n: nat, f: nat)
      requires Exiting(s, n) && f <= ledger[s].qty
      ensures Aborted(s)
      ensures shared.alarm ==> ReadyWith(Booked(W(), s, f))
    {
      hide Fit, OneUnresolved, ProtectedElsewhere, SafeElsewhere, Safe, Bare, Booked, OpenSymbols;
      BookedElsewhere(W(), s, f);
      BlockedIsSafe(W(), s, n, f);
      DegradedIsProtected(Booked(W(), s, f));
    }

    /** Close the exit's row; protect what the sale of `f` shares left over. Any stop that goes out on the
        way is stored, or it is an orphan. */
    method CloseAndProtect(s: string, n: nat, f: nat, prod: string, exch: string, ghost quiet: bool)
      returns (out: Outcome<()>)
      requires Exiting(s, n) && f <= ledger[s].qty && ledger[s].stop.None?
      requires Free(W(), s, ledger[s].qty - f, quiet) && (quiet || HasOrphan(W(), s))
      modifies this`ledger, this`orphans
      modifies shared, broker`tick, broker`book, broker`uncovered, broker`told, trades`rows
      ensures SameBut(old(ledger), ledger, s) && Onward(old(broker.book), broker.book, s)
      ensures FlagKept()
      ensures old(broker.uncovered) <= broker.uncovered <= old(broker.uncovered) + iset{s}
      ensures quiet ==> broker.uncovered == old(broker.uncovered)
      ensures OrphansOf(old(W()), W(), s)
      ensures forall k :: |old(broker.book).orders| <= k < |broker.book.orders| ==>
        ledger[s].stop == Some(k) || k in orphans
      ensures orphans != old(orphans) ==> ledger[s].stop.None? && (out.Raised? || shared.alarm)
      ensures out.Raised? ==> Aborted(s)
      ensures out.Done? ==> ReadyWith(Booked(W(), s, f))
    {
      hide MidExit, Ended, SafeElsewhere, Later, Bare, Free, Booked, KeptAt, Safe, ProtectedElsewhere, Onward,
        HasOrphan, Consistent, Synced, OpenSymbols;
      var held := ledger[s].qty;
      ghost var w := W();
      var closed := SetStatus(ExitRow(n), Closed);
      ExitCloses(w, W(), s, n);
      MidExitOrphans(w, s, n);
      LaterIsOnward(w.book, broker.book, s);
      LaterGrows(w.book, broker.book);
      FreeStays(w, W(), s, held - f, quiet);
      if !quiet { OrphanStays(w, W(), s); }
      ClosedFree(s, held - f, f, quiet);
      if closed.Raised? { return Raised(closed.failure); }
      if f == held { return Done(()); }
      ghost var b := broker.book;
      out := Protect(s, n, f, prod, exch, quiet);
      OnwardTrans(w.book, b, broker.book, s);
    }

    /** With its row closed, a free symbol is safe, whatever of the exit is booked. */
    lemma ClosedFree(s: string, m: int, f: nat, quiet: bool)
      requires Ended(W(), s) && SafeElsewhere(W(), s) && broker.Latched()
      requires s in ledger && ledger[s].stop.None? && f <= ledger[s].qty && Free(W(), s, m, quiet)
      ensures Aborted(s)
      ensures f == ledger[s].qty ==> ReadyWith(Booked(W(), s, f))
    {
      hide Fit, OneUnresolved, SafeElsewhere, Bare, KeptAt, Safe, ProtectedElsewhere, Free, Booked, OpenSymbols;
      BookedElsewhere(W(), s, f);
      NothingBooked(W(), s);
      FreeIsKept(W(), s, m, f, quiet);
      BookedSafe(W(), s, 0);
      BookedSafe(W(), s, f);
      if f == ledger[s].qty { SoldOut(W(), s); }
    }

    /** The stop for what a sale of `f` shares left over. It is lost when its reply is, or when a later
        await raises before its id is stored. */
    method Protect(s: string, n: nat, f: nat, prod: string, exch: string, ghost quiet: bool) returns (out: Outcome<()>)
      requires Ended(W(), s) && SafeElsewhere(W(), s) && broker.Latched()
      requires s in ledger && f < ledger[s].qty && ledger[s].stop.None?
      requires Free(W(), s, ledger[s].qty - f, quiet) && (quiet || HasOrphan(W(), s))
      modifies this`ledger, this`orphans
      modifies shared, broker`tick, broker`book, broker`uncovered, broker`told, trades`rows
      ensures SameBut(old(ledger), ledger, s) && Onward(old(broker.book), broker.book, s)
      ensures FlagKept()
      ensures old(broker.uncovered) <= broker.uncovered <= old(broker.uncovered) + iset{s}
      ensures quiet ==> broker.uncovered == old(broker.uncovered)
      ensures OrphansOf(old(W()), W(), s)
      ensures forall k :: |old(broker.book).orders| <= k < |broker.book.orders| ==>
        ledger[s].stop == Some(k) || k in orphans
      ensures orphans != old(orphans) ==> ledger[s].stop.None? && (out.Raised? || shared.alarm)
      ensures out.Raised? ==> Aborted(s)
      ensures out.Done? ==> ReadyWith(Booked(W(), s, f))
    {
      hide Consistent, ProtectedElsewhere, ReadyWith, Booked, OrphansOf, Onward, Residual, Ended, SafeElsewhere, Bare,
        Free, HasOrphan, Confirmed, OpenSymbols;
      ghost var w := W();
      var attached; ghost var y;
      attached, y := PlaceResidual(s, n, f, prod, exch, quiet);
      ghost var p := W();
      var lost := attached.Raised? || attached.value.stop.None?;
      if y.Some? && lost { orphans := orphans + {y.value}; }
      if attached.Done? { ledger := ledger[s := ledger[s].(stop := attached.value.stop)]; }
      ResidualDone(w, p, W(), s, n, f, y, quiet);
      return if attached.Raised? then Raised(attached.failure) else Done(());
    }

    /** Ask for it. */
    method PlaceResidual(s: string, n: nat, f: nat, prod: string, exch: string, ghost quiet: bool)
      returns (attached: Outcome<Attached>, ghost y: Option<nat>)
      requires Ended(W(), s) && broker.Latched() && s in ledger && f < ledger[s].qty
      requires Free(W(), s, ledger[s].qty - f, quiet) && (quiet || HasOrphan(W(), s))
      modifies shared, broker`tick, broker`book, broker`uncovered, broker`told, trades`rows
      ensures Residual(old(W()), W(), s, n, ledger[s].qty - f, y, quiet)
      ensures FlagKept()
      ensures quiet ==> broker.uncovered == old(broker.uncovered)
      ensures old(broker.uncovered) <= broker.uncovered <= old(broker.uncovered) + iset{s}
      ensures Onward(old(broker.book), broker.book, s)
      ensures |broker.book.orders| == |old(broker.book).orders| + (if y.Some? then 1 else 0)
      ensures y.Some? ==> y.value == |old(broker.book).orders|
      ensures attached.Done? && attached.value.stop.Some? ==> attached.value.stop == y
      ensures attached.Done? && attached.value.stop.None? ==> attached.value.unknown
      ensures attached.Done? && attached.value.unknown ==> shared.alarm
      ensures attached.Done? && !attached.value.unknown ==>
        y.Some? && y.value in broker.told && Confirmed(broker.told[y.value], s, ledger[s].qty - f)
    {
      hide Ended, Later, Bare, Free, Armed, Onward, HasOrphan, Confirmed, Synced, Submitted, Updated, OpenSymbols;
      ghost var w := W();
      var rest := ledger[s].qty - f;
      ghost var mid;
      attached, y, mid := AttachStop(ResidualRow(n), s, rest, ledger[s].stopLoss, prod, exch);
      ResidualPlaced(w, mid, W(), s, n, rest, y, quiet);
    }

    /** Submit the sale and record what came of it. The sale was decided on the book as it is now and
        reaches the broker on the book `mid`; it uncovers its symbol exactly when it exceeds the cover
        there, and in a quiet exit it never does. */
    method SubmitSale(s: string, n: nat, qty: nat, ghost quiet: bool)
      returns (out: Outcome<Placed>, ghost sent: bool, ghost mid: Book, ghost moves: seq<Move>)
      requires Exiting(s, n) && 0 < qty <= ledger[s].qty
      requires Free(W(), s, ledger[s].qty, quiet) && (quiet || HasOrphan(W(), s))
      modifies shared, broker`tick, broker`book, broker`uncovered, broker`told, trades`rows
      ensures Exiting(s, n) && Onward(old(broker.book), broker.book, s)
      ensures FlagKept()
      ensures mid == ApplyAll(old(broker.book), moves)
      ensures old(broker.uncovered) <= broker.uncovered <= old(broker.uncovered) + iset{s}
      ensures s in broker.uncovered <==> s in old(broker.uncovered) || (sent && Cover(mid, s) < qty)
      ensures quiet ==> broker.uncovered == old(broker.uncovered)
      ensures quiet || HasOrphan(W(), s)
      ensures out.Done? && out.value.id.None? ==> out.value.unknown
      ensures out.Done? && out.value.id.Some? ==> sent && !out.value.unknown && out.value.status == SUBMITTED
      ensures out.Done? && out.value.id.Some? ==>
        && SellOrder(broker.book, s, out.value.id.value) && broker.book.orders[out.value.id.value].qty == qty
        && Flight(W(), s, out.value.id.value, ledger[s].qty, quiet)
    {
      hide MidExit, SafeElsewhere, Later, Bare, Free, Flight, Onward, Reach, HasOrphan, Synced, ApplyAll, Updated,
        Submitted, Cover, SellOrder, OpenSymbols;
      var held := ledger[s].qty;
      ghost var w := W();
      out, sent, mid, moves := PlaceOnce(ExitRow(n), s, Sell, qty);
      SaleSubmitted(w, mid, s, n, qty, held, sent, quiet);
      if out.Raised? { return; }
      ghost var b := broker.book;
      var recorded := RecordSale(s, n, qty, out.value, quiet);
      OnwardTrans(w.book, b, broker.book, s);
      if recorded.Raised? { out := Raised(recorded.failure); }
    }

    method RecordSale(s: string, n: nat, qty: nat, p: Placed, ghost quiet: bool) returns (out: Outcome<()>)
      requires Exiting(s, n) && (quiet || HasOrphan(W(), s))
      requires RowStatusFor(p.status, false, p.unknown) == InSubmission
        || RowStatusFor(p.status, false, p.unknown) == Unclear
      requires p.id.Some? ==> SellOrder(broker.book, s, p.id.value) && broker.book.orders[p.id.value].qty == qty
                              && Flight(W(), s, p.id.value, ledger[s].qty, quiet)
      modifies shared, broker`tick, broker`book, broker`told, trades`rows
      ensures FlagKept()
      ensures Exiting(s, n) && (quiet || HasOrphan(W(), s)) && Onward(old(broker.book), broker.book, s)
      ensures p.id.Some? ==> SellOrder(broker.book, s, p.id.value) && broker.book.orders[p.id.value].qty == qty
                             && Flight(W(), s, p.id.value, ledger[s].qty, quiet)
    {
      hide MidExit, SafeElsewhere, Later, Bare, Flight, Onward, Reach, HasOrphan, Updated, OpenSymbols;
      ghost var w := W();
      OnwardRefl(w.book, s);
      out := RecordResult(ExitRow(n), p.status, false, p.unknown);
      ExitAwaits(w.book, w, W(), s, n);
      if p.id.Some? { SaleAwaits(w.book, w, W(), s, n, p.id.value, qty, ledger[s].qty, quiet); }
    }

    lemma SaleSubmitted(w: World, mid: Book, s: string, n: nat, qty: nat, held: nat, sent: bool, quiet: bool)
      requires MidExit(w, s, n) && SafeElsewhere(w, s) && qty <= held
      requires Free(w, s, held, quiet) && (quiet || HasOrphan(w, s))
      requires Later(w.book, mid) && Bare(mid) <= w.uncovered
      requires Later(if sent then Submitted(mid, s, Sell, qty) else mid, broker.book) && broker.Latched()
      requires broker.uncovered == w.uncovered + (if sent then Bare(Submitted(mid, s, Sell, qty)) else iset{})
      requires trades.rows == w.rows || trades.rows == Updated(w.rows, ExitRow(n), Unclear)
      requires shared.saved == w.saved || shared.saved == Synced(w.saved, w.ledger)
      requires ledger == w.ledger && nextExit == w.nextExit && (w.degraded ==> shared.alarm)
      requires shared.alarm || broker.told == w.told
      requires orphans == w.orphans && exposed == w.exposed && overlaid == w.overlaid
      ensures Exiting(s, n) && Onward(w.book, broker.book, s)
      ensures w.uncovered <= broker.uncovered <= w.uncovered + iset{s}
      ensures s in broker.uncovered <==> s in w.uncovered || (sent && Cover(mid, s) < qty)
      ensures quiet ==> broker.uncovered == w.uncovered
      ensures quiet || HasOrphan(W(), s)
      ensures sent ==> SellOrder(broker.book, s, |mid.orders|) && broker.book.orders[|mid.orders|].qty == qty
      ensures sent ==> Flight(W(), s, |mid.orders|, held, quiet)
    {
      hide SafeElsewhere, Later, Bare, Free, Flight, Onward, Reach, HasOrphan, Synced, Fit, OneUnresolved,
        ProtectedElsewhere, OpenSymbols;
      MidExitOrphans(w, s, n);
      SentIsOnward(w.book, mid, broker.book, s, Sell, qty, sent);
      Bared(w, mid, broker.uncovered, s, qty, sent);
      if sent {
        TakenOff(w, mid, W(), s, qty, held, quiet);
        AcceptedSell(w.book, mid, broker.book, s, qty);
      }
      if !quiet { OrphanStays(w, W(), s) by { OnwardGrows(w.book, broker.book, s); } }
      MidExitStays(w, W(), s, n);
    }

    lemma OnwardGrows(b: Book, b': Book, s: string)
      requires Onward(b, b', s)
      ensures Grown(b, b')
    {
      hide Reach, Offered;
    }

    /** The sale itself, once the stop is off and the broker holds what the ledger says. */
    method SellAndSettle(s: string, n: nat, qty: nat, prod: string, exch: string, ghost quiet: bool)
      returns (out: Outcome<OrderResult>)
      requires Exiting(s, n) && 0 < qty <= ledger[s].qty && ledger[s].stop.None?
      requires Free(W(), s, ledger[s].qty, quiet) && (quiet || HasOrphan(W(), s))
      modifies this`ledger, this`orphans
      modifies shared, broker`tick, broker`book, broker`uncovered, broker`told, trades`rows
      ensures SameBut(old(ledger), ledger, s) && Onward(old(broker.book), broker.book, s)
      ensures FlagKept()
      ensures old(broker.uncovered) <= broker.uncovered <= old(broker.uncovered) + iset{s}
      ensures quiet ==> broker.uncovered == old(broker.uncovered)
      ensures OrphansOf(old(W()), W(), s)
      ensures orphans != old(orphans) ==> ledger[s].stop.None? && (out.Raised? || shared.alarm)
      ensures out.Raised? ==> Aborted(s)
      ensures out.Done? && out.value.status == FILLED ==> SaleOf(broker.book, s, out.value, qty)
      ensures out.Done? ==> ExitDone(s, out.value)
    {
      hide MidExit, Aborted, SafeElsewhere, Later, Bare, Free, Flight, Booked, ReadyWith, Onward, Reach, HasOrphan,
        SellOrder, Synced, OpenSymbols;
      var held := ledger[s].qty;
      ghost var b0 := broker.book;
      var placed; ghost var sent, mid, moves;
      placed, sent, mid, moves := SubmitSale(s, n, qty, quiet);
      ghost var b1 := broker.book;
      Withheld(s, n, 0);
      if placed.Raised? { return Raised(placed.failure); }
      if placed.value.id.None? {
        out := LeaveUnresolved(s, n, None, Settlement(SUBMITTED, 0, 0.0, true));
        OnwardTrans(b0, b1, broker.book, s);
        return;
      }
      out := FollowSale(s, n, placed.value.id.value, qty, prod, exch, quiet);
      OnwardTrans(b0, b1, broker.book, s);
    }

    /** Settle the accepted sale `x`, close its row, and protect what is left. */
    method FollowSale(s: string, n: nat, x: nat, qty: nat, prod: string, exch: string, ghost quiet: bool)
      returns (out: Outcome<OrderResult>)
      requires Exiting(s, n) && 0 < qty <= ledger[s].qty && ledger[s].stop.None?
      requires SellOrder(broker.book, s, x) && broker.book.orders[x].qty == qty
      requires Flight(W(), s, x, ledger[s].qty, quiet) && (quiet || HasOrphan(W(), s))
      modifies this`ledger, this`orphans
      modifies shared, broker`tick, broker`book, broker`uncovered, broker`told, trades`rows
      ensures SameBut(old(ledger), ledger, s) && Onward(old(broker.book), broker.book, s)
      ensures FlagKept()
      ensures old(broker.uncovered) <= broker.uncovered <= old(broker.uncovered) + iset{s}
      ensures quiet ==> broker.uncovered == old(broker.uncovered)
      ensures OrphansOf(old(W()), W(), s)
      ensures orphans != old(orphans) ==> ledger[s].stop.None? && (out.Raised? || shared.alarm)
      ensures out.Raised? ==> Aborted(s)
      ensures out.Done? && out.value.status == FILLED ==> SaleOf(broker.book, s, out.value, qty)
      ensures out.Done? ==> ExitDone(s, out.value)
    {
      hide MidExit, Aborted, SafeElsewhere, Later, Bare, Free, Flight, Booked, ReadyWith, Onward, Reach, HasOrphan,
        Synced, OpenSymbols;
      var held := ledger[s].qty;
      ghost var b0 := broker.book;
      var settled := SettleSale(s, n, x, qty, quiet);
      ghost var b1 := broker.book;
      Withheld(s, n, 0);
      if settled.Raised? { return Raised(settled.failure); }
      var r := settled.value;
      if r.status == SUBMITTED { return Done(OrderResult(SUBMITTED, Some(x), 0, 0.0, None, true)); }
      if r.unknown {
        out := LeaveUnresolved(s, n, Some(x), r);
        if out.Done? { SaleOfStays(b1, broker.book, s, out.value, qty); }
        OnwardTrans(b0, b1, broker.book, s);
        return;
      }
      var result := OrderResult(r.status, Some(x), r.filled, r.average, None, false);
      Landed(W(), s, x, held, quiet);
      var closed := CloseAndProtect(s, n, r.filled, prod, exch, quiet);
      OnwardTrans(b0, b1, broker.book, s);
      SoldByStays(b1, broker.book, s, result, held);
      SaleOfStays(b1, broker.book, s, result, qty);
      return if closed.Raised? then Raised(closed.failure) else Done(result);
    }

    /** The outcome is unknown, or was for too long: the row says so, and nothing is sold or protected again. */
    method LeaveUnresolved(s: string, n: nat, x: Option<nat>, r: Settlement) returns (out: Outcome<OrderResult>)
      requires Exiting(s, n)
      requires SoldBy(broker.book, s, OrderResult(r.status, x, r.filled, r.average, None, true), ledger[s].qty)
      requires r.filled <= ledger[s].qty && (r.status == FILLED || r.status == PARTIAL || r.filled == 0)
      modifies shared, broker`tick, broker`book, broker`told, trades`rows
      ensures FlagKept()
      ensures shared.alarm && Onward(old(broker.book), broker.book, s)
      ensures out.Raised? ==> Aborted(s)
      ensures out.Done? ==>
        out.value.unknown && out.value.status == r.status && out.value.order == x && ExitDone(s, out.value)
    {
      hide MidExit, Aborted, SafeElsewhere, Later, Bare, Booked, ReadyWith, Onward, Synced, OpenSymbols;
      ghost var start := broker.book;
      OnwardRefl(start, s);
      ghost var w := W();
      var result := OrderResult(r.status, x, r.filled, r.average, None, true);
      var marked := MarkUnknown(ExitRow(n));
      ExitAwaits(start, w, W(), s, n);
      LaterIsOnward(w.book, broker.book, s);
      SoldByStays(w.book, broker.book, s, result, ledger[s].qty);
      Withheld(s, n, r.filled);
      return if marked.Raised? then Raised(marked.failure) else Done(result);
    }

    /** The result of an exit of `s` whose fill is yet to be booked. */
    ghost predicate ExitDone(s: string, r: OrderResult)
      reads this, broker, trades, shared
    {
      && r.filled <= Held(ledger, s)
      && SoldBy(broker.book, s, r, Held(ledger, s))
      && (r.status == FILLED || r.status == PARTIAL || r.filled == 0)
      && ReadyWith(Booked(W(), s, r.filled))
    }

    // ---- between operations ----

    /** Anything outside an exit: the market moved, a save may have gone through, the flags may have gone
        up, and purchases' rows may have been written. */
    lemma StillReady(w: World, id: RowId, status: RowStatus)
      requires Consistent(w) && Later(w.book, broker.book) && broker.Latched()
      requires W() == w.(book := broker.book, rows := trades.rows, degraded := shared.alarm, saved := shared.saved,
        told := broker.told)
      requires OthersTurns(w, W())
      requires trades.rows == w.rows || (trades.rows == Updated(w.rows, id, status) && EntryMay(w.rows, id, status))
      ensures Consistent(W())
      ensures ReadyWith(w) ==> Ready()
    {
      hide Later, Bare, Safe, Fit, OneUnresolved, Protected, Synced, OpenSymbols;
      SoundStays(w, W(), id, status);
    }

    /** An await between steps. */
    method Wait() returns (out: Outcome<Turn>)
      requires Ready()
      modifies shared, broker`tick, broker`book, broker`told
      ensures shared.marks == old(shared.marks)
      ensures FlagKept()
      ensures Ready() && Later(old(broker.book), broker.book) && OthersTurns(old(W()), W())
    {
      hide Later, Bare, Safe, Fit, OneUnresolved, Protected, OpenSymbols;
      ghost var w := W();
      out := Await();
      StillReady(w, NoRow, Closed);
    }

    method ListPositions() returns (out: Outcome<seq<Holding>>)
      requires Ready()
      modifies shared, broker`tick, broker`book, broker`told
      ensures shared.marks == old(shared.marks)
      ensures FlagKept()
      ensures Ready() && Later(old(broker.book), broker.book)
      ensures out.Done? ==> Accurate(broker.book, out.value)
    {
      hide Later, Bare, Safe, Fit, OneUnresolved, Protected, Accurate, OpenSymbols;
      ghost var w := W();
      out := FetchPositions();
      StillReady(w, NoRow, Closed);
    }

    /** A save between steps. */
    method Save() returns (out: Outcome<bool>)
      requires Ready()
      modifies shared, broker`tick, broker`book, broker`told
      ensures FlagKept() && out != Raised(Fault)
      ensures Ready() && Later(old(broker.book), broker.book)
      ensures shared.saved == old(shared.saved) || shared.saved == Synced(old(shared.saved), ledger)
      ensures out == Done(true) ==> shared.saved == Synced(old(shared.saved), ledger)
    {
      hide Later, Bare, Safe, Fit, OneUnresolved, Protected, Synced, OpenSymbols;
      ghost var w := W();
      out := Persist();
      StillReady(w, NoRow, Closed);
    }

    /** `emergency_shutdown`. */
    method Halt()
      requires Ready()
      modifies shared`halted, shared`marks
      ensures Ready() && shared.halted && shared.marks == old(shared.marks) + 1
    {
      hide ReadyWith, OpenSymbols;
      ghost var w := W();
      shared.halted, shared.marks := true, shared.marks + 1;
      assert W() == w;
    }

    /** `resume_trading`: the operator lifts the halt, and nothing else. */
    method Resume()
      requires Ready()
      modifies shared`halted, shared`resumes
      ensures Ready() && !shared.halted
    {
      hide ReadyWith, OpenSymbols;
      ghost var w := W();
      shared.halted, shared.resumes := false, shared.resumes + 1;
      assert W() == w;
    }

    /** `_place_exit`, live. The sale goes out only when no exit of the symbol is unresolved, its stop is
        off and sold nothing, and the broker holds exactly the ledger position in one long row. */
    method PlaceExitInner(s: string, qty: int) returns (out: Outcome<OrderResult>)
      requires Ready()
      modifies this`ledger, this`orphans, this`nextExit
      modifies shared, broker`tick, broker`book, broker`uncovered, broker`told, trades
      ensures ledger == old(ledger) || SameBut(old(ledger), ledger, s)
      ensures old(UnresolvedExit(trades.rows, s)) || qty <= 0 || Held(old(ledger), s) < qty ==>
        |broker.book.orders| == |old(broker.book).orders| && ledger == old(ledger)
          && (out.Done? ==> out.value.filled == 0)
      ensures Spares(old(W()), W(), s)
      ensures orphans != old(orphans) ==> StopOf(ledger, s).None? && (out.Raised? || shared.alarm)
      ensures FlagKept()
      ensures out.Raised? ==> Aborted(s)
      ensures out.Done? && out.value.status == FILLED ==> SaleOf(broker.book, s, out.value, qty)
      ensures out.Done? ==> ExitDone(s, out.value)
    {
      hide Onward, MidExit, SafeElsewhere, Safe, Later, Bare, Free, Fit, OneUnresolved, Protected, ProtectedElsewhere,
        Clear, UnresolvedExit, HasOrphan, OrphanWorks, OpenSymbols;
      OnwardRefl(broker.book, s);
      ghost var w0, quiet := W(), !OrphanWorks(W(), s);
      if s !in ledger || qty <= 0 || ledger[s].qty < qty { return Done(NOT_DONE); }
      OrphansKnown(w0, s);
      var read := Wait();
      StillKnown(w0, W(), s, quiet);
      LaterGrows(w0.book, broker.book);
      LaterIsOnward(w0.book, broker.book, s);
      ghost var w1 := W();
      if read.Raised? {
        ReadyIsAborted(s);
        return Raised(read.failure);
      }
      if UnresolvedExit(trades.rows, s) { return Done(NOT_DONE); }
      var n := nextExit;
      var begun := OpenExit(s);
      StillKnown(w1, W(), s, quiet);
      ghost var b2 := broker.book;
      LaterIsOnward(w1.book, b2, s);
      OnwardTrans(w0.book, w1.book, b2, s);
      if begun.Raised? { return Raised(begun.failure); }
      out := ConcludeExit(s, n, qty, quiet);
      OnwardTrans(w0.book, b2, broker.book, s);
    }

    lemma OrphansKnown(w: World, s: string)
      requires Consistent(w)
      ensures Existing(w.book, w.orphans)
      ensures Known(w, s, !OrphanWorks(w, s))
    {
      hide Safe, OneUnresolved;
    }

    lemma StillKnown(w: World, w': World, s: string, quiet: bool)
      requires Known(w, s, quiet) && Existing(w.book, w.orphans) && Later(w.book, w'.book) && w'.orphans == w.orphans
      ensures Known(w', s, quiet) && Existing(w'.book, w'.orphans)
    {
      hide Later, HasOrphan, OrphanWorks, OpenSymbols;
      LaterGrows(w.book, w'.book);
      if quiet { OrphansRest(w, w', s); } else { OrphanStays(w, w', s); }
    }

    /** The rest of an exit, its row being open. */
    method ConcludeExit(s: string, n: nat, qty: nat, ghost quiet: bool) returns (out: Outcome<OrderResult>)
      requires Exiting(s, n) && 0 < qty <= ledger[s].qty && Clear(W(), s) && Known(W(), s, quiet)
      modifies this`ledger, this`orphans
      modifies shared, broker`tick, broker`book, broker`uncovered, broker`told, trades`rows
      ensures SameBut(old(ledger), ledger, s) && Onward(old(broker.book), broker.book, s)
      ensures FlagKept()
      ensures old(broker.uncovered) <= broker.uncovered <= old(broker.uncovered) + iset{s}
      ensures quiet ==> broker.uncovered == old(broker.uncovered)
      ensures OrphansOf(old(W()), W(), s)
      ensures orphans != old(orphans) ==> ledger[s].stop.None? && (out.Raised? || shared.alarm)
      ensures out.Raised? ==> Aborted(s)
      ensures out.Done? && out.value.status == FILLED ==> SaleOf(broker.book, s, out.value, qty)
      ensures out.Done? ==> ExitDone(s, out.value)
    {
      hide MidExit, Aborted, SafeElsewhere, Bare, Free, Booked, ReadyWith, Clear, Onward, HasOrphan, OrphanWorks,
        OpenSymbols, SaleOf, Reach, Offered;
      ghost var b0 := broker.book;
      OnwardRefl(b0, s);
      if ledger[s].stop.Some? {
        var released := ReleaseStop(s, n, quiet);
        Withheld(s, n, if released.Done? && released.value.Some? then released.value.value.filled else 0);
        if released.Raised? { return Raised(released.failure); }
        if released.value.Some? { return Done(released.value.value); }
      }
      ghost var b1 := broker.book;
      var holding := CheckHolding(s, n, quiet);
      OnwardTrans(b0, b1, broker.book, s);
      Withheld(s, n, 0);
      if holding.Raised? { return Raised(holding.failure); }
      if holding.value.None? { return Done(NOT_DONE); }
      ghost var b2 := broker.book;
      out := SellAndSettle(s, n, qty, holding.value.value.product, holding.value.value.exchange, quiet);
      OnwardTrans(b0, b2, broker.book, s);
    }

    lemma ReadyIsAborted(s: string)
      requires Ready()
      ensures Aborted(s)
    {
      hide Consistent, ProtectedAt;
    }

    /** A new row for an exit of `s`, before anything else is done about it. */
    method OpenExit(s: string) returns (out: Outcome<()>)
      requires Ready() && s in ledger && !UnresolvedExit(trades.rows, s)
      modifies this`nextExit
      modifies shared, broker`tick, broker`book, broker`told, trades
      ensures FlagKept()
      ensures Later(old(broker.book), broker.book)
      ensures out.Raised? ==> Aborted(s)
      ensures out.Done? ==> Exiting(s, old(nextExit)) && Clear(W(), s)
    {
      hide MidExit, SafeElsewhere, Safe, Later, Bare, Fit, OneUnresolved, Protected, ProtectedElsewhere, Clear,
        UnresolvedExit, OpenSymbols;
      ghost var w := W();
      var n := nextExit;
      nextExit := nextExit + 1;
      FreshRow(w);
      var created := CreateRow(ExitRow(n), s, Sell);
      if trades.rows == old(trades.rows) {
        NumberSpent(w, W());
        SafeStays(w, W());
        ReadyIsAborted(s);
      } else {
        ExitOpens(w, W(), s, old(trades.clock));
        Withheld(s, n, 0);
      }
      return created;
    }

    /** `place_exit`: an exception or a cancellation inside the exit leaves its outcome unknown. Only the
        end of the process comes through, and leaves the symbol's own protection open. */
    method PlaceExit(s: string, qty: int) returns (out: Outcome<OrderResult>)
      requires Ready()
      modifies this`ledger, this`orphans, this`nextExit
      modifies shared, broker`tick, broker`book, broker`uncovered, broker`told, trades
      ensures ledger == old(ledger) || SameBut(old(ledger), ledger, s)
      ensures old(UnresolvedExit(trades.rows, s)) || qty <= 0 || Held(old(ledger), s) < qty ==>
        |broker.book.orders| == |old(broker.book).orders| && ledger == old(ledger)
          && (out.Done? ==> out.value.filled == 0)
      ensures Spares(old(W()), W(), s)
      ensures FlagKept()
      ensures orphans != old(orphans) ==> StopOf(ledger, s).None? && (shared.alarm || out == Raised(Killed))
      ensures out.Raised? ==> if out.failure.Killed? then Consistent(W()) else Ready() && shared.alarm
      ensures out.Done? && out.value.status == FILLED ==> SaleOf(broker.book, s, out.value, qty)
      ensures out.Done? ==> ExitDone(s, out.value)
    {
      hide Later, Bare, Safe, SafeElsewhere, Fit, OneUnresolved, Protected, ProtectedElsewhere, Spares, Synced,
        OpenSymbols;
      out := PlaceExitInner(s, qty);
      if out.Done? || out.failure.Killed? { return; }
      ghost var w := W();
      NoResidualRow(w, 0);
      var marked := MarkUnknown(NoRow);
      LaterGrows(w.book, broker.book);
      SparesStays(old(W()), w, W(), s);
      StillReady(w, NoRow, Unclear);
      DegradedIsProtected(W());
      return if marked.Raised? then Raised(marked.failure) else Done(OrderResult(SUBMITTED, None, 0, 0.0, None, true));
    }

    // ---- booking ----

    /** `close_position` in the database: reduce or close the only open row of `s`; no row, or several, fail. */
    method CloseStored(s: string) returns (out: Outcome<bool>)
      requires Ready()
      modifies shared, broker`tick, broker`book, broker`told
      ensures FlagKept()
      ensures Ready() && Later(old(broker.book), broker.book)
      ensures var before, synced := old(shared.saved), Synced(old(shared.saved), ledger);
              shared.saved == before || shared.saved == synced
              || shared.saved == Rebooked(before, ledger, s) || shared.saved == Rebooked(synced, ledger, s)
      ensures out == Done(true) ==> Agree(shared.saved, ledger, s)
      ensures OnlyOpen(old(shared.saved), s).None? ==> out != Done(true)
    {
      hide Later, Bare, Safe, OneUnresolved, Protected, Synced, Rebooked, Agree, OpenTwice, OpenSymbols;
      ghost var w := W();
      var t := Pass();
      StillReady(w, NoRow, Closed);
      OnlyOpenSynced(w.saved, ledger, s);
      var open := OnlyOpen(shared.saved, s).Some?;
      if (if t.failure.None? then t.allowed else t.effective) {
        RebookedAnew(W(), s);
        RebookedOpens(shared.saved, ledger, s);
        if open { OnlyOpenOnce(shared.saved, s); RebookedAgrees(shared.saved, ledger, s); }
        shared.saved, shared.savedHalt := Rebooked(shared.saved, ledger, s), shared.halted;
      }
      if t.failure.Some? && !t.failure.value.Fault? { return Raised(t.failure.value); }
      return Done(t.failure.None? && t.allowed && open);
    }

    /** `record_exit`: the ledger changes before the first await; a failed booking in the database halts
        trading. */
    method RecordExit(s: string, f: nat) returns (out: Outcome<()>)
      requires 0 < f <= Held(ledger, s) && ReadyWith(Booked(W(), s, f))
      modifies this`ledger
      modifies shared, broker`tick, broker`book, broker`told
      ensures FlagKept()
      ensures Ready() && Later(old(broker.book), broker.book)
      ensures ledger == Booked(old(W()), s, f).ledger
      ensures out.Done? ==> old(shared.marks) < shared.marks || Agree(shared.saved, ledger, s)
    {
      hide Later, ReadyWith, Synced, Agree, Rebooked, OpenSymbols;
      ledger := if f < ledger[s].qty then ledger[s := ledger[s].(qty := ledger[s].qty - f)]
                else if ledger[s].next.Some? then ledger[s := ledger[s].next.value] else ledger - {s};
      out := StoreExit(s);
    }

    /** The rest of it, the ledger being changed. */
    method StoreExit(s: string) returns (out: Outcome<()>)
      requires Ready()
      modifies shared, broker`tick, broker`book, broker`told
      ensures FlagKept()
      ensures Ready() && Later(old(broker.book), broker.book)
      ensures out.Done? ==> old(shared.marks) < shared.marks || Agree(shared.saved, ledger, s)
    {
      hide Later, Ready, Synced, Agree, Rebooked, OpenSymbols;
      var closed := CloseStored(s);
      if closed.Raised? { return Raised(closed.failure); }
      ghost var b, m := broker.book, shared.saved;
      LaterRefl(b);
      var stored := closed;
      if closed.value { stored := Save(); }
      LaterTrans(old(broker.book), b, broker.book);
      SyncedAgrees(m, ledger, s);
      if stored.Raised? { return Raised(stored.failure); }
      if !stored.value { Halt(); }
      b, m := broker.book, shared.saved;
      var recorded := Wait();
      LaterTrans(old(broker.book), b, broker.book);
      SyncedAgrees(m, ledger, s);
      return if recorded.Raised? then Raised(recorded.failure) else Done(());
    }

    /** Once a position is gone, the latest open purchase of its symbol is closed. `read` says that the row is
        looked up in any case. */
    method CloseEntryRow(s: string, read: bool, gone: bool) returns (out: Outcome<()>)
      requires Ready()
      modifies shared, broker`tick, broker`book, broker`told, trades`rows
      ensures FlagKept()
      ensures Ready()
      ensures !gone ==> trades.rows == old(trades.rows)
      ensures out.Done? && gone ==> ClosedLatest(old(trades.rows), trades.rows, s)
      ensures Later(old(broker.book), broker.book)
    {
      hide Later, Bare, Safe, Fit, OneUnresolved, Protected, OpenSymbols;
      LaterRefl(broker.book);
      if !read && !gone { return Done(()); }
      var looked := Wait();
      if looked.Raised? { return Raised(looked.failure); }
      var row := trades.GetOpenBySymbol(s);
      if !gone || row.None? { return Done(()); }
      ghost var w := W();
      out := SetStatus(row.value, Closed);
      StillReady(w, row.value, Closed);
      LaterTrans(old(broker.book), w.book, broker.book);
    }

    /** The shares a confirmed fill takes off the ledger. */
    function Bookable(s: string, filled: nat, price: real): nat
      reads this
    {
      if price <= 0.0 then 0 else if filled < Held(ledger, s) then filled else Held(ledger, s)
    }

    /** `_close_position`: book a confirmed fill on the first position of `s`, and close the purchase's row once
        it is gone, if it is the position the caller means. */
    method ClosePosition(s: string, filled: nat, price: real, read: bool, meant: bool) returns (out: Outcome<()>)
      requires ReadyWith(Booked(W(), s, Bookable(s, filled, price)))
      modifies this`ledger
      modifies shared, broker`tick, broker`book, broker`told, trades`rows
      ensures FlagKept()
      ensures Ready()
      ensures ledger == Booked(old(W()), s, old(Bookable(s, filled, price))).ledger
      ensures !meant || old(Bookable(s, filled, price)) < old(Held(ledger, s)) ==> trades.rows == old(trades.rows)
      ensures out.Done? && meant && 0 < old(Bookable(s, filled, price)) == old(Held(ledger, s)) ==>
        ClosedLatest(old(trades.rows), trades.rows, s)
      ensures Later(old(broker.book), broker.book)
    {
      hide Later, ReadyWith, OpenSymbols;
      LaterRefl(broker.book);
      if s !in ledger || filled == 0 || price <= 0.0 { return Done(()); }
      var f := if filled < ledger[s].qty then filled else ledger[s].qty;
      if f == 0 { return Done(()); }
      var gone := meant && f == ledger[s].qty;
      out := RecordExit(s, f);
      if out.Raised? { return; }
      ghost var b := broker.book;
      out := CloseEntryRow(s, read, gone);
      LaterTrans(old(broker.book), b, broker.book);
    }

    method SetDegraded() returns (out: Outcome<()>)
      requires Consistent(W())
      modifies shared, broker`tick, broker`book, broker`told
      ensures FlagKept()
      ensures Ready() && shared.alarm
      ensures Later(old(broker.book), broker.book)
    {
      hide Later, Bare, Safe, Fit, OneUnresolved, ReadyWith, OpenSymbols;
      ghost var w := W();
      shared.degraded, shared.alarm := true, true;
      var told := Await();
      StillReady(w, NoRow, Closed);
      assert Ready() by { ConsistentlyDegraded(W()); }
      return if told.Raised? then Raised(told.failure) else Done(());
    }

    // ---- the position monitor ----

    /** A new report about a tracked stop of `s`: nothing else is affected. */
    lemma StopReported(w: World, s: string, k: nat)
      requires ReadyWith(w) && s in w.ledger && SellOrder(w.book, s, k)
      requires Later(w.book, broker.book) && broker.Latched()
      requires W() == w.(book := broker.book, told := broker.told, saved := shared.saved, degraded := shared.alarm)
      requires shared.saved == w.saved || shared.saved == Synced(w.saved, w.ledger)
      requires w.degraded ==> shared.alarm
      requires shared.alarm || forall j :: j in w.told && j != k ==> j in broker.told && broker.told[j] == w.told[j]
      ensures Aborted(s)
    {
      hide Later, Bare, Safe, OneUnresolved, Onward, Reach, Offered, ProtectedElsewhere, Protected, SafeElsewhere,
        HasOrphan, FitLedger, OpenSymbols;
      SellOrderStays(w.book, broker.book, s, k);
      LaterIsOnward(w.book, broker.book, s);
      LaterGrows(w.book, broker.book);
      assert Ended(w, s) by { SoundIsEnded(w, s); }
      assert w.ledger == w.ledger[s := w.ledger[s].(stop := w.ledger[s].stop)];
      if w.ledger[s].stop.Some? {
        StopSells(w, s);
        SellOrderStays(w.book, broker.book, s, w.ledger[s].stop.value);
      }
      EndStays(w, W(), s);
      SafeStays(w, W());
    }

    /** A stop of `s` was just confirmed: unless `s` is listed more than once, whatever doubt a retry left about
        it is gone. */
    ghost method Confirm(s: string)
      requires Aborted(s) && (shared.alarm || Doubled(ledger, s) || ProtectedAt(W(), s))
      modifies this`exposed
      ensures Ready() && exposed == if Doubled(ledger, s) then old(exposed) else old(exposed) - {s}
    {
      hide Consistent, ProtectedAt;
      DoublesExposed(W());
      if Doubled(ledger, s) {
        ProtectedEverywhere(W(), s);
      } else {
        Reexposed(W(), exposed - {s});
        exposed := exposed - {s};
      }
    }

    lemma DoublesExposed(w: World)
      requires Consistent(w)
      ensures Doubles(w.ledger) <= w.exposed
    {
      hide OpenTwice, FitTable, FitLedger, Safe, Bare, OneUnresolved, OpenSymbols;
    }

    /** The fill of a stop that sold a whole position may be booked, on the first position of its symbol. When
        that is not the stop's own, its stop must be an orphan. */
    lemma StopSoldAll(s: string, f: nat)
      requires Aborted(s) && s in ledger && 0 < f <= ledger[s].qty
      requires !Doubled(ledger, s) ==> f == ledger[s].qty
      requires f == ledger[s].qty && Doubled(ledger, s) ==>
        forall k :: k in StopSet(ledger, s) ==> k in orphans || Open(broker.book.orders[k]) == 0
      ensures ReadyWith(Booked(W(), s, f))
    {
      hide Safe, Fit, OneUnresolved, Protected, Booked, Bare, ProtectedElsewhere, StopSet, OpenSymbols;
      BookedElsewhere(W(), s, f);
      DoublesExposed(W());
      if f == ledger[s].qty {
        SoldOut(W(), s);
        GoneIsSafe(W(), s);
      } else {
        LessIsSafe(W(), s, f);
        ProtectedEverywhere(Booked(W(), s, f), s);
      }
    }

    /** The position the monitor means. */
    function Meant(s: string, row: Option<nat>): Position
      requires PositionAt(ledger, s, row).Some?
      reads this`ledger
    {
      PositionAt(ledger, s, row).value
    }

    /** What the monitor learns from a position's tracked stop: `r` is the broker's answer, and decides alone.
        With the flag down, no retry on its way and nobody else putting it up, nothing else happens to flag and
        reports. */
    method LookAtStop(s: string, row: Option<nat>) returns (out: Outcome<StopNews>, ghost r: OrderReport)
      requires Ready() && PositionAt(ledger, s, row).Some?
      modifies this`exposed
      modifies shared, broker`tick, broker`book, broker`told
      ensures Later(old(broker.book), broker.book) && FlagKept()
      ensures out.Done? && out.value.Amiss? ==> shared.alarm
      ensures exposed
           == if out.Done? && out.value.StillWorking? && !Doubled(ledger, s) then old(exposed) - {s} else old(exposed)
      ensures out.Done? && out.value.StillWorking? ==> StopConfirmed(broker.told, s, Meant(s, row))
      ensures out.Done? && Meant(s, row).stop.None? ==> out.value.Amiss?
      ensures out.Done? && Meant(s, row).stop.Some? ==>
        && (out.value.StillWorking? <==> StopProblem(r, s, Meant(s, row).qty as real, product, exchange) == NoProblem)
        && (out.value.SoldAll? <==> StopIdentityProblem(r, s, product, exchange) == NoProblem && r.status == "COMPLETE"
                                    && OrZero(r.filled) == Meant(s, row).qty && 0.0 < r.averagePrice)
      ensures out.Done? && !out.value.Amiss? ==>
        var k := Meant(s, row).stop; k.Some? && k.value in broker.told && broker.told[k.value] == r
      ensures out.Done? && old(AllClear() && !shared.alarm) && shared.alerts == old(shared.alerts) ==>
        var v := AfterLook(old(W()), Look(s, row, r), product, exchange);
        (out.value.Amiss? <==> v.degraded) && (out.value.Amiss? || (broker.told == v.told && !shared.alarm))
      ensures if out.Done? && out.value.SoldAll? then Aborted(s) else Ready()
      ensures out.Done? && out.value.SoldAll? ==> SoldWhole(s, Meant(s, row), out.value)
    {
      hide Later, Bare, Safe, Fit, OneUnresolved, Protected, StopProblem, StopIdentityProblem, ProtectedElsewhere,
        Confirmed, Synced, PositionAt, OpenSymbols;
      r := UNKNOWN_REPORT;
      var p := Meant(s, row);
      MeantFits(s, row);
      if p.stop.None? {
        var told := SetDegraded();
        return if told.Raised? then Raised(told.failure) else Done(Amiss), r;
      }
      var k := p.stop.value;
      ghost var w := W();
      var status := FetchStatus(k);
      ghost var b := broker.book;
      SellOrderStays(w.book, broker.book, s, k);
      if status.Raised? {
        StillReady(w, NoRow, Closed);
        return Raised(status.failure), r;
      }
      StopReported(w, s, k);
      r := status.value;
      LookIs(old(W()), Look(s, row, r));
      out := JudgeStop(s, row, status.value);
      LaterTrans(w.book, b, broker.book);
    }

    /** What the report about the position's stop comes to. */
    method JudgeStop(s: string, row: Option<nat>, report: OrderReport) returns (out: Outcome<StopNews>)
      requires PositionAt(ledger, s, row).Some? && Aborted(s) && Meant(s, row).stop.Some?
      requires var k := Meant(s, row).stop.value;
               && k in broker.told && broker.told[k] == report && SellOrder(broker.book, s, k)
               && Reliable(broker.book.orders[k], report)
      modifies this`exposed
      modifies shared, broker`tick, broker`book, broker`told
      ensures Later(old(broker.book), broker.book) && FlagKept()
      ensures out.Done? && out.value.Amiss? ==> shared.alarm
      ensures !(out.Done? && out.value.Amiss?) && !out.Raised? ==> unchanged(shared, broker)
      ensures exposed
           == if out.Done? && out.value.StillWorking? && !Doubled(ledger, s) then old(exposed) - {s} else old(exposed)
      ensures out.Done? && out.value.StillWorking? ==> StopConfirmed(broker.told, s, Meant(s, row))
      ensures out.Done? ==>
        && (out.value.StillWorking? <==>
              StopProblem(report, s, Meant(s, row).qty as real, product, exchange) == NoProblem)
        && (out.value.SoldAll? <==>
              && StopIdentityProblem(report, s, product, exchange) == NoProblem && report.status == "COMPLETE"
              && OrZero(report.filled) == Meant(s, row).qty && 0.0 < report.averagePrice)
      ensures if out.Done? && out.value.SoldAll? then Aborted(s) else Ready()
      ensures out.Done? && out.value.SoldAll? ==> SoldWhole(s, Meant(s, row), out.value)
    {
      hide Later, Consistent, ReadyWith, StopProblem, StopIdentityProblem, ProtectedElsewhere, Confirmed, PositionAt,
        OpenSymbols;
      var p := Meant(s, row);
      LaterRefl(broker.book);
      PassingHasIdentity(report, s, p.qty, product, exchange);
      if StopIdentityProblem(report, s, product, exchange) != NoProblem {
        out := Degrade(broker.book);
        return;
      }
      if report.status == "COMPLETE" {
        if TOLERANCE < Abs(OrZero(report.filled) as real - p.qty as real) || report.averagePrice <= 0.0 {
          out := Degrade(broker.book);
          return;
        }
        WholeShares(OrZero(report.filled), p.qty);
        return Done(SoldAll(OrZero(report.filled), report.averagePrice));
      }
      if StopProblem(report, s, p.qty as real, product, exchange) != NoProblem {
        out := Degrade(broker.book);
        return;
      }
      PassingIsConfirmed(report, s, p.qty, product, exchange);
      OneMeant(s, row);
      Confirm(s);
      return Done(StillWorking);
    }

    /** A look puts the flag up exactly when the report neither passes nor says that the stop sold everything. */
    lemma LookIs(w: World, look: Look)
      ensures var at, v := PositionAt(w.ledger, look.symbol, look.row), AfterLook(w, look, product, exchange);
              !w.degraded && at.Some? && at.value.stop.Some? ==>
                && v.told == w.told[at.value.stop.value := look.report]
                && (v.degraded <==>
                      && StopProblem(look.report, look.symbol, at.value.qty as real, product, exchange) != NoProblem
                      && !(StopIdentityProblem(look.report, look.symbol, product, exchange) == NoProblem
                        && look.report.status == "COMPLETE"
                           && OrZero(look.report.filled) == at.value.qty && 0.0 < look.report.averagePrice))
    {
      hide StopProblem, StopIdentityProblem, PositionAt;
    }

    /** The stop of the position is final, and sold all of it. */
    ghost predicate SoldWhole(s: string, p: Position, news: StopNews)
      reads broker`book
    {
      && news.SoldAll? && news.filled == p.qty && 0.0 < news.price
      && p.stop.Some? && SellOrder(broker.book, s, p.stop.value) && Final(broker.book.orders[p.stop.value], p.qty)
    }

    lemma MeantFits(s: string, row: Option<nat>)
      requires Consistent(W()) && PositionAt(ledger, s, row).Some?
      ensures s in ledger && FitPosition(Meant(s, row), s, broker.book)
    {
      hide Safe, OneUnresolved, Protected, Bare, OpenSymbols;
      FoundFits(ledger[s], s, broker.book, row);
    }

    /** For a symbol listed once it is the only one. */
    lemma OneMeant(s: string, row: Option<nat>)
      requires PositionAt(ledger, s, row).Some?
      ensures !Doubled(ledger, s) ==> Meant(s, row) == ledger[s]
    {
    }

    /** Something about a stop is amiss. */
    method Degrade(ghost start: Book) returns (out: Outcome<StopNews>)
      requires Consistent(W()) && Later(start, broker.book)
      modifies shared, broker`tick, broker`book, broker`told
      ensures Ready() && Later(start, broker.book) && FlagKept() && shared.alarm
      ensures out.Done? ==> out.value.Amiss?
    {
      hide Consistent, ReadyWith, Later, OpenSymbols;
      ghost var b := broker.book;
      var told := SetDegraded();
      LaterTrans(start, b, broker.book);
      return if told.Raised? then Raised(told.failure) else Done(Amiss);
    }

    /** The target exit of a position whose stop was just confirmed; `price` is the last price read for it. The
        exit is of the first position of the symbol. */
    method TargetExit(s: string, row: Option<nat>)
      returns (out: Outcome<bool>, ghost sale: OrderResult, ghost price: Option<real>)
      requires Ready() && PositionAt(ledger, s, row).Some?
      modifies this`ledger, this`orphans, this`nextExit
      modifies shared, broker`tick, broker`book, broker`uncovered, broker`told, trades
      ensures if out == Raised(Killed) then Consistent(W()) else Ready()
      ensures Spares(old(W()), W(), s)
      ensures orphans != old(orphans) ==> shared.alarm || out == Raised(Killed)
      ensures FlagKept()
      ensures var target := old(Meant(s, row)).takeProfit;
              price.None? || price.value <= 0.0 || target <= 0.0 || price.value < target ==>
                |broker.book.orders| == |old(broker.book).orders| && ledger == old(ledger)
      ensures Sells(broker.book, old(ledger), ledger, s, sale)
    {
      hide Later, ReadyWith, Consistent, Spares, Booked, SoldBy, Sells, SameBut, PositionAt, OpenSymbols;
      ghost var w0 := W();
      sale, price := NOT_DONE, None;
      var p := Meant(s, row);
      ReadyIsKnown();
      var prices := Wait();
      LaterGrows(w0.book, broker.book);
      SparesNothing(w0, W(), s);
      SellsNothing(broker.book, w0.ledger, ledger, s);
      if prices.Raised? {
        ReadyIsConsistent();
        return Raised(prices.failure), sale, price;
      }
      var ltp := prices.value.price;
      price := Some(ltp);
      if ltp <= 0.0 || p.takeProfit <= 0.0 || ltp < p.takeProfit { return Done(false), sale, price; }
      ghost var w1 := W();
      var exit := PlaceExit(s, p.qty);
      SparesFrom(w0, w1, W(), s);
      SellsNothing(broker.book, w0.ledger, ledger, s);
      if exit.Raised? { return Raised(exit.failure), sale, price; }
      var r := exit.value;
      if r.status != FILLED && r.status != PARTIAL {
        NothingBooked(W(), s);
        return Done(false), sale, price;
      }
      sale := r;
      var closed := BookSale(w0.ledger, s, r, true, true);
      ReadyIsConsistent();
      return if closed.Raised? then Raised(closed.failure) else Done(true), sale, price;
    }

    /** Book the fill of a finished exit. */
    method BookSale(ghost before: Ledger, s: string, r: OrderResult, read: bool, meant: bool) returns (out: Outcome<()>)
      requires ExitDone(s, r) && (ledger == before || SameBut(before, ledger, s))
      modifies this`ledger
      modifies shared, broker`tick, broker`book, broker`told, trades`rows
      ensures FlagKept()
      ensures Ready() && Sells(broker.book, before, ledger, s, r)
      ensures forall w0: World :: Spares(w0, old(W()), s) ==> Spares(w0, W(), s)
    {
      hide Later, ReadyWith, Spares, Booked, SoldBy, Sells, SameBut, OpenSymbols;
      ghost var w := W();
      FillIsBookable(s, r);
      out := ClosePosition(s, r.filled, r.average, read, meant);
      LaterIsOnward(w.book, broker.book, s);
      SoldByStays(w.book, broker.book, s, r, Held(w.ledger, s));
      SellsThrough(broker.book, before, w, ledger, s, r);
      forall w0: World | Spares(w0, w, s)
        ensures Spares(w0, W(), s)
      {
        SparesStays(w0, w, W(), s);
      }
    }

    lemma ReadyIsConsistent()
      ensures Ready() ==> Consistent(W())
    {
      hide Consistent, Protected;
    }

    lemma ReadyHasOrders(w: World)
      requires ReadyWith(w)
      ensures Existing(w.book, w.orphans) && Fit(w)
    {
      hide Safe, Protected, OneUnresolved, Bare, OpenSymbols;
    }

    lemma FillIsBookable(s: string, r: OrderResult)
      requires SoldBy(broker.book, s, r, Held(ledger, s)) && r.filled <= Held(ledger, s)
      ensures Bookable(s, r.filled, r.average) == r.filled
    {
    }

    /** `_check_position`, live: look at the stop first. A missing, foreign, damaged or ambiguously filled
        stop degrades, a fully filled one books the position away, and only a position whose stop was just
        confirmed goes on to its target exit. `sale` is what was booked. Of a symbol listed more than once it is
        the first position that is booked on, and its stop may stay behind. */
    method CheckPosition(s: string, row: Option<nat>) returns (out: Outcome<bool>, ghost sale: OrderResult)
      requires Ready()
      modifies this`ledger, this`orphans, this`exposed, this`nextExit
      modifies shared, broker`tick, broker`book, broker`uncovered, broker`told, trades
      ensures if out == Raised(Killed) then Consistent(W()) else Ready()
      ensures Spares(old(W()), W(), s)
      ensures orphans != old(orphans) ==> shared.alarm || out == Raised(Killed) || Doubled(old(ledger), s)
      ensures exposed <= old(exposed)
      ensures FlagKept()
      ensures Sells(broker.book, old(ledger), ledger, s, sale)
    {
      hide Later, Ready, ReadyWith, Consistent, Spares, Booked, SoldBy, Sells, SameBut, Aborted, PositionAt,
        OpenSymbols, SoldWhole, StopConfirmed, StopIdentityProblem, StopProblem, AfterLook;
      ghost var w0 := W();
      assert Existing(w0.book, w0.orphans) by { ReadyIsKnown(); }
      SellsNothing(broker.book, w0.ledger, ledger, s);
      LaterRefl(broker.book);
      sale := NOT_DONE;
      SparesNothing(w0, W(), s);
      ReadyIsConsistent();
      if PositionAt(ledger, s, row).None? { return Done(false), sale; }
      var p := Meant(s, row);
      var news; ghost var r0;
      news, r0 := LookAtStop(s, row);
      ReadyIsConsistent();
      SparesNothing(w0, W(), s);
      SellsNothing(broker.book, w0.ledger, ledger, s);
      if news.Raised? { return Raised(news.failure), sale; }
      ghost var w1 := W();
      match news.value {
        case Amiss => out := Done(false);
        case SoldAll(filled, price) =>
          out, sale := BookStopSale(s, row, news.value);
          ReadyIsConsistent();
          SparesFrom(w0, w1, W(), s);
        case StillWorking =>
          ghost var price;
          out, sale, price := TargetExit(s, row);
          SparesFrom(w0, w1, W(), s);
      }
    }

    /** The position's stop sold all of it. */
    method BookStopSale(s: string, row: Option<nat>, news: StopNews)
      returns (out: Outcome<bool>, ghost sale: OrderResult)
      requires PositionAt(ledger, s, row).Some? && Aborted(s) && SoldWhole(s, Meant(s, row), news)
      modifies this`ledger, this`orphans
      modifies shared, broker`tick, broker`book, broker`told, trades`rows
      ensures Ready() && Spares(old(W()), W(), s) && FlagKept()
      ensures orphans != old(orphans) ==> Doubled(old(ledger), s)
      ensures old(s in ledger && Meant(s, row) != ledger[s] && ledger[s].qty <= Meant(s, row).qty) ==>
        StopSet(old(ledger), s) <= orphans
      ensures Sells(broker.book, old(ledger), ledger, s, sale)
    {
      hide Later, ReadyWith, Consistent, Spares, Booked, SoldBy, Sells, SameBut, ProtectedElsewhere, OpenSymbols;
      ghost var w0 := W();
      var p, first := Meant(s, row), ledger[s];
      OneMeant(s, row);
      MeantFits(s, row);
      var r := StopSale(p.stop.value, news, first.qty);
      FirstFits(s);
      StopIsSold(s, p, news, first.qty);
      if Doubled(ledger, s) && p != first && r.filled == first.qty {
        OrphanedAnew(W(), AsSet(first.stop));
        OrphanedElsewhere(W(), AsSet(first.stop), s);
        orphans := orphans + AsSet(first.stop);
      }
      Stranded(w0, W(), s);
      StopSoldAll(s, r.filled);
      StopIsDone(s, r);
      sale := r;
      var closed := BookSale(ledger, s, r, true, true);
      return if closed.Raised? then Raised(closed.failure) else Done(true), sale;
    }

    lemma StopIsSold(s: string, p: Position, news: StopNews, held: nat)
      requires SoldWhole(s, p, news)
      ensures SoldBy(broker.book, s, StopSale(p.stop.value, news, held), held)
    {
    }

    lemma FirstFits(s: string)
      requires Consistent(W()) && s in ledger
      ensures FitPosition(ledger[s], s, broker.book)
    {
      hide Safe, OneUnresolved, Bare, OpenSymbols;
    }

    lemma OrphanedElsewhere(w: World, more: set<nat>, s: string)
      ensures ProtectedElsewhere(w.(orphans := w.orphans + more), s) <==> ProtectedElsewhere(w, s)
    {
      hide StopConfirmed;
    }

    /** Only a stop of `s` may have joined the orphans. */
    lemma Stranded(w: World, w': World, s: string)
      requires w' == w.(orphans := w'.orphans) && w.orphans <= w'.orphans
      requires forall k :: k in w'.orphans && k !in w.orphans ==> SellOrder(w.book, s, k)
      ensures Spares(w, w', s)
    {
      hide Later, OrphanWorks, OpenSymbols;
      LaterRefl(w.book);
      LaterIsOnward(w.book, w.book, s);
    }

    lemma ReadyIsKnown()
      requires Ready()
      ensures Existing(broker.book, orphans)
    {
      ReadyHasOrders(W());
    }

    lemma StopIsDone(s: string, sale: OrderResult)
      requires s in ledger && sale.filled <= ledger[s].qty && sale.status == FILLED
      requires SoldBy(broker.book, s, sale, ledger[s].qty) && ReadyWith(Booked(W(), s, sale.filled))
      ensures ExitDone(s, sale)
    {
      hide SoldBy, ReadyWith, OpenSymbols;
    }

    /** A position the broker no longer lists degrades. */
    method SyncMissing() returns (out: Outcome<()>)
      requires Ready()
      modifies shared, broker`tick, broker`book, broker`told
      ensures Ready() && Later(old(broker.book), broker.book)
      ensures FlagKept()
    {
      hide Later, Bare, Safe, Fit, OneUnresolved, Protected, HoldingSymbols, OpenSymbols;
      ghost var b := broker.book;
      var positions := ListPositions();
      if positions.Raised? && !positions.failure.Fault? { return Raised(positions.failure); }
      if positions.Raised? {
        ghost var b1 := broker.book;
        out := SetDegraded();
        LaterTrans(b, b1, broker.book);
        return;
      }
      var listed := set i | 0 <= i < |positions.value| && 0 < positions.value[i].qty :: positions.value[i].symbol;
      var left := ledger.Keys;
      while left != {}
        invariant Ready() && Later(b, broker.book)
        invariant FlagKept()
        decreases |left|
      {
        var s :| s in left;
        left := left - {s};
        if s !in listed {
          ghost var b1 := broker.book;
          out := SetDegraded();
          LaterTrans(b, b1, broker.book);
          if out.Raised? { return; }
        }
      }
      return Done(());
    }

    /** One pass over the positions there were when it started. */
    method Tick() returns (out: Outcome<nat>)
      requires Ready()
      modifies this`ledger, this`orphans, this`exposed, this`nextExit
      modifies shared, broker`tick, broker`book, broker`uncovered, broker`told, trades
      ensures if out == Raised(Killed) then Consistent(W()) else Ready()
      ensures Uncovers(old(W()), W()) && old(orphans) <= orphans
      ensures orphans != old(orphans) ==> shared.alarm || out == Raised(Killed) || Doubles(old(ledger)) != {}
      ensures exposed <= old(exposed)
      ensures FlagKept()
    {
      hide Later, Ready, ReadyWith, Consistent, Spares, Sells, Uncovers, Spared, OpenSymbols, Keys, Doubled;
      var exits := 0;
      var left := Lots(ledger);
      ghost var w0, done := W(), {};
      ReadyHasFit();
      SparedNone(w0);
      while left != {}
        invariant Ready() && Spared(w0, W(), done) && left <= Lots(w0.ledger)
        invariant forall lot :: lot in left && lot.0 in done ==> Doubled(w0.ledger, lot.0)
        invariant orphans != w0.orphans ==> shared.alarm || Doubles(w0.ledger) != {}
        invariant forall t :: Doubled(ledger, t) ==> Doubled(w0.ledger, t)
        invariant exposed <= old(exposed)
        invariant FlagKept()
        decreases |left|
      {
        var lot :| lot in left;
        var s := lot.0;
        LotsOnce(w0.ledger, left, lot);
        left := left - {lot};
        ghost var w := W();
        var closed; ghost var sale;
        closed, sale := CheckPosition(s, lot.1);
        ReadyHasFit();
        SellsShrink(broker.book, w.ledger, ledger, s, sale);
        assert Doubled(w.ledger, s) ==> s in Doubles(w0.ledger) by { DoublesHas(w0.ledger, s); }
        SparedOne(w0, w, W(), s, done);
        done := done + {s};
        SparedUncovers(w0, W(), done);
        if closed.Raised? { return Raised(closed.failure); }
        if closed.value { exits := exits + 1; }
      }
      ghost var w := W();
      var synced := SyncMissing();
      SparedLater(w0, w, W(), done);
      SparedUncovers(w0, W(), done);
      ReadyHasFit();
      return if synced.Raised? then Raised(synced.failure) else Done(exits);
    }

    lemma DoublesHas(l: Ledger, s: string)
      ensures Doubled(l, s) ==> s in Doubles(l)
    {
    }

    lemma SellsShrink(b: Book, l: Ledger, l': Ledger, s: string, sale: OrderResult)
      requires Sells(b, l, l', s, sale)
      ensures forall t :: Doubled(l', t) ==> Doubled(l, t)
    {
    }

    /** A symbol listed once has one position. */
    lemma LotsOnce(l: Ledger, left: set<(string, Option<nat>)>, lot: (string, Option<nat>))
      requires left <= Lots(l) && lot in left
      ensures Doubled(l, lot.0) || forall other :: other in left - {lot} ==> other.0 != lot.0
    {
      if !Doubled(l, lot.0) {
        assert forall other :: other in left && other.0 == lot.0 ==>
          other.1 in Keys(l[lot.0]) && other.1 == l[lot.0].row;
        assert lot.1 in Keys(l[lot.0]);
      }
    }

    lemma SparedUncovers(w0: World, w: World, done: set<string>)
      requires Spared(w0, w, done)
      ensures Uncovers(w0, w) && w0.orphans <= w.orphans
    {
      hide Uncovers;
    }

    lemma ReadyHasFit()
      ensures Ready() ==> Consistent(W())
      ensures Consistent(W()) ==> Fit(W())
    {
      hide Safe, Protected, OneUnresolved, Bare, Fit, OpenSymbols;
    }

    // ---- the square-off ----

    /** One position of the square-off: `Done(true)` is accounted for, `Done(false)` an error, which may
        still have been booked. A position that is gone by then is an error. */
    method SquareOffOne(s: string, row: Option<nat>) returns (out: Outcome<bool>, sale: OrderResult)
      requires Ready()
      modifies this`ledger, this`orphans, this`nextExit
      modifies shared, broker`tick, broker`book, broker`uncovered, broker`told, trades
      ensures if out == Raised(Killed) then Consistent(W()) else Ready()
      ensures Spares(old(W()), W(), s)
      ensures orphans != old(orphans) ==> shared.alarm || out == Raised(Killed)
      ensures FlagKept()
      ensures Sells(broker.book, old(ledger), ledger, s, sale)
      ensures out == Done(true) ==> 0 < sale.filled
      ensures out != Raised(Fault)
    {
      hide Later, ReadyWith, Consistent, Spares, Booked, SoldBy, Sells, SameBut, PositionAt, OpenSymbols;
      ghost var w0 := W();
      ReadyIsKnown();
      sale := NOT_DONE;
      var prices := Wait();
      ReadyIsConsistent();
      SparesNothing(w0, W(), s);
      SellsNothing(broker.book, w0.ledger, ledger, s);
      if prices.Raised? { return if prices.failure.Fault? then Done(false) else Raised(prices.failure), sale; }
      ghost var w1 := W();
      var at := PositionAt(ledger, s, row);
      var meant := s in ledger && ledger[s].row == row;
      var exit := PlaceExit(s, if at.Some? then at.value.qty else 0);
      SparesFrom(w0, w1, W(), s);
      SellsNothing(broker.book, w0.ledger, ledger, s);
      if exit.Raised? { return if exit.failure.Fault? then Done(false) else Raised(exit.failure), sale; }
      var r := exit.value;
      FillHasPrice(s, r);
      if (r.status != FILLED && r.status != PARTIAL) || r.filled == 0 || r.average <= 0.0 {
        NothingBooked(W(), s);
        return Done(false), sale;
      }
      sale := r;
      var booked := BookSale(w0.ledger, s, r, false, meant);
      ReadyIsConsistent();
      if booked.Raised? && !booked.failure.Fault? { return Raised(booked.failure), sale; }
      return Done(booked.Done?), sale;
    }

    lemma FillHasPrice(s: string, r: OrderResult)
      requires SoldBy(broker.book, s, r, Held(ledger, s))
      ensures 0 < r.filled ==> 0.0 < r.average
    {
    }

    /** The loop over the positions: how many were accounted for, how many were errors, and what was booked. */
    method ExitEvery() returns (out: Outcome<(nat, nat, seq<Sale>)>)
      requires Ready()
      modifies this`ledger, this`orphans, this`nextExit
      modifies shared, broker`tick, broker`book, broker`uncovered, broker`told, trades
      ensures if out == Raised(Killed) then Consistent(W()) else Ready()
      ensures Uncovers(old(W()), W()) && old(orphans) <= orphans
      ensures orphans != old(orphans) ==> shared.alarm || out == Raised(Killed)
      ensures FlagKept()
      ensures out.Done? ==> Accounted(broker.book, old(ledger), ledger, out.value.2)
      ensures out.Done? ==> out.value.0 + out.value.1 == |Lots(old(ledger))|
      ensures out != Raised(Fault)
    {
      hide Later, Bare, Ready, Consistent, Spares, Spared, Sells, SoldBy, Grown, Accounted, Uncovers, OpenSymbols,
        Lots, Held, Doubled;
      var sales: seq<Sale>, accounted, errors := [], 0, 0;
      ghost var w0, done := W(), {};
      var left := Lots(ledger);
      NoneBooked(broker.book, ledger);
      ReadyHasFit();
      SparedNone(w0);
      while left != {}
        invariant Ready() && Spared(w0, W(), done) && left <= Lots(w0.ledger)
        invariant forall lot :: lot in left && lot.0 in done ==> Doubled(w0.ledger, lot.0)
        invariant orphans != w0.orphans ==> shared.alarm
        invariant FlagKept()
        invariant Accounted(broker.book, w0.ledger, ledger, sales)
        invariant forall i :: 0 <= i < |sales| ==> sales[i].symbol in done
        invariant accounted + errors + |left| == |Lots(w0.ledger)|
        decreases |left|
      {
        var lot :| lot in left;
        var s := lot.0;
        LotsOnce(w0.ledger, left, lot);
        left := left - {lot};
        ghost var w := W();
        var held := Held(ledger, s);
        var exited, sale := SquareOffOne(s, lot.1);
        ReadyHasFit();
        AlsoSold(w0, w, W(), sales, s, sale, done);
        done := done + {s};
        if exited.Raised? { return Raised(exited.failure); }
        sales := sales + [Sale(s, held, sale)];
        if exited.value { accounted := accounted + 1; } else { errors := errors + 1; }
      }
      SparedUncovers(w0, W(), done);
      return Done((accounted, errors, sales));
    }

    /** One position more. */
    lemma AlsoSold(w0: World, w: World, w': World, sales: seq<Sale>, s: string, sale: OrderResult, done: set<string>)
      requires Spared(w0, w, done) && (s !in done || Doubled(w0.ledger, s)) && Spares(w, w', s) && Fit(w')
      requires Accounted(w.book, w0.ledger, w.ledger, sales) && Sells(w'.book, w.ledger, w'.ledger, s, sale)
      requires Doubled(w0.ledger, s) || forall i :: 0 <= i < |sales| ==> sales[i].symbol != s
      ensures Spared(w0, w', done + {s}) && Uncovers(w0, w') && w0.orphans <= w'.orphans
      ensures Accounted(w'.book, w0.ledger, w'.ledger, sales + [Sale(s, Held(w.ledger, s), sale)])
    {
      hide Spared, Spares, Sells, SoldBy, Grown, Accounted, Uncovers, Fit;
      SparedOne(w0, w, w', s, done);
      SparesOnward(w, w', s);
      OneMore(w.book, w'.book, w0.ledger, w.ledger, w'.ledger, sales, s, sale);
      SparedUncovers(w0, w', done + {s});
    }

    lemma SparesOnward(w: World, w': World, s: string)
      requires Spares(w, w', s)
      ensures Onward(w.book, w'.book, s)
    {
      hide Onward, OrphanWorks;
    }

    /** `eod_square_off`: exit every position, book what the broker confirms, and claim the account flat
        only with nothing left anywhere. `stage` is where it returned or raised; `marked` says that one of the
        exits halted trading, having left an order unknown or a booking unstored. When it raises, and no
        operator lifted a halt meanwhile, trading is halted exactly when it was before the call, an exit or
        another task halted it, or it was the last save that raised. An exception, rather than a
        cancellation, can only come from reading the open orders. */
    method EodSquareOff() returns (out: Outcome<SquareOff>, ghost stage: Stage, ghost marked: bool)
      requires Ready()
      modifies this`ledger, this`orphans, this`nextExit
      modifies shared, broker`tick, broker`book, broker`uncovered, broker`told, trades
      ensures if out == Raised(Killed) then Consistent(W()) else Ready()
      ensures Uncovers(old(W()), W()) && old(orphans) <= orphans
      ensures orphans != old(orphans) ==> shared.alarm || out == Raised(Killed)
      ensures FlagKept()
      ensures out.Done? ==> Accounted(broker.book, old(ledger), ledger, out.value.sales)
      ensures out.Done? && !out.value.ok ==> old(shared.marks) < shared.marks
      ensures out.Raised? && shared.resumes == old(shared.resumes) ==>
        (shared.halted <==> old(shared.halted) || marked || old(shared.halts) < shared.halts || stage.Closing?)
      ensures marked ==> old(shared.marks) < shared.marks
      ensures out == Raised(Fault) ==> stage.Reading?
      ensures out.Done? && out.value.ok ==> out.value.accounted == |Lots(old(ledger))|
      ensures out.Done? && out.value.ok ==>
        ledger == map[] && !AnyUnresolved(trades.rows) && forall s :: Net(broker.book, s) == 0
    {
      hide Later, Bare, Ready, Consistent, Uncovers, Grown, Accounted, AnyUnresolved, Accurate, Net, OpenSymbols;
      ghost var w0 := W();
      var exits := ExitEvery();
      stage, marked := Exits, old(shared.marks) < shared.marks;
      if exits.Raised? { return Raised(exits.failure), stage, marked; }
      var (accounted, errors, sales) := exits.value;
      ghost var w := W();
      UncoversOn(w0, w);
      var ended;
      ended, stage := CloseSquareOff(accounted, errors, sales, w0.ledger);
      return ended, stage, marked;
    }

    /** What follows the exits: the open orders, the broker's positions, and a halt unless all is flat. */
    method CloseSquareOff(accounted: nat, failed: nat, sales: seq<Sale>, ghost before: Ledger)
      returns (out: Outcome<SquareOff>, ghost stage: Stage)
      requires Ready() && Accounted(broker.book, before, ledger, sales)
      modifies shared, broker`tick, broker`book, broker`told
      ensures Ready() && Consistent(W()) && FlagKept()
      ensures out.Done? ==> Accounted(broker.book, before, ledger, out.value.sales) && out.value.accounted == accounted
      ensures out.Done? && !out.value.ok ==> old(shared.marks) < shared.marks
      ensures !stage.Exits? && (out.Raised? && !stage.Closing? ==> shared.marks == old(shared.marks))
      ensures stage.Closing? ==> old(shared.marks) < shared.marks
      ensures out == Raised(Fault) ==> stage.Reading?
      ensures out.Done? && out.value.ok ==> failed == 0
      ensures out.Done? && out.value.ok ==>
        ledger == map[] && !AnyUnresolved(trades.rows) && forall s :: Net(broker.book, s) == 0
    {
      hide Later, Bare, ReadyWith, Consistent, Accounted, AnyUnresolved, Accurate, Net, OpenSymbols;
      var errors := failed;
      ghost var b := broker.book;
      var read := Wait();
      ReadyIsConsistent();
      BooksStay(b, broker.book, before, ledger, sales);
      stage := Reading;
      if read.Raised? { return Raised(read.failure), stage; }
      if AnyUnresolved(trades.rows) { errors := errors + 1; }
      b := broker.book;
      var positions := ListPositions();
      ReadyIsConsistent();
      BooksStay(b, broker.book, before, ledger, sales);
      stage := Listing;
      if positions.Raised? && !positions.failure.Fault? { return Raised(positions.failure), stage; }
      if positions.Raised? { errors := errors + 1; }
      var remaining := if positions.Done? then positions.value else [];
      if errors == 0 && remaining == [] && ledger == map[] {
        NothingHeld(broker.book, remaining);
        return Done(SquareOff(true, accounted, sales, remaining)), stage;
      }
      Halt();
      stage := Closing;
      b := broker.book;
      var stored := Save();
      ReadyIsConsistent();
      BooksStay(b, broker.book, before, ledger, sales);
      if stored.Raised? { return Raised(stored.failure), stage; }
      return Done(SquareOff(false, accounted, sales, remaining)), stage;
    }

    lemma UncoversOn(w0: World, w: World)
      requires Uncovers(w0, w)
      ensures forall w': World :: w'.uncovered == w.uncovered ==> Uncovers(w0, w')
    {
      hide OrphanWorks;
    }

    /** `activate_kill_switch`. */
    method KillSwitch() returns (out: Outcome<SquareOff>)
      requires Ready()
      modifies this`ledger, this`orphans, this`nextExit
      modifies shared, broker`tick, broker`book, broker`uncovered, broker`told, trades
      ensures if out == Raised(Killed) then Consistent(W()) else Ready()
      ensures Uncovers(old(W()), W()) && old(orphans) <= orphans
      ensures old(shared.marks) < shared.marks && FlagKept()
      ensures orphans != old(orphans) ==> shared.alarm || out == Raised(Killed)
    {
      hide Ready, Consistent, Later, Accounted, Spared, Uncovers, OpenSymbols;
      ghost var w0 := W();
      Halt();
      ReadyHasFit();
      SparedNone(W());
      var stored := Save();
      ReadyIsConsistent();
      SparedLater(w0, w0, W(), {});
      SparedUncovers(w0, W(), {});
      if stored.Raised? { return Raised(stored.failure); }
      ghost var w1 := W();
      ghost var stage, marked;
      out, stage, marked := EodSquareOff();
      UncoversAfter(w0, w1, W());
    }

    /** Steps after mere market moves. */
    lemma UncoversAfter(w0: World, w1: World, w: World)
      requires Spared(w0, w1, {}) && Uncovers(w1, w) && w1.uncovered == w0.uncovered && w1.ledger == w0.ledger
      ensures Uncovers(w0, w)
    {
      hide OrphanWorks;
    }

    // ---- reconciliation ----

    lemma StillConsistent(w: World)
      requires Consistent(w) && Later(w.book, broker.book) && broker.Latched()
      requires W() == w.(book := broker.book, told := broker.told, degraded := shared.alarm)
      ensures Consistent(W())
    {
      hide Later, Bare, Safe, OneUnresolved, FitLedger, OpenSymbols;
      LaterGrows(w.book, broker.book);
      FitStays(w, w.(book := broker.book));
      SafeStays(w, W());
    }

    // At startup nothing else runs, so the flag is all there is to the alarm.

    /** Ask the broker about the stop of every row that matches a ledger position. */
    method AskStops(holdings: seq<Holding>) returns (out: Outcome<map<nat, OrderReport>>)
      requires Consistent(W())
      modifies broker`tick, broker`book, broker`told
      ensures Consistent(W())
      ensures out.Done? ==> forall k :: k in out.value ==> k in broker.told && broker.told[k] == out.value[k]
    {
      hide Later, Bare, Safe, Fit, OneUnresolved, OpenSymbols;
      var reports: map<nat, OrderReport>, i := map[], 0;
      while i < |holdings|
        invariant 0 <= i <= |holdings|
        invariant Consistent(W())
        invariant forall k :: k in reports ==> k in broker.told && broker.told[k] == reports[k]
      {
        var h := holdings[i];
        if h.symbol in ledger && Abs(Last(ledger[h.symbol]).qty as real - h.qty as real) <= TOLERANCE
          && Last(ledger[h.symbol]).stop.Some? {
          ghost var w := W();
          var k := Last(ledger[h.symbol]).stop.value;
          var stop := broker.FetchStatus(k);
          StillConsistent(w);
          if stop.Raised? { return Raised(stop.failure); }
          reports := reports[k := stop.value];
        }
        i := i + 1;
      }
      return Done(reports);
    }

    method Fail() returns (out: Outcome<Status>)
      requires Consistent(W())
      modifies shared`degraded, shared`alarm, broker`tick, broker`book
      ensures Ready() && shared.alarm && shared.degraded && (out.Done? ==> out.value == Degraded)
    {
      hide Later, Bare, Safe, Fit, OneUnresolved, ReadyWith, OpenSymbols;
      ghost var w := W();
      shared.degraded, shared.alarm := true, true;
      var told := broker.Await();
      StillConsistent(w);
      ConsistentlyDegraded(W());
      return if told.Raised? then Raised(told.failure) else Done(Degraded);
    }

    /** Compare the broker's rows with the ledger, and set or clear the degraded flag. */
    method Compare(unresolved: bool, holdings: seq<Holding>) returns (out: Outcome<Status>)
      requires Consistent(W()) && shared.alarm == shared.degraded && unresolved == AnyUnresolved(trades.rows)
      modifies this`exposed
      modifies shared`degraded, shared`alarm, broker`tick, broker`book, broker`told
      ensures Consistent(W()) && shared.alarm == shared.degraded
      ensures out.Done? || old(shared.alarm) ==> Ready()
      ensures out.Done? ==> (out.value == OK <==> !shared.alarm)
      ensures out == Done(OK) || (old(shared.alarm) && !shared.alarm) ==>
        !AnyUnresolved(trades.rows) && exposed == Doubles(ledger) && forall s :: s in ledger ==>
          Doubled(ledger, s) || ProtectedAt(W(), s)
      ensures exposed <= old(exposed)
    {
      hide Later, Bare, Safe, Fit, OneUnresolved, ProtectedAt, Protected, CleanSoFar, HoldingSymbols, AnyUnresolved,
        OpenSymbols;
      var reports := AskStops(holdings);
      DegradedIsProtected(W());
      if reports.Raised? { return Raised(reports.failure); }
      var internal := Internals(ledger);
      var answers := (k: nat) => if k in reports.value then reports.value[k] else UNKNOWN_REPORT;
      var issues := CountIssues(unresolved, holdings, internal, answers);
      if issues != 0 {
        out := Fail();
        return;
      }
      ghost var v := W();
      DoublesExposed(v);
      shared.degraded, shared.alarm, exposed := false, false, Doubles(ledger);
      Reflagged(v, v.(degraded := false));
      Reexposed(v.(degraded := false), exposed);
      ghost var w := W();
      var cleared := broker.Await();
      StillConsistent(w);
      CleanIsProtected(W(), holdings, internal, answers);
      return if cleared.Raised? then Raised(cleared.failure) else Done(OK);
    }

    /** `reconcile_on_startup`, live, with nothing else running. It starts from a ledger whose stops may be
        unknown, and takes the flag down only with no order unresolved and every position confirmed. */
    method Reconcile() returns (out: Outcome<Status>)
      requires Consistent(W()) && shared.alarm == shared.degraded
      modifies this`exposed
      modifies shared`degraded, shared`alarm, broker`tick, broker`book, broker`told
      ensures Consistent(W()) && shared.alarm == shared.degraded
      ensures out.Done? || old(shared.alarm) ==> Ready()
      ensures out.Done? ==> (out.value == OK <==> !shared.alarm)
      ensures out == Done(OK) || (old(shared.alarm) && !shared.alarm) ==>
        !AnyUnresolved(trades.rows) && exposed == Doubles(ledger) && forall s :: s in ledger ==>
          Doubled(ledger, s) || ProtectedAt(W(), s)
      ensures exposed <= old(exposed)
    {
      hide Later, Bare, Safe, Fit, OneUnresolved, ProtectedAt, Protected, AnyUnresolved, OpenSymbols;
      ghost var w := W();
      var read := broker.Await();
      StillConsistent(w);
      DegradedIsProtected(W());
      if read.Raised? { return Raised(read.failure); }
      var unresolved := AnyUnresolved(trades.rows);
      w := W();
      var positions := broker.FetchPositions();
      StillConsistent(w);
      DegradedIsProtected(W());
      if positions.Raised? && !positions.failure.Fault? { return Raised(positions.failure); }
      if positions.Raised? {
        out := Fail();
        return;
      }
      out := Compare(unresolved, positions.value);
    }

    // ---- entries ----

    /** Between two awaits of an entry into `s` whose row is `EntryRow(key)`. */
    ghost predicate Entering(s: string, key: string)
      reads this, broker, trades, shared
    {
      MidEntry(W(), s, key) && Safe(W()) && broker.Latched()
    }

    /** The purchase `x`: unless the symbol was uncovered before, the account has its fills to spare. */
    ghost predicate Buying(s: string, x: nat, qty: nat)
      reads this, broker
    {
      BuyOrder(broker.book, s, x, qty) && (s in broker.uncovered || 0 <= Spare(broker.book, s, x))
    }

    lemma EnteringIsReady(s: string, key: string)
      requires Entering(s, key)
      ensures Ready() && s !in ledger && EntryRow(key) in trades.rows
    {
      hide Safe, Fit, OneUnresolved, Protected, Bare, OpenSymbols;
    }

    /** An await of an entry: only the market moves, flags go up, a save goes through, the entry's row may
        be written. */
    lemma EntryAwaits(w: World, s: string, key: string, status: RowStatus)
      requires MidEntry(w, s, key) && Safe(w) && broker.Latched()
      requires Later(w.book, broker.book) && ledger == w.ledger && nextExit == w.nextExit
        && (w.degraded ==> shared.alarm)
      requires shared.alarm || forall k :: k in w.told && !OrderOf(broker.book, s, k) ==>
        k in broker.told && broker.told[k] == w.told[k]
      requires trades.rows == w.rows || trades.rows == Updated(w.rows, EntryRow(key), status)
      requires shared.saved == w.saved || shared.saved == Synced(w.saved, w.ledger)
      requires broker.uncovered == w.uncovered && orphans == w.orphans
      requires exposed == w.exposed && overlaid == w.overlaid
      ensures Entering(s, key)
    {
      hide Safe, Bare, Onward, Later, Updated, Synced, OneUnresolved, Protected, FitLedger, OpenSymbols;
      LaterIsOnward(w.book, broker.book, s);
      LaterGrows(w.book, broker.book);
      MidEntryStays(w, W(), s, key, status);
    }

    lemma BuyingStays(b: Book, s: string, x: nat, qty: nat)
      requires BuyOrder(b, s, x, qty) && (s in broker.uncovered || 0 <= Spare(b, s, x)) && Later(b, broker.book)
      ensures Buying(s, x, qty) && b.orders[x].filled <= broker.book.orders[x].filled
    {
      hide Later, Spare, OpenSymbols;
      BuyOrderStays(b, broker.book, s, x, qty);
    }

    /** Why entries are refused before anything is written. */
    method PreExecutionBlock() returns (out: Outcome<bool>)
      requires Ready()
      modifies shared, broker`tick, broker`book, broker`told
      ensures FlagKept()
      ensures Ready()
      ensures |broker.book.orders| == |old(broker.book).orders|
      ensures out == Done(false) ==> !AnyUnresolved(trades.rows)
      ensures old(shared.degraded) && shared.verdicts == old(shared.verdicts) ==> out != Done(false)
      ensures old(shared.halted) && shared.resumes == old(shared.resumes) ==> out != Done(false)
    {
      hide Ready, Reach, Offered, Spare, OpenSymbols;
      var paused := Wait();
      if paused.Raised? { return Raised(paused.failure); }
      if !paused.value.allowed { return Done(true); }
      if shared.degraded { return Done(true); }
      var stopped := Wait();
      if stopped.Raised? { return Raised(stopped.failure); }
      if !stopped.value.allowed || shared.halted { return Done(true); }
      var read := Wait();
      if read.Raised? { return Raised(read.failure); }
      if AnyUnresolved(trades.rows) { return Done(true); }
      return Done(!read.value.allowed);
    }

    /** Stop the filled part of a purchase `x`, whose fills the account has to spare. A stop whose reply is
        lost joins the orphans, with whatever else offers the symbol. */
    method ProtectPurchase(s: string, key: string, x: nat, qty: nat, r: Settlement, stopPrice: real)
      returns (out: Outcome<OrderResult>)
      requires Entering(s, key) && Buying(s, x, qty)
      requires 0 < r.filled <= broker.book.orders[x].filled && 0.0 < r.average
      requires r.status == FILLED ==> Final(broker.book.orders[x], r.filled)
      modifies this`orphans
      modifies shared, broker`tick, broker`book, broker`uncovered, broker`told, trades`rows
      ensures Entering(s, key)
      ensures broker.uncovered == old(broker.uncovered) && old(orphans) <= orphans
      ensures orphans != old(orphans) ==> shared.alarm
      ensures FlagKept()
      ensures trades.rows == old(trades.rows) || trades.rows == Updated(old(trades.rows), EntryRow(key), Unclear)
      ensures out.Done? ==>
        Recordable(W(), s, qty, out.value) && out.value.filled == r.filled && out.value.status == r.status
      ensures out.Done? ==>
        forall k :: |old(broker.book).orders| <= k < |broker.book.orders| && Open(broker.book.orders[k]) != 0 ==>
          out.value.stop == Some(k) || k in orphans
    {
      hide MidEntry, Safe, Later, Bare, Reach, Spare, Confirmed, Onward, Backed, Synced, Grown, Updated, AliveSells,
        OpenSymbols;
      ghost var w := W();
      var attached; ghost var y;
      attached, y := PlaceEntryStop(s, key, x, qty, r.filled, stopPrice);
      ghost var p := W();
      if attached.Done? && attached.value.stop.None? && y.Some? { orphans := orphans + AliveSells(broker.book, s); }
      AliveExist(broker.book, s);
      MidEntryStays(w, W(), s, key, Unclear);
      if attached.Raised? { return Raised(attached.failure); }
      PurchaseBacked(p, W(), s, r.filled, attached.value.stop, y);
      var unknown := r.unknown || attached.value.unknown;
      return Done(OrderResult(r.status, Some(x), r.filled, r.average, attached.value.stop, unknown));
    }

    method PlaceEntryStop(s: string, key: string, x: nat, qty: nat, filled: nat, stopPrice: real)
      returns (attached: Outcome<Attached>, ghost y: Option<nat>)
      requires Entering(s, key) && Buying(s, x, qty) && filled <= broker.book.orders[x].filled
      modifies shared, broker`tick, broker`book, broker`uncovered, broker`told, trades`rows
      ensures Onward(old(broker.book), broker.book, s) && broker.Latched() && Existing(broker.book, orphans)
      ensures broker.uncovered == old(broker.uncovered)
      ensures FlagKept()
      ensures trades.rows == old(trades.rows) || trades.rows == Updated(old(trades.rows), EntryRow(key), Unclear)
      ensures shared.saved == old(shared.saved) || shared.saved == Synced(old(shared.saved), ledger)
      ensures shared.alarm || forall k :: k in old(broker.told) && !OrderOf(broker.book, s, k) ==>
        k in broker.told && broker.told[k] == old(broker.told)[k]
      ensures BuyOrder(broker.book, s, x, qty) && filled <= broker.book.orders[x].filled
      ensures Final(old(broker.book).orders[x], filled) ==> Final(broker.book.orders[x], filled)
      ensures y.Some? ==> SellOrder(broker.book, s, y.value)
      ensures |broker.book.orders| == |old(broker.book).orders| + (if y.Some? then 1 else 0)
      ensures y.Some? ==> y.value == |old(broker.book).orders|
      ensures s in broker.uncovered || filled <= Reach(broker.book, s, AsSet(y))
      ensures attached.Done? && attached.value.stop.Some? ==> attached.value.stop == y
      ensures attached.Done? && attached.value.stop.None? ==> attached.value.unknown
      ensures attached.Done? && attached.value.unknown ==> shared.alarm
      ensures attached.Done? && !attached.value.unknown ==>
        y.Some? && y.value in broker.told && Confirmed(broker.told[y.value], s, filled)
    {
      hide MidEntry, Safe, Later, Bare, Reach, Spare, Confirmed, Onward, Synced, Updated, OpenSymbols;
      ghost var w := W();
      EntryHasOrders(w, s, key);
      ghost var mid;
      attached, y, mid := AttachStop(EntryRow(key), s, filled, stopPrice, product, exchange);
      SentIsOnward(w.book, mid, broker.book, s, Sell, filled, y.Some?);
      PurchaseStopped(w, mid, s, x, qty, filled, y);
    }

    lemma AliveExist(b: Book, s: string)
      ensures Existing(b, AliveSells(b, s))
      ensures forall k: nat :: SellOrder(b, s, k) && Open(b.orders[k]) != 0 ==> k in AliveSells(b, s)
    {
    }

    lemma EntryHasOrders(w: World, s: string, key: string)
      requires MidEntry(w, s, key)
      ensures Existing(w.book, w.orphans)
    {
      hide Protected, OneUnresolved;
    }

    /** The stop of a purchase uncovers nothing, and is backed by what the account holds. */
    lemma PurchaseStopped(w: World, mid: Book, s: string, x: nat, qty: nat, filled: nat, y: Option<nat>)
      requires BuyOrder(w.book, s, x, qty) && (s in w.uncovered || 0 <= Spare(w.book, s, x))
        && filled <= w.book.orders[x].filled
      requires Later(w.book, mid) && Bare(mid) <= w.uncovered
      requires y.None? ==> Later(mid, broker.book)
      requires y.Some? ==> y.value == |mid.orders| && Later(Submitted(mid, s, Sell, filled), broker.book)
      requires broker.uncovered == w.uncovered + (if y.Some? then Bare(Submitted(mid, s, Sell, filled)) else iset{})
      requires Existing(w.book, orphans)
      ensures broker.uncovered == w.uncovered
      ensures BuyOrder(broker.book, s, x, qty) && filled <= broker.book.orders[x].filled
      ensures Final(w.book.orders[x], filled) ==> Final(broker.book.orders[x], filled)
      ensures y.Some? ==> SellOrder(broker.book, s, y.value) && y.value == |w.book.orders|
      ensures |broker.book.orders| == |w.book.orders| + (if y.Some? then 1 else 0)
      ensures Existing(broker.book, orphans)
      ensures s in broker.uncovered || filled <= Reach(broker.book, s, AsSet(y))
    {
      hide Later, Bare, Reach, Spare, OpenSymbols;
      Bared(w, mid, broker.uncovered, s, filled, y.Some?);
      PurchaseKept(w.book, mid, broker.book, s, x, qty, filled, y);
      LaterGrows(w.book, mid);
      if y.Some? {
        AcceptedStop(w.book, mid, broker.book, s, filled);
        AcceptedSell(w.book, mid, broker.book, s, filled);
        LaterGrows(Submitted(mid, s, Sell, filled), broker.book);
      } else {
        LaterGrows(mid, broker.book);
      }
      if s !in w.uncovered { SpareCovers(w.book, s, x, qty); }
    }

    lemma PurchaseBacked(p: World, w: World, s: string, filled: nat, stop: Option<nat>, y: Option<nat>)
      requires w == p.(orphans := w.orphans)
      requires s in p.uncovered || filled <= Reach(p.book, s, AsSet(y))
      requires stop == y || (stop.None? && w.orphans == p.orphans + AliveSells(p.book, s))
      ensures Backed(w, s, filled, AsSet(stop))
    {
      hide Reach, Offered;
      if stop != y { NothingElseOffers(w.book, s, AsSet(stop) + w.orphans); }
    }

    /** A purchase polling did not settle: cancel it and ask once more. A mark that polling left stays,
        also when the end is known now. */
    method CancelPurchase(s: string, key: string, x: nat, qty: nat, polled: Settlement)
      returns (out: Outcome<Settlement>)
      requires Entering(s, key) && Buying(s, x, qty)
      requires polled.filled <= broker.book.orders[x].filled && (0 < polled.filled ==> 0.0 < polled.average)
      requires polled.status != FILLED && (polled.status == SUBMITTED ==> polled.filled == 0)
      modifies shared, broker`tick, broker`book, broker`told, trades`rows
      ensures Entering(s, key) && Buying(s, x, qty) && Later(old(broker.book), broker.book)
      ensures FlagKept()
      ensures trades.rows == old(trades.rows) || trades.rows == Updated(old(trades.rows), EntryRow(key), Unclear)
      ensures out.Done? ==>
        out.value.filled <= broker.book.orders[x].filled && (0 < out.value.filled ==> 0.0 < out.value.average)
      ensures out.Done? && out.value.status != FILLED && out.value.status != REJECTED ==>
        && shared.alarm && out.value == polled.(unknown := true)
        && trades.rows == Updated(old(trades.rows), EntryRow(key), Unclear)
      ensures out.Done? && (out.value.status == FILLED || out.value.status == REJECTED) && polled.status != REJECTED ==>
        Final(broker.book.orders[x], out.value.filled) && out.value.unknown == polled.unknown
        && (out.value.status == FILLED <==> 0 < out.value.filled)
    {
      hide MidEntry, Safe, Later, Bare, Reach, Spare, Synced, OpenSymbols;
      ghost var b := broker.book;
      var report := AskPurchase(s, key, x, qty);
      if report.Raised? { return Raised(report.failure); }
      ghost var w;
      if !Terminal(report.value.status) {
        w := W();
        var marked := MarkUnknown(EntryRow(key));
        EntryAwaits(w, s, key, Unclear);
        BuyingStays(w.book, s, x, qty);
        LaterTrans(b, w.book, broker.book);
        return if marked.Raised? then Raised(marked.failure) else Done(polled.(unknown := true));
      }
      var filled: nat := OrZero(report.value.filled);
      var status := if 0 < filled then FILLED else REJECTED;
      return Done(Settlement(status, filled, report.value.averagePrice, polled.unknown));
    }

    method AskPurchase(s: string, key: string, x: nat, qty: nat) returns (out: Outcome<OrderReport>)
      requires Entering(s, key) && Buying(s, x, qty)
      modifies shared, broker`tick, broker`book, broker`told
      ensures Entering(s, key) && Buying(s, x, qty) && Later(old(broker.book), broker.book)
      ensures FlagKept()
      ensures old(broker.book).orders[x].filled <= broker.book.orders[x].filled
      ensures out.Done? ==> Reliable(broker.book.orders[x], out.value)
    {
      hide MidEntry, Safe, Later, Bare, Reach, Spare, Synced, Reliable, OpenSymbols;
      ghost var b, w := broker.book, W();
      var cancelled := Cancel(x);
      EntryAwaits(w, s, key, Unclear);
      BuyingStays(w.book, s, x, qty);
      if cancelled.Raised? { return Raised(cancelled.failure); }
      w := W();
      out := FetchStatus(x);
      BuyingStays(w.book, s, x, qty);
      LaterTrans(b, w.book, broker.book);
      EntryAwaits(w, s, key, Unclear);
    }

    /** The try block of `_submit_live`: follow the purchase, cancel it when polling does not settle it,
        and protect what it bought. */
    method SettlePurchase(s: string, key: string, x: nat, qty: nat, stopPrice: real) returns (out: Outcome<OrderResult>)
      requires Entering(s, key) && Buying(s, x, qty)
      modifies this`orphans
      modifies shared, broker`tick, broker`book, broker`uncovered, broker`told, trades`rows
      ensures Entering(s, key)
      ensures broker.uncovered == old(broker.uncovered) && old(orphans) <= orphans
      ensures orphans != old(orphans) ==> shared.alarm
      ensures FlagKept()
      ensures trades.rows == old(trades.rows) || trades.rows == Updated(old(trades.rows), EntryRow(key), Unclear)
      ensures out.Done? ==> Recordable(W(), s, qty, out.value)
      ensures out.Done? ==> PurchaseEnds(out.value, shared.alarm, old(trades.rows), trades.rows, key)
      ensures out.Done? && out.value.filled == 0 ==>
        shared.alarm || (|broker.book.orders| == |old(broker.book).orders| && Final(broker.book.orders[x], 0))
    {
      hide MidEntry, Entering, Later, Reach, Spare, Confirmed, Recordable, Updated, OpenSymbols;
      ghost var b, rows0 := broker.book, trades.rows;
      var settled := PollPurchase(s, key, x, qty);
      LaterGrows(b, broker.book);
      if settled.Raised? { return Raised(settled.failure); }
      var r := settled.value;
      if r.status != FILLED && r.status != REJECTED {
        ghost var b1 := broker.book;
        settled := CancelPurchase(s, key, x, qty, r);
        LaterGrows(b1, broker.book);
        if settled.Raised? { return Raised(settled.failure); }
        r := settled.value;
      }
      if 0 < r.filled {
        ghost var rows1 := trades.rows;
        out := ProtectPurchase(s, key, x, qty, r, stopPrice);
        TwiceUnclear(rows0, rows1, trades.rows, EntryRow(key));
        return;
      }
      NothingToRecord(W(), s, qty, OrderResult(r.status, Some(x), 0, r.average, None, r.unknown));
      return Done(OrderResult(r.status, Some(x), 0, r.average, None, r.unknown));
    }

    lemma TwiceUnclear(a: Rows, b: Rows, c: Rows, id: RowId)
      requires b == a || b == Updated(a, id, Unclear)
      requires c == b || c == Updated(b, id, Unclear)
      ensures c == a || c == Updated(a, id, Unclear)
    {
      UpdatedTwice(a, id);
    }

    lemma NothingToRecord(w: World, s: string, qty: nat, r: OrderResult)
      requires r.filled == 0
      ensures Recordable(w, s, qty, r)
    {
    }

    method PollPurchase(s: string, key: string, x: nat, qty: nat) returns (out: Outcome<Settlement>)
      requires Entering(s, key) && Buying(s, x, qty)
      modifies shared, broker`tick, broker`book, broker`told
      ensures FlagKept()
      ensures Entering(s, key) && Buying(s, x, qty) && Later(old(broker.book), broker.book)
      ensures out.Done? ==> Settles(broker.book.orders[x], out.value)
    {
      hide MidEntry, Safe, Later, Bare, Reach, Spare, Settles, OpenSymbols;
      ghost var w := W();
      out := ReconcileOrder(x, qty);
      EntryAwaits(w, s, key, Unclear);
      BuyingStays(w.book, s, x, qty);
    }

    /** Something of the order placed since `b` is left to see: its row is unresolved or the flag is up;
        or it bought nothing. */
    ghost predicate Noticed(key: string, b: Book)
      reads shared`alarm, trades`rows, broker`book
    {
      shared.alarm || Pends(trades.rows, key) || NothingBought(b, broker.book)
    }

    /** `_submit_live`. An exception while settling leaves the order unknown and unbooked; such a result's
        fill is never read, and is given as zero. What was bought is never lost silently: it is in the
        result, or the order's row is unresolved, or the degraded flag is up. */
    method SubmitLive(s: string, key: string, qty: nat, stopPrice: real) returns (out: Outcome<OrderResult>)
      requires Entering(s, key)
      modifies this`orphans
      modifies shared, broker`tick, broker`book, broker`uncovered, broker`told, trades`rows
      ensures Entering(s, key)
      ensures broker.uncovered == old(broker.uncovered) && old(orphans) <= orphans
      ensures orphans != old(orphans) ==> shared.alarm
      ensures FlagKept()
      ensures out.Done? ==> Recordable(W(), s, qty, out.value)
      ensures out.Done? && out.value.filled == 0 ==> shared.alarm || NothingBought(old(broker.book), broker.book)
      ensures out.Done? && out.value.status == SUBMITTED ==>
        out.value.unknown && shared.alarm && StatusOf(trades.rows, key) == Some(Unclear)
      ensures out.Done? && 0 < out.value.filled ==>
        (out.value.status == FILLED || out.value.status == PARTIAL) && Pends(trades.rows, key)
      ensures out.Raised? && old(Pends(trades.rows, key)) ==> Noticed(key, old(broker.book))
    {
      hide Entering, Later, Bare, Reach, Spare, Confirmed, Onward, Synced, Recordable, OpenSymbols;
      ghost var b0 := broker.book;
      var placed := SubmitPurchase(s, key, qty);
      if placed.Raised? { return Raised(placed.failure); }
      if placed.value.id.None? {
        var r := OrderResult(placed.value.status, None, 0, 0.0, None, placed.value.unknown);
        NothingToRecord(W(), s, qty, r);
        return Done(r);
      }
      out := SettlePurchase(s, key, placed.value.id.value, qty, stopPrice);
      if out.Raised? && !out.failure.Killed? {
        var marked := GiveUp(s, key);
        if marked.Raised? { return Raised(marked.failure); }
        var r := OrderResult(SUBMITTED, placed.value.id, 0, 0.0, None, true);
        NothingToRecord(W(), s, qty, r);
        return Done(r);
      }
    }

    /** The handler of the try block: the outcome is unknown. */
    method GiveUp(s: string, key: string) returns (out: Outcome<()>)
      requires Entering(s, key)
      modifies shared, broker`tick, broker`book, broker`told, trades`rows
      ensures FlagKept()
      ensures Entering(s, key)
      ensures shared.alarm
      ensures out.Done? ==> StatusOf(trades.rows, key) == Some(Unclear)
    {
      hide MidEntry, Safe, Later, Bare, Synced, OpenSymbols;
      ghost var w := W();
      out := MarkUnknown(EntryRow(key));
      EntryAwaits(w, s, key, Unclear);
      EnteringIsReady(s, key);
    }

    /** The submission and its record. */
    method SubmitPurchase(s: string, key: string, qty: nat) returns (out: Outcome<Placed>)
      requires Entering(s, key)
      modifies shared, broker`tick, broker`book, broker`uncovered, broker`told, trades`rows
      ensures Entering(s, key)
      ensures broker.uncovered == old(broker.uncovered)
      ensures FlagKept()
      ensures out.Done? ==> StatusOf(trades.rows, key) == Some(RowStatusFor(out.value.status, false, out.value.unknown))
      ensures out.Done? && out.value.id.Some? ==>
        && out.value.id.value == |old(broker.book).orders| && |broker.book.orders| == |old(broker.book).orders| + 1
        && Buying(s, out.value.id.value, qty) && out.value.status == SUBMITTED && !out.value.unknown
      ensures out.Done? && out.value.id.None? ==>
        if out.value.unknown then shared.alarm && out.value.status == SUBMITTED
        else out.value.status == REJECTED && |broker.book.orders| == |old(broker.book).orders|
      ensures out.Raised? && old(Pends(trades.rows, key)) ==> Noticed(key, old(broker.book))
    {
      hide Entering, Later, Bare, Spare, BuyOrder, StatusOf, Unresolved, OpenSymbols;
      ghost var b0, sent := broker.book, false;
      out, sent := SendPurchase(s, key, qty);
      if out.Raised? { return; }
      ghost var b := broker.book;
      var recorded := EntryRecord(s, key, out.value.status, false, out.value.unknown);
      LaterGrows(b, broker.book);
      if out.value.id.Some? { BuyingStays(b, s, out.value.id.value, qty); }
      if !out.value.unknown && out.value.id.None? { NoneSent(b0, broker.book); }
      PendsOn(out.value.status, out.value.unknown);
      if recorded.Raised? { out := Raised(recorded.failure); }
    }

    lemma PendsOn(status: OrderStatus, unknown: bool)
      ensures unknown || status == SUBMITTED ==> Unresolved(Row("", Buy, RowStatusFor(status, false, unknown), 0))
    {
    }

    method SendPurchase(s: string, key: string, qty: nat) returns (out: Outcome<Placed>, ghost sent: bool)
      requires Entering(s, key)
      modifies shared, broker`tick, broker`book, broker`uncovered, broker`told, trades`rows
      ensures Entering(s, key)
      ensures broker.uncovered == old(broker.uncovered)
      ensures FlagKept()
      ensures |broker.book.orders| == |old(broker.book).orders| + (if sent then 1 else 0)
      ensures out.Done? && out.value.id.Some? ==>
        && sent && out.value.id.value == |old(broker.book).orders| && Buying(s, out.value.id.value, qty)
        && out.value.status == SUBMITTED && !out.value.unknown
      ensures out.Done? && out.value.id.None? ==>
        if out.value.unknown then shared.alarm && out.value.status == SUBMITTED
        else out.value.status == REJECTED && !sent
      ensures old(Pends(trades.rows, key)) ==> Pends(trades.rows, key)
    {
      hide MidEntry, Safe, Later, Bare, Reach, Spare, Onward, Synced, Updated, OneUnresolved, OpenSymbols;
      ghost var w := W();
      EntryHasOrders(w, s, key);
      ghost var mid, moves;
      out, sent, mid, moves := PlaceOnce(EntryRow(key), s, Buy, qty);
      PurchaseSubmitted(w, mid, s, key, qty, sent);
      StatusWritten(w.rows, key, Unclear);
    }

    method EntryRecord(s: string, key: string, status: OrderStatus, stop: bool, unknown: bool)
      returns (out: Outcome<()>)
      requires Entering(s, key)
      modifies shared, broker`tick, broker`book, broker`told, trades`rows
      ensures FlagKept()
      ensures Entering(s, key) && Later(old(broker.book), broker.book)
        && (shared.alarm || broker.told == old(broker.told))
      ensures out.Done? ==> StatusOf(trades.rows, key) == Some(RowStatusFor(status, stop, unknown))
      ensures StatusOf(trades.rows, key) == old(StatusOf(trades.rows, key))
           || StatusOf(trades.rows, key) == Some(RowStatusFor(status, stop, unknown))
      ensures old(Pends(trades.rows, key)) && Unresolved(Row("", Buy, RowStatusFor(status, stop, unknown), 0)) ==>
        Pends(trades.rows, key)
    {
      hide MidEntry, Safe, Later, Bare, Updated, RowStatusFor, OpenSymbols;
      ghost var w := W();
      EnteringIsReady(s, key);
      out := RecordResult(EntryRow(key), status, stop, unknown);
      EntryAwaits(w, s, key, RowStatusFor(status, stop, unknown));
      StatusWritten(w.rows, key, RowStatusFor(status, stop, unknown));
    }

    lemma PurchaseSubmitted(w: World, mid: Book, s: string, key: string, qty: nat, sent: bool)
      requires MidEntry(w, s, key) && Safe(w) && Bare(w.book) <= w.uncovered && Existing(w.book, w.orphans)
      requires Later(w.book, mid) && Bare(mid) <= w.uncovered
      requires Later(if sent then Submitted(mid, s, Buy, qty) else mid, broker.book) && broker.Latched()
      requires broker.uncovered == w.uncovered + (if sent then Bare(Submitted(mid, s, Buy, qty)) else iset{})
      requires trades.rows == w.rows || trades.rows == Updated(w.rows, EntryRow(key), Unclear)
      requires shared.saved == w.saved || shared.saved == Synced(w.saved, w.ledger)
      requires ledger == w.ledger && (shared.alarm || broker.told == w.told) && nextExit == w.nextExit
        && (w.degraded ==> shared.alarm)
      requires orphans == w.orphans && exposed == w.exposed && overlaid == w.overlaid
      ensures Entering(s, key) && broker.uncovered == w.uncovered
      ensures |mid.orders| == |w.book.orders|
      ensures |broker.book.orders| == |w.book.orders| + (if sent then 1 else 0)
      ensures sent ==> Buying(s, |mid.orders|, qty)
    {
      hide MidEntry, Safe, Later, Bare, Reach, Spare, Onward, Synced, OpenSymbols;
      SentIsOnward(w.book, mid, broker.book, s, Buy, qty, sent);
      BuyBares(w, mid, broker.uncovered, s, qty, sent);
      LaterGrows(w.book, mid);
      LaterGrows(if sent then Submitted(mid, s, Buy, qty) else mid, broker.book);
      if sent {
        AcceptedBuy(w.book, mid, broker.book, s, qty);
        if s !in w.uncovered { CoveredAt(w, s); }
      }
      MidEntryStays(w, W(), s, key, Unclear);
    }

    /** A row for a new entry, or none if the key has one already. */
    method OpenEntry(s: string, key: string) returns (out: Outcome<()>)
      requires Ready() && s !in ledger && !AnyUnresolved(trades.rows)
      modifies shared, broker`tick, broker`book, broker`told, trades
      ensures FlagKept()
      ensures Later(old(broker.book), broker.book)
      ensures Ready()
      ensures out.Done? ==> Entering(s, key) && (old(EntryRow(key) in trades.rows) || Pends(trades.rows, key))
    {
      hide MidEntry, Safe, Later, Bare, AnyUnresolved, Fit, OneUnresolved, Protected, OpenSymbols;
      ghost var w := W();
      out := CreateRow(EntryRow(key), s, Buy);
      EntryOpens(w, W(), s, key, old(trades.clock));
    }

    /** An await of an entry that writes nothing. */
    method EntryWait(s: string, key: string) returns (out: Outcome<Turn>)
      requires Entering(s, key)
      modifies shared, broker`tick, broker`book, broker`told
      ensures FlagKept()
      ensures Entering(s, key) && Later(old(broker.book), broker.book)
        && (shared.alarm || broker.told == old(broker.told))
    {
      hide MidEntry, Safe, Later, Bare, OpenSymbols;
      ghost var w := W();
      out := Await();
      EntryAwaits(w, s, key, Closed);
    }

    /** What a call that raised leaves to see: nothing was bought, or the order's row is unresolved, or the
        flag is up, or the row says bought; unless the key had a finished row before. */
    ghost predicate LeftToSee(key: string, rows: Rows, b: Book)
      reads shared`alarm, trades`rows, broker`book
    {
      || EntryRow(key) in rows
      || Noticed(key, b)
      || StatusOf(trades.rows, key) == Some(Bought) || StatusOf(trades.rows, key) == Some(StopPlaced)
    }

    /** The flag was up and no retry took it down meanwhile, trading was halted and no operator resumed it, or an
        order was unresolved. */
    twostate predicate Refused()
      reads shared, trades
    {
      || (old(shared.degraded) && shared.verdicts == old(shared.verdicts))
      || (old(shared.halted) && shared.resumes == old(shared.resumes))
      || old(AnyUnresolved(trades.rows))
    }

    /** `place_order`, live: every gate, then one submission and its protection. */
    method PlaceOrder(p: Proposal) returns (out: Outcome<OrderResult>)
      requires Ready() && p.symbol !in ledger
      modifies this`orphans
      modifies shared, broker`tick, broker`book, broker`uncovered, broker`told, trades
      ensures Ready()
      ensures broker.uncovered == old(broker.uncovered) && old(orphans) <= orphans
      ensures orphans != old(orphans) ==> shared.alarm
      ensures FlagKept()
      ensures out.Done? && 0 < out.value.filled ==> 0 < p.qty && Recordable(W(), p.symbol, p.qty, out.value)
      ensures out.Done? && out.value.unknown ==>
        StatusOf(trades.rows, p.key) == Some(Unclear) && AnyUnresolved(trades.rows)
      ensures out.Done? && 0 == out.value.filled ==> shared.alarm || NothingBought(old(broker.book), broker.book)
      ensures out.Raised? ==> LeftToSee(p.key, old(trades.rows), old(broker.book))
      ensures |broker.book.orders| == |old(broker.book).orders| || EntryRow(p.key) in trades.rows
      ensures Refused() ==>
        |broker.book.orders| == |old(broker.book).orders| && (out.Done? ==> out.value == NOT_DONE)
    {
      hide Entering, ReadyWith, Later, Recordable, AnyUnresolved, NothingBought, OpenSymbols;
      NoneSent(broker.book, broker.book);
      if p.stopPrice <= 0.0 || p.marketPrice <= p.stopPrice || p.qty <= 0 { return Done(NOT_DONE); }
      ghost var b := broker.book;
      var blocked := Gates(p.key);
      NoneSent(b, broker.book);
      if blocked.Raised? { return Raised(blocked.failure); }
      if blocked.value { return Done(NOT_DONE); }
      ghost var b1 := broker.book;
      var row := OpenEntry(p.symbol, p.key);
      LaterGrows(b1, broker.book);
      NoneSent(b, broker.book);
      if row.Raised? { return Raised(row.failure); }
      ghost var b2 := broker.book;
      out := SubmitOpened(p.symbol, p.key, p.qty, p.stopPrice);
      BoughtSince(b, b2, broker.book);
    }

    lemma BoughtSince(b: Book, b2: Book, b': Book)
      requires |b2.orders| == |b.orders|
      ensures NothingBought(b2, b') ==> NothingBought(b, b')
    {
    }

    /** Everything that may refuse an entry before its row is written; `false` lets it through. */
    method Gates(key: string) returns (out: Outcome<bool>)
      requires Ready()
      modifies shared, broker`tick, broker`book, broker`told
      ensures FlagKept()
      ensures Ready() && |broker.book.orders| == |old(broker.book).orders|
      ensures out == Done(false) ==> !AnyUnresolved(trades.rows)
      ensures old(shared.degraded) && shared.verdicts == old(shared.verdicts) ==> out != Done(false)
      ensures old(shared.halted) && shared.resumes == old(shared.resumes) ==> out != Done(false)
      ensures out == Done(false) ==> EntryRow(key) in trades.rows ==> !OpenRow(trades.rows[EntryRow(key)])
    {
      hide Ready, Later, AnyUnresolved, OpenSymbols;
      out := PreExecutionBlock();
      if out.Raised? || out.value { return; }
      ghost var b := broker.book;
      var looked := Wait();
      LaterGrows(b, broker.book);
      if looked.Raised? { return Raised(looked.failure); }
      if EntryRow(key) in trades.rows && OpenRow(trades.rows[EntryRow(key)]) { return Done(true); }
      b := broker.book;
      var claimed := Wait();
      LaterGrows(b, broker.book);
      if claimed.Raised? { return Raised(claimed.failure); }
      return Done(!claimed.value.allowed);
    }

    /** The rest of an entry, its row being there. */
    method SubmitOpened(s: string, key: string, qty: nat, stopPrice: real) returns (out: Outcome<OrderResult>)
      requires Entering(s, key)
      modifies this`orphans
      modifies shared, broker`tick, broker`book, broker`uncovered, broker`told, trades`rows
      ensures Ready() && EntryRow(key) in trades.rows
      ensures broker.uncovered == old(broker.uncovered) && old(orphans) <= orphans
      ensures orphans != old(orphans) ==> shared.alarm
      ensures FlagKept()
      ensures out.Done? && 0 < out.value.filled ==> Recordable(W(), s, qty, out.value)
      ensures out.Done? && out.value.unknown ==>
        StatusOf(trades.rows, key) == Some(Unclear) && AnyUnresolved(trades.rows)
      ensures out.Done? && 0 == out.value.filled ==> shared.alarm || NothingBought(old(broker.book), broker.book)
      ensures out.Raised? && old(Pends(trades.rows, key)) ==>
        Noticed(key, old(broker.book)) || StatusOf(trades.rows, key) == Some(Bought)
          || StatusOf(trades.rows, key) == Some(StopPlaced)
    {
      hide Entering, Ready, Later, Recordable, AnyUnresolved, NothingBought, StatusOf, OpenSymbols;
      ghost var b := broker.book;
      var noted := EntryWait(s, key);
      EnteringIsReady(s, key);
      LaterGrows(b, broker.book);
      NoneSent(b, broker.book);
      if noted.Raised? { return Raised(noted.failure); }
      ghost var b1 := broker.book;
      var gate := EntryWait(s, key);
      EnteringIsReady(s, key);
      LaterGrows(b1, broker.book);
      NoneSent(b, broker.book);
      if gate.Raised? { return Raised(gate.failure); }
      var r := NOT_DONE;
      ghost var b2 := broker.book;
      if gate.value.allowed {
        var sent := SubmitLive(s, key, qty, stopPrice);
        EnteringIsReady(s, key);
        BoughtSince(b, b2, broker.book);
        if sent.Raised? { return Raised(sent.failure); }
        r := sent.value;
      } else {
        NothingToRecord(W(), s, qty, r);
      }
      out := RecordEntry(s, key, qty, r, b);
    }

    /** Record the result, and release the claim of an order that came to nothing. */
    method RecordEntry(s: string, key: string, qty: nat, r: OrderResult, ghost b: Book)
      returns (out: Outcome<OrderResult>)
      requires Entering(s, key) && Recordable(W(), s, qty, r)
      requires r.filled == 0 ==> shared.alarm || NothingBought(b, broker.book)
      requires 0 < r.filled ==> (r.status == FILLED || r.status == PARTIAL) && Pends(trades.rows, key)
      modifies shared, broker`tick, broker`book, broker`told, trades`rows
      ensures FlagKept()
      ensures Ready() && EntryRow(key) in trades.rows
      ensures out.Done? ==> out.value == r && Recordable(W(), s, qty, r)
      ensures out.Done? && r.unknown ==> StatusOf(trades.rows, key) == Some(Unclear) && AnyUnresolved(trades.rows)
      ensures r.filled == 0 ==> shared.alarm || NothingBought(b, broker.book)
      ensures out.Raised? ==>
        Noticed(key, b) || StatusOf(trades.rows, key) == Some(Bought) || StatusOf(trades.rows, key) == Some(StopPlaced)
    {
      hide Entering, Ready, Later, Recordable, AnyUnresolved, NothingBought, OpenSymbols;
      ghost var w := W();
      var recorded := EntryRecord(s, key, r.status, r.stop.Some?, r.unknown);
      EnteringIsReady(s, key);
      RecordableStays(w, W(), s, qty, r);
      if NothingBought(b, w.book) { NothingBoughtStays(b, w.book, broker.book); }
      MarkBlocks(trades.rows, key);
      if recorded.Raised? { return Raised(recorded.failure); }
      if r.status == FAILED || r.status == REJECTED {
        w := W();
        var released := EntryWait(s, key);
        EnteringIsReady(s, key);
        RecordableStays(w, W(), s, qty, r);
        if NothingBought(b, w.book) { NothingBoughtStays(b, w.book, broker.book); }
        if released.Raised? { return Raised(released.failure); }
      }
      return Done(r);
    }

    lemma MarkBlocks(rows: Rows, key: string)
      ensures StatusOf(rows, key) == Some(Unclear) ==> AnyUnresolved(rows)
    {
    }

    /** What a stored fill leaves in the database: just the ledger's position of `s`, unless `s` had an open row
        already; then it has two. */
    predicate StoredOver(before: Table, s: string)
      reads this`ledger, shared`saved
    {
      if HasOpen(before, s) then OpenTwice(shared.saved, s) else Agree(shared.saved, ledger, s)
    }

    lemma StoredOverSynced(before: Table, t: Table, s: string)
      requires if HasOpen(before, s) then OpenTwice(t, s) else Agree(t, ledger, s)
      requires shared.saved == t || shared.saved == Synced(t, ledger)
      ensures StoredOver(before, s)
    {
      hide OpenTwice, Agree, Synced, HasOpen;
      SyncedOpens(t, ledger);
      SyncedAgrees(t, ledger, s);
    }

    /** `add_position` and the save after it; when either fails, trading halts. */
    method StoreFill(s: string) returns (out: Outcome<()>)
      requires Ready() && s in ledger && ledger[s].next.None?
      modifies this`ledger, this`overlaid
      modifies shared, broker`tick, broker`book, broker`told
      ensures FlagAndHaltKept() && KeyOnly(old(ledger), ledger, s)
      ensures Ready() && Later(old(broker.book), broker.book)
      ensures Overlays(old(overlaid), old(shared.saved), s)
      ensures out.Done? ==> old(shared.marks) < shared.marks || StoredOver(old(shared.saved), s)
    {
      hide Later, Ready, Agree, Synced, HasOpen, OpenTwice, OpenSymbols;
      ghost var b := broker.book;
      var added := AddPosition(s);
      ghost var b1, m := broker.book, shared.saved;
      if added.Raised? { return Raised(added.failure); }
      if !added.value {
        Halt();
        return Done(());
      }
      var stored := Save();
      LaterTrans(b, b1, broker.book);
      StoredOverSynced(old(shared.saved), m, s);
      if stored.Raised? { return Raised(stored.failure); }
      if !stored.value { Halt(); }
      return Done(());
    }

    /** The position of `s` may have got the key of its row. */
    ghost predicate KeyOnly(l: Ledger, l': Ledger, s: string) {
      s in l && s in l' && l' == l[s := l[s].(row := l'[s].row)]
    }

    /** A symbol is noted exactly when its fill was stored over an open row. */
    ghost predicate Overlays(before: set<string>, t: Table, s: string)
      reads this`overlaid
    {
      overlaid == before || (overlaid == before + {s} && HasOpen(t, s))
    }

    /** `add_position`: a new row for `s`, whether or not it has one, the others written along. A failure
        answers false; it may have handed out a key, and may have committed all the same. */
    method AddPosition(s: string) returns (out: Outcome<bool>)
      requires Ready() && s in ledger && ledger[s].next.None?
      modifies this`ledger, this`overlaid
      modifies shared, broker`tick, broker`book, broker`told
      ensures FlagAndHaltKept() && out != Raised(Fault) && KeyOnly(old(ledger), ledger, s)
      ensures Ready() && Later(old(broker.book), broker.book)
      ensures Overlays(old(overlaid), old(shared.saved), s)
      ensures out == Done(true) ==> StoredOver(old(shared.saved), s)
    {
      hide Later, Bare, Safe, Fit, OneUnresolved, Protected, Synced, Agree, OpenTwice, OpenSymbols;
      ghost var w := W();
      var t := Pass();
      StillReady(w, NoRow, Closed);
      SyncedOpens(w.saved, ledger);
      var stored := if t.failure.None? then t.allowed else t.effective;
      if stored || t.reply.LostReply? { InsertRow(s, stored); }
      if t.failure.Some? && !t.failure.value.Fault? { return Raised(t.failure.value); }
      return Done(t.failure.None? && t.allowed);
    }

    /** The new row gets a key, and is there or not. */
    method InsertRow(s: string, stored: bool)
      requires Ready() && s in ledger && ledger[s].next.None?
      modifies this`ledger, this`overlaid
      modifies shared`saved, shared`savedHalt
      ensures Ready() && KeyOnly(old(ledger), ledger, s)
      ensures Overlays(old(overlaid), old(shared.saved), s)
      ensures stored ==> StoredOver(old(shared.saved), s)
    {
      hide ReadyWith, Synced, Agree, Recorded, Voided, OpenTwice, OpenSymbols;
      var key, t := Some(|shared.saved|), shared.saved;
      KeyedAnew(W(), s, key);
      ledger := ledger[s := ledger[s].(row := key)];
      ReadyIsConsistent();
      if stored {
        ghost var noted := overlaid + (if HasOpen(t, s) then {s} else {});
        RecordedAnew(W(), s, noted);
        RecordedAgreesExactly(t, ledger, s);
        RecordedOpens(t, ledger, s);
        overlaid := noted;
        shared.saved, shared.savedHalt := Recorded(t, ledger, s), shared.halted;
      } else {
        VoidedAnew(W());
        shared.saved := Voided(t);
      }
    }

    /** The entry step: no second position in a symbol, then the order, then the fill goes into the ledger
        with its stop. `purchase` is the order behind it. */
    method EnterPosition(p: Proposal) returns (out: Outcome<OrderResult>, ghost purchase: Option<nat>)
      requires Ready()
      modifies this`ledger, this`orphans, this`exposed, this`overlaid
      modifies shared, broker`tick, broker`book, broker`uncovered, broker`told, trades
      ensures Ready()
      ensures broker.uncovered == old(broker.uncovered) && old(orphans) <= orphans
      ensures orphans != old(orphans) ==> shared.alarm
      ensures FlagAndHaltKept()
      ensures exposed <= old(exposed)
      ensures Overlays(old(overlaid), old(shared.saved), p.symbol)
      ensures ledger == old(ledger) || Buys(broker.book, old(ledger), ledger, p, purchase)
      ensures out.Done? && out.value.status == FILLED && ledger != old(ledger) ==>
        Final(broker.book.orders[purchase.value], ledger[p.symbol].qty)
      ensures out.Raised? && ledger == old(ledger) ==> LeftToSee(p.key, old(trades.rows), old(broker.book))
      ensures out.Done? && ledger != old(ledger) ==>
        || old(shared.marks) < shared.marks || Agree(shared.saved, ledger, p.symbol)
        || (HasOpen(old(shared.saved), p.symbol) && OpenTwice(shared.saved, p.symbol))
      ensures Refused() ==>
        ledger == old(ledger) && |broker.book.orders| == |old(broker.book).orders|
    {
      hide ReadyWith, Recordable, AnyUnresolved, Later, NothingBought, Agree, StatusOf, Synced, OpenSymbols, OpenTwice;
      purchase := None;
      if p.symbol in ledger { return Done(NOT_DONE), purchase; }
      out := PlaceOrder(p);
      if out.Raised? { return; }
      var r := out.value;
      if (r.status != FILLED && r.status != PARTIAL) || r.filled == 0 { return; }
      Records(p, r);
      purchase := r.order;
      var stored := TakePosition(p, r);
      if stored.Raised? { return Raised(stored.failure), purchase; }
    }

    /** The recordable fill `r` becomes a position, in the ledger first. */
    method TakePosition(p: Proposal, r: OrderResult) returns (out: Outcome<()>)
      requires Ready() && p.symbol !in ledger && 0 < r.filled && 0 < p.qty && Recordable(W(), p.symbol, p.qty, r)
      modifies this`ledger, this`exposed, this`overlaid
      modifies shared, broker`tick, broker`book, broker`told
      ensures FlagAndHaltKept() && Ready()
      ensures exposed <= old(exposed) && Overlays(old(overlaid), old(shared.saved), p.symbol)
      ensures r.order.Some? && Buys(broker.book, old(ledger), ledger, p, r.order) && ledger[p.symbol].qty == r.filled
      ensures r.status == FILLED ==> Final(broker.book.orders[r.order.value], r.filled)
      ensures out.Done? ==> old(shared.marks) < shared.marks || StoredOver(old(shared.saved), p.symbol)
    {
      hide ReadyWith, Recordable, Later, Agree, Synced, OpenSymbols, OpenTwice, StoredOver;
      Records(p, r);
      ledger := ledger[p.symbol := Position(r.filled, r.stop, p.stopPrice, p.takeProfit, None, None)];
      exposed := exposed - {p.symbol};
      ghost var b := broker.book;
      out := KeepFill(p.symbol);
      BuyOrderStays(b, broker.book, p.symbol, r.order.value, p.qty);
      if r.status == FILLED { FinalStays(b, broker.book, r.order.value, r.filled); }
    }

    /** The fill goes into the database, and the step is recorded. */
    method KeepFill(s: string) returns (out: Outcome<()>)
      requires Ready() && s in ledger && ledger[s].next.None?
      modifies this`ledger, this`overlaid
      modifies shared, broker`tick, broker`book, broker`told
      ensures FlagAndHaltKept() && KeyOnly(old(ledger), ledger, s)
      ensures Ready() && Later(old(broker.book), broker.book)
      ensures Overlays(old(overlaid), old(shared.saved), s)
      ensures out.Done? ==> old(shared.marks) < shared.marks || StoredOver(old(shared.saved), s)
    {
      hide Ready, Later, Agree, Synced, HasOpen, OpenTwice, OpenSymbols;
      out := StoreFill(s);
      if out.Raised? { return; }
      ghost var b, m := broker.book, shared.saved;
      var noted := Wait();
      LaterTrans(old(broker.book), b, broker.book);
      if old(shared.marks) == shared.marks { StoredOverSynced(old(shared.saved), m, s); }
      if noted.Raised? { out := Raised(noted.failure); }
    }

    /** Recording a recordable fill leaves the engine ready. */
    lemma Records(p: Proposal, r: OrderResult)
      requires Ready() && p.symbol !in ledger && 0 < r.filled && 0 < p.qty
      requires Recordable(W(), p.symbol, p.qty, r)
      ensures ReadyWith(WithPosition(W(), p.symbol, Position(r.filled, r.stop, p.stopPrice, p.takeProfit, None, None)))
      ensures r.order.Some? && BuyOrder(broker.book, p.symbol, r.order.value, p.qty)
      ensures r.filled <= broker.book.orders[r.order.value].filled
      ensures r.status == FILLED ==> Final(broker.book.orders[r.order.value], r.filled)
    {
      hide Fit, Safe, OneUnresolved, Protected, Bare, Reach, Confirmed, Backed, OpenSymbols;
      NewPosition(W(), p.symbol, Position(r.filled, r.stop, p.stopPrice, p.takeProfit, None, None));
    }

    // ---- restarts ----

    /** `load`: the positions are the open rows, and a halt stored with them or a latched kill switch halts. A
        working sell the database does not know, of a symbol whose stored position is not safe without it,
        is orphaned here, and only such a one; so is any but the first position's stop of a symbol the database
        lists twice. The degraded flag outlives the process in the shared cache or not at all. */
    method Reload() returns (out: Outcome<()>)
      requires Consistent(W()) && shared.alarm == shared.degraded
      modifies this`ledger, this`orphans, this`exposed
      modifies shared`degraded, shared`alarm, shared`halted, broker`tick, broker`book
      ensures Consistent(W()) && shared.alarm == shared.degraded && Later(old(broker.book), broker.book)
      ensures out.Done? ==> ledger == Loaded(shared.saved) && (shared.savedHalt ==> shared.halted)
      ensures out.Done? ==> exposed == old(exposed) + Doubles(ledger)
      ensures out.Raised? ==> ledger == old(ledger) && orphans == old(orphans) && exposed == old(exposed)
      ensures old(orphans) <= orphans
      ensures forall k :: k in orphans && k !in old(orphans) ==>
        k < |broker.book.orders| && !Agree(shared.saved, old(ledger), broker.book.orders[k].symbol)
    {
      hide Later, Bare, Safe, Fit, OneUnresolved, Protected, KeptAt, HasOrphan, Agree, ProtectedAt, OpenSymbols;
      ghost var w := W();
      var t := broker.Pass();
      StillReady(w, NoRow, Closed);
      if t.failure.Some? { return Raised(t.failure.value); }
      if !t.allowed { return Raised(Fault); }
      ReadBack(t.effective, t.reply.Answered?);
      return Done(());
    }

    /** `latched` is the kill switch's, `cached` says that the flag outlived the process. */
    method ReadBack(latched: bool, cached: bool)
      requires Consistent(W()) && shared.alarm == shared.degraded
      modifies this`ledger, this`orphans, this`exposed, shared`degraded, shared`alarm, shared`halted
      ensures Consistent(W()) && shared.alarm == shared.degraded
      ensures ledger == Loaded(shared.saved) && shared.halted == (shared.savedHalt || latched)
      ensures orphans == old(orphans + Stale(W())) && exposed == old(exposed) + Doubles(ledger)
      ensures forall k :: k in orphans && k !in old(orphans) ==>
        k < |broker.book.orders| && !Agree(shared.saved, old(ledger), broker.book.orders[k].symbol)
    {
      hide Consistent, Agree, Stale, ProtectedAt, Loaded, Doubles;
      ghost var w := W();
      ReloadKeeps(w);
      Forgets(w);
      ledger, orphans := Loaded(shared.saved), orphans + Stale(w);
      exposed := exposed + Doubles(ledger);
      shared.halted := shared.savedHalt || latched;
      shared.degraded := shared.degraded && cached;
      shared.alarm := shared.degraded;
      Reflagged(Reloaded(w), W());
    }

    /** The process starts over: load, then reconcile with the broker; only then does anything run. */
    method Restart() returns (out: Outcome<Status>)
      requires Consistent(W()) && shared.alarm == shared.degraded
      modifies this`ledger, this`running, this`orphans, this`exposed
      modifies shared`retry, shared`degraded, shared`alarm, shared`halted, broker`tick, broker`book, broker`told
      ensures Consistent(W()) && shared.alarm == shared.degraded && shared.retry.None? && (running <==> out.Done?)
      ensures running ==> Ready() && ledger == Loaded(shared.saved) && (shared.savedHalt ==> shared.halted)
      ensures running ==> (out.value == OK <==> !shared.degraded)
      ensures running && out.value == OK ==> forall s :: s in ledger ==> Doubled(ledger, s) || ProtectedAt(W(), s)
      ensures old(orphans) <= orphans && exposed <= old(exposed) + Doubles(Loaded(shared.saved))
    {
      hide Consistent, Protected, Later, AnyUnresolved, ProtectedAt, Loaded, Doubles, Doubled, OpenSymbols;
      shared.retry, running := None, false;
      var loaded := Reload();
      if loaded.Raised? { return Raised(loaded.failure); }
      out := Reconcile();
      running := out.Done?;
    }

    /** A restart forgets only sells of symbols on which the database and the ledger disagreed. */
    lemma Forgets(w: World)
      requires Consistent(w)
      ensures forall k :: k in Stale(w) ==> k < |w.book.orders| && !Agree(w.saved, w.ledger, w.book.orders[k].symbol)
    {
      hide Consistent, Agree, KeptAt;
      forall k | k in Stale(w)
        ensures !Agree(w.saved, w.ledger, w.book.orders[k].symbol)
      {
        var s := w.book.orders[k].symbol;
        if Agree(w.saved, w.ledger, s) { AgreedIsKept(w, s) by { ConsistentIsSafe(w); } }
      }
    }

    lemma ConsistentIsSafe(w: World)
      requires Consistent(w)
      ensures Safe(w)
    {
    }

    // ---- runs ----

    /** Between steps: uncertainty is bounded and every symbol is kept safe; while the process runs, every
        position is protected too, or the degraded flag is up. */
    ghost predicate Operating()
      reads this, broker, trades, shared
    {
      && Consistent(W()) && (running ==> Ready())
      && shared.alarm == shared.degraded && Retrying() && !shared.busy && Calm()
    }

    /** The flag as it stands now. If it was up and a retry took it down, whatever position is not confirmed
        is exposed. */
    ghost method Settle()
      requires Consistent(W()) && (running ==> Ready())
      modifies this`exposed, shared`alarm
      ensures Consistent(W()) && (running ==> Ready()) && shared.alarm == shared.degraded
      ensures old(shared.alarm ==> shared.degraded) ==> exposed <= old(exposed)
      ensures old(forall s :: s in ledger ==> Doubled(ledger, s) || ProtectedAt(W(), s)) ==> exposed <= old(exposed)
    {
      hide Consistent, ProtectedAt;
      var w := W();
      if shared.alarm && !shared.degraded {
        var doubtful := set s | s in ledger && !ProtectedAt(w, s);
        DoublesExposed(w);
        DoubledIsDoubtful(w, doubtful);
        exposed, shared.alarm := doubtful, false;
        Cleared(w, doubtful);
        SameReports(w, W());
      } else {
        shared.alarm := shared.degraded;
        Reflagged(w, W());
        if shared.degraded { ConsistentlyDegraded(W()); }
      }
    }

    lemma DoubledIsDoubtful(w: World, doubtful: set<string>)
      requires doubtful == set s | s in w.ledger && !ProtectedAt(w, s)
      ensures Doubles(w.ledger) <= doubtful
      ensures forall s :: Doubled(w.ledger, s) ==> s in Doubles(w.ledger)
    {
    }

    lemma Cleared(w: World, doubtful: set<string>)
      requires Consistent(w) && (forall s :: s in w.ledger ==> s in doubtful || ProtectedAt(w, s))
        && Doubles(w.ledger) <= doubtful
      ensures ReadyWith(w.(degraded := false, exposed := doubtful))
    {
      hide Consistent, ProtectedAt;
      Reexposed(w, doubtful);
      Reflagged(w.(exposed := doubtful), w.(degraded := false, exposed := doubtful));
    }

    /** One step of a session. Whatever it raises, only the end of the process stops the rest; then only a
        restart does anything. A step uncovers no symbol but one with an orphan working as it began, or one
        listed more than once; only a retry's verdict or a restart takes the flag down; only a verdict an order
        step came in between exposes a symbol, or a load that lists it more than once; and that takes a fill
        stored over an open row. */
    method Perform(step: Step)
      requires Operating()
      modifies this
      modifies shared, broker`tick, broker`book, broker`uncovered, broker`told, trades
      ensures Operating() && Uncovers(old(W()), W())
      ensures old(orphans) <= orphans && old(shared.disturbed) <= shared.disturbed
      ensures old(shared.degraded) && !shared.degraded ==> step.Restart? || old(shared.verdicts) < shared.verdicts
      ensures shared.disturbed == old(shared.disturbed) ==>
        exposed <= old(exposed) + (if step.Restart? then overlaid else {})
      ensures overlaid == old(overlaid) || (step.Enter? && Overlays(old(overlaid), old(shared.saved), step.p.symbol))
    {
      hide ReadyWith, Consistent, Uncovers, Current, Later, OpenSymbols;
      UncoversNothing(W());
      match step {
        case Restart =>
          var _ := Restart();
          LoadedOverlaid(W());
        case RetryTurn => if running { TakeRetryTurn(); }
        case OperatorResume => if running { Resume(); }
        case Save => if running { SaveAlone(); }
        case Idle => if running { PassTime(); }
        case _ => if running { Order(step); }
      }
    }

    /** A symbol that a load lists more than once was stored over an open row. */
    lemma LoadedOverlaid(w: World)
      requires Consistent(w)
      ensures Doubles(Loaded(w.saved)) <= w.overlaid
    {
      hide Loaded, OpenTwice, Safe, Bare, OneUnresolved, FitLedger, FitTable, OpenSymbols;
      forall s | s in Doubles(Loaded(w.saved))
        ensures s in w.overlaid
      {
        LoadedAt(w.saved, s);
      }
    }

    lemma UncoversNothing(w: World)
      ensures forall w': World :: w'.uncovered == w.uncovered ==> Uncovers(w, w')
    {
    }

    method SaveAlone()
      requires Operating() && running
      modifies this`running
      modifies shared`saved, shared`savedHalt, broker`tick, broker`book
      ensures Operating()
    {
      hide ReadyWith, Later, Current, Bare, Synced, OpenSymbols;
      ghost var w := W();
      var stored := Store();
      StillReady(w, NoRow, Closed);
      running := stored != Raised(Killed);
      ReadyIsConsistent();
    }

    method PassTime()
      requires Operating() && running
      modifies this`running
      modifies broker`tick, broker`book
      ensures Operating()
    {
      hide ReadyWith, Later, Current, Bare, OpenSymbols;
      ghost var w := W();
      var waited := broker.Await();
      StillReady(w, NoRow, Closed);
      running := waited != Raised(Killed);
      ReadyIsConsistent();
    }

    /** A retry's turn between order steps: an undisturbed verdict leaves no position exposed. */
    method TakeRetryTurn()
      requires Operating() && running
      modifies this`exposed
      modifies shared, broker`tick, broker`book, broker`told
      ensures Operating() && old(shared.disturbed) <= shared.disturbed
      ensures old(shared.degraded) && !shared.degraded ==> old(shared.verdicts) < shared.verdicts
      ensures shared.disturbed == old(shared.disturbed) ==> exposed <= old(exposed)
    {
      hide ReadyWith, Later, ProtectedAt, AnyUnresolved, CleanSoFar, HoldingSymbols, Bare, OpenSymbols;
      ghost var w := W();
      ghost var _ := RetryTurn();
      StillReady(w, NoRow, Closed);
      Settle();
    }

    /** An order step: whatever retry is on its way can no longer be sure, and takes positions closed
        meanwhile for missing. */
    method Order(step: Step)
      requires Operating() && running && Trades(step)
      modifies this
      modifies shared, broker`tick, broker`book, broker`uncovered, broker`told, trades
      ensures Operating() && Uncovers(old(W()), W())
      ensures old(orphans) <= orphans && old(shared.disturbed) <= shared.disturbed
      ensures old(shared.degraded) && !shared.degraded ==> old(shared.verdicts) < shared.verdicts
      ensures shared.disturbed == old(shared.disturbed) ==> exposed <= old(exposed)
      ensures overlaid == old(overlaid) || (step.Enter? && Overlays(old(overlaid), old(shared.saved), step.p.symbol))
    {
      hide ReadyWith, Consistent, Uncovers, Later, OpenSymbols;
      ghost var w := W();
      shared.busy, shared.undisturbed := true, false;
      assert W() == w;
      var out := Trade(step);
      UncoversOn(w, W());
      Finish(out);
    }

    method Trade(step: Step) returns (out: Outcome<()>)
      requires Ready() && Trades(step)
      modifies this`ledger, this`orphans, this`exposed, this`overlaid, this`nextExit
      modifies shared, broker`tick, broker`book, broker`uncovered, broker`told, trades
      ensures if out == Raised(Killed) then Consistent(W()) else Ready()
      ensures Uncovers(old(W()), W()) && FlagAndHaltKept()
      ensures old(orphans) <= orphans && exposed <= old(exposed)
      ensures overlaid == old(overlaid) || (step.Enter? && Overlays(old(overlaid), old(shared.saved), step.p.symbol))
    {
      hide ReadyWith, Consistent, Uncovers, Spares, Spared, Sells, Accounted, Buys, AnyUnresolved, Later, LeftToSee,
        OpenSymbols, StoredOver;
      ghost var w0 := W();
      UncoversNothing(w0);
      ReadyHasFit();
      SparedNone(w0);
      match step {
        case Enter(p) =>
          var entered; ghost var purchase;
          entered, purchase := EnterPosition(p);
          out := Outline(entered);
        case Monitor =>
          var ticked := Tick();
          out := Outline(ticked);
        case Check(s, row) =>
          var checked; ghost var sale;
          checked, sale := CheckPosition(s, row);
          ReadyHasFit();
          SparedOne(w0, w0, W(), s, {});
          SparedUncovers(w0, W(), {} + {s});
          out := Outline(checked);
        case Sync =>
          out := SyncMissing();
        case SquareOffAll =>
          var squared; ghost var stage, marked;
          squared, stage, marked := EodSquareOff();
          out := Outline(squared);
        case Kill =>
          var killed := KillSwitch();
          out := Outline(killed);
      }
      ReadyIsConsistent();
    }

    static function Outline<T>(out: Outcome<T>): Outcome<()> {
      if out.Done? then Done(()) else Raised(out.failure)
    }

    method Finish(out: Outcome<()>)
      requires if out == Raised(Killed) then Consistent(W()) else Ready()
      requires Retrying()
      modifies this`running, this`exposed
      modifies shared`busy, shared`undisturbed, shared`retry, shared`alarm
      ensures Operating()
      ensures old(shared.alarm ==> shared.degraded) ==> exposed <= old(exposed)
    {
      hide Consistent, Protected;
      ghost var w := W();
      shared.busy, shared.undisturbed := false, false;
      if shared.retry.Some? && shared.retry.value.Comparing? {
        var r := shared.retry.value;
        shared.retry := Some(r.(held := r.held * ledger.Keys));
      }
      running := out != Raised(Killed);
      assert W() == w;
      Settle();
    }

    /** Any sequence of steps, each free to raise at any await, in any market. */
    method Run(steps: seq<Step>)
      requires Operating()
      modifies this
      modifies shared, broker`tick, broker`book, broker`uncovered, broker`told, trades
      ensures Operating()
      ensures old(orphans) <= orphans && old(shared.disturbed) <= shared.disturbed && old(overlaid) <= overlaid
      ensures shared.disturbed == old(shared.disturbed) ==> exposed <= old(exposed) + overlaid
    {
      hide Operating, HasOpen;
      for i := 0 to |steps|
        invariant Operating() && old(orphans) <= orphans && old(shared.disturbed) <= shared.disturbed
        invariant old(overlaid) <= overlaid
        invariant shared.disturbed == old(shared.disturbed) ==> exposed <= old(exposed) + overlaid
      {
        Perform(steps[i]);
      }
    }
  }

  /** A live session from an empty ledger, on an account that may hold other shares: only a symbol one of
      whose sells the ledger lost track of was ever uncovered, so no order of the application could have
      taken any other short, and none without a working orphan can be; while the process runs, every
      position is confirmed or the degraded flag is up, but for symbols exposed, and none is exposed unless a
      retry gave its verdict after an order step had come in between, or a load listed the symbol more than once,
      which takes a fill stored over an open row; and uncertainty is bounded. */
  method LiveSession(script: nat -> Turn, net: map<string, int>, product: string, exchange: string, steps: seq<Step>)
    returns (e: Engine)
    requires forall s :: s in net ==> 0 <= net[s]
    ensures forall s :: s in e.broker.uncovered ==> HasOrphan(e.W(), s)
    ensures forall s, moves :: s !in e.broker.uncovered ==> 0 <= Net(ApplyAll(e.broker.book, moves), s)
    ensures forall s :: s !in e.broker.uncovered && !OrphanWorks(e.W(), s) ==> SafeAt(e.W(), s)
    ensures e.running ==> e.shared.degraded || forall s :: s in e.ledger && s !in e.exposed ==> ProtectedAt(e.W(), s)
    ensures e.shared.disturbed == 0 ==> e.exposed <= e.overlaid
    ensures forall s :: OpenTwice(e.shared.saved, s) ==> s in e.overlaid
    ensures OneUnresolved(e.trades.rows)
  {
    var broker := new Broker(script, net);
    var trades := new TradeRepository();
    var shared := new Shared();
    e := new Engine(broker, trades, shared, product, exchange);
    StartIsReady(e.W());
    e.Run(steps);
    EndIsSafe(e.W());
  }

  lemma StartIsReady(w: World)
    requires w.uncovered == iset{} && Bare(w.book) <= w.uncovered && w.ledger == map[] && w.saved == []
    requires w.rows == map[] && w.orphans == {}
    ensures ReadyWith(w)
  {
    hide Bare, KeptAt, OpenSymbols;
    forall s
      ensures KeptAt(w, s)
    {
      UnheldIsKept(w, s);
    }
  }

  lemma EndIsSafe(w: World)
    requires Consistent(w)
    ensures forall s :: s in w.uncovered ==> HasOrphan(w, s)
    ensures forall s, moves :: s !in w.uncovered ==> 0 <= Net(ApplyAll(w.book, moves), s)
    ensures forall s :: s !in w.uncovered && !OrphanWorks(w, s) ==> SafeAt(w, s)
  {
    hide KeptAt, HasOrphan, OrphanWorks, SafeAt, Bare, Net, ApplyAll, OpenSymbols;
    forall s | s !in w.uncovered
      ensures forall moves :: 0 <= Net(ApplyAll(w.book, moves), s)
    {
      CoveredAt(w, s);
      CoveredMeansNeverShort(w.book, s);
    }
    forall s | s !in w.uncovered && !OrphanWorks(w, s)
      ensures SafeAt(w, s)
    {
      SafeWithoutOrphan(w, s);
    }
  }
}
