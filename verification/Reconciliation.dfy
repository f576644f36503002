/** Fail-closed reconciliation of the ledger with the broker's positions. */
module Reconciliation {
  import opened Common
  import opened Protection

  /** A ledger position as reconciliation sees it; `None` is an empty stop id. */
  datatype Tracked = Tracked(symbol: string, qty: real, stopOrderId: Option<nat>)

  /** One row of the broker's position report; quantities are absolute. */
  datatype Holding = Holding(symbol: string, qty: int, long: bool, product: string, exchange: string)

  datatype Status = OK | Degraded

  function BySymbol(ledger: seq<Tracked>): map<string, Tracked> {
    if ledger == [] then map[]
    else BySymbol(ledger[..|ledger| - 1])[ledger[|ledger| - 1].symbol := ledger[|ledger| - 1]]
  }

  /** The broker row is long, matched in quantity by the ledger, and protected by a confirmed stop. */
  predicate HoldingMatches(h: Holding, ledger: map<string, Tracked>, report: nat -> OrderReport) {
    && h.long
    && h.symbol in ledger
    && Abs(ledger[h.symbol].qty - h.qty as real) <= TOLERANCE
    && ledger[h.symbol].stopOrderId.Some?
    && var stop := report(ledger[h.symbol].stopOrderId.value);
    StopProblem(stop, h.symbol, ledger[h.symbol].qty, h.product, h.exchange) == NoProblem
  }

  ghost predicate DistinctTracked(ledger: seq<Tracked>) {
    forall i, j :: 0 <= i < j < |ledger| ==> ledger[i].symbol != ledger[j].symbol
  }

  /** Broker rows and ledger positions correspond one to one by symbol, and every pair matches. */
  ghost predicate InStep(holdings: seq<Holding>, ledger: seq<Tracked>, report: nat -> OrderReport) {
    && (forall i, j :: 0 <= i < j < |holdings| ==> holdings[i].symbol != holdings[j].symbol)
    && HoldingSymbols(holdings) == TrackedSymbols(ledger)
    && (forall i, k :: 0 <= i < |holdings| && 0 <= k < |ledger| && holdings[i].symbol == ledger[k].symbol
          ==> PairMatches(holdings[i], ledger[k], report))
  }

  function HoldingSymbols(holdings: seq<Holding>): set<string> {
    set i | 0 <= i < |holdings| :: holdings[i].symbol
  }

  function TrackedSymbols(ledger: seq<Tracked>): set<string> {
    set k | 0 <= k < |ledger| :: ledger[k].symbol
  }

  predicate PairMatches(h: Holding, t: Tracked, report: nat -> OrderReport) {
    && h.long
    && Abs(t.qty - h.qty as real) <= TOLERANCE
    && t.stopOrderId.Some?
    && StopProblem(report(t.stopOrderId.value), h.symbol, t.qty, h.product, h.exchange) == NoProblem
  }

  lemma TrackedExtends(ledger: seq<Tracked>, n: nat)
    requires n + 1 == |ledger|
    ensures TrackedSymbols(ledger) == TrackedSymbols(ledger[..n]) + {ledger[n].symbol}
  {
    forall s | s in TrackedSymbols(ledger)
      ensures s in TrackedSymbols(ledger[..n]) + {ledger[n].symbol}
    {
      var k :| 0 <= k < |ledger| && ledger[k].symbol == s;
      if k < n { assert ledger[..n][k].symbol == s; }
    }
  }

  lemma {:induction false} BySymbolFinds(ledger: seq<Tracked>)
    requires DistinctTracked(ledger)
    ensures forall k :: 0 <= k < |ledger| ==>
      ledger[k].symbol in BySymbol(ledger) && BySymbol(ledger)[ledger[k].symbol] == ledger[k]
    ensures BySymbol(ledger).Keys == TrackedSymbols(ledger)
  {
    hide TrackedSymbols;
    if ledger == [] {
      NoneTracked();
    } else {
      var n := |ledger| - 1;
      BySymbolFinds(ledger[..n]);
      TrackedExtends(ledger, n);
      assert forall k :: 0 <= k < n ==> ledger[..n][k] == ledger[k];
    }
  }

  lemma NoneTracked()
    ensures TrackedSymbols([]) == {}
  {
  }

  /** The issues one broker row raises. */
  method CheckRow(h: Holding, seen: set<string>, internal: map<string, Tracked>, report: nat -> OrderReport)
    returns (issues: nat)
    ensures issues == 0 <==> h.symbol !in seen && HoldingMatches(h, internal, report)
  {
    hide StopProblem;
    issues := 0;
    if h.symbol in seen || !h.long { issues := 1; }
    if h.symbol !in internal || TOLERANCE < Abs(internal[h.symbol].qty - h.qty as real) {
      issues := issues + 1;
    } else if internal[h.symbol].stopOrderId.None? {
      issues := issues + 1;
    } else {
      var stop := report(internal[h.symbol].stopOrderId.value);
      if StopProblem(stop, h.symbol, internal[h.symbol].qty, h.product, h.exchange) != NoProblem {
        issues := issues + 1;
      }
    }
  }

  /** The comparison of the broker's rows with the ledger, as a count of issues. */
  method CountIssues(unresolved: bool, hs: seq<Holding>, internal: map<string, Tracked>, report: nat -> OrderReport)
    returns (issues: nat)
    ensures issues == 0 <==> !unresolved && CleanSoFar(hs, internal, report) && internal.Keys <= HoldingSymbols(hs)
  {
    hide CleanSoFar, HoldingSymbols;
    issues := 0;
    if unresolved { issues := issues + 1; }
    var found, seen := CheckRows(hs, internal, report);
    issues := issues + found;
    var absent := internal.Keys - seen;
    NoneAbsent(internal.Keys, seen);
    issues := issues + |absent|;
  }

  /** The loop over the broker's rows. */
  method CheckRows(hs: seq<Holding>, internal: map<string, Tracked>, report: nat -> OrderReport)
    returns (issues: nat, seen: set<string>)
    ensures issues == 0 <==> CleanSoFar(hs, internal, report)
    ensures seen == HoldingSymbols(hs)
  {
    hide HoldingMatches, CleanSoFar, HoldingSymbols;
    issues, seen := 0, {};
    var i := 0;
    NothingSeen(hs, internal, report);
    while i < |hs|
      invariant 0 <= i <= |hs|
      invariant seen == HoldingSymbols(hs[..i])
      invariant issues == 0 <==> CleanSoFar(hs[..i], internal, report)
    {
      CleanExtends(hs, i, internal, report);
      SeenExtends(hs, i);
      var found := CheckRow(hs[i], seen, internal, report);
      issues := issues + found;
      seen := seen + {hs[i].symbol};
      i := i + 1;
    }
    assert hs[..|hs|] == hs;
  }

  /** The live branch of the startup reconciliation. `holdings` is `None` when the broker's position
      query raises. The ledger is only read. */
  method ReconcileOnStartup(unresolved: bool, holdings: Option<seq<Holding>>, ledger: seq<Tracked>,
                            report: nat -> OrderReport) returns (status: Status)
    requires DistinctTracked(ledger)
    ensures status == OK <==> !unresolved && holdings.Some? && InStep(holdings.value, ledger, report)
  {
    hide InStep, CleanSoFar, BySymbol, HoldingSymbols;
    if holdings.None? { return Degraded; }
    var issues := CountIssues(unresolved, holdings.value, BySymbol(ledger), report);
    CleanIsInStep(holdings.value, ledger, report);
    return if issues == 0 then OK else Degraded;
  }

  ghost predicate CleanSoFar(hs: seq<Holding>, internal: map<string, Tracked>, report: nat -> OrderReport) {
    && (forall i, j :: 0 <= i < j < |hs| ==> hs[i].symbol != hs[j].symbol)
    && (forall i :: 0 <= i < |hs| ==> HoldingMatches(hs[i], internal, report))
  }

  lemma NoneAbsent(keys: set<string>, seen: set<string>)
    ensures |keys - seen| == 0 <==> keys <= seen
  {
    if |keys - seen| == 0 {
      assert keys - seen == {};
      assert forall k :: k in keys ==> k !in keys - seen;
    }
  }

  lemma NothingSeen(hs: seq<Holding>, internal: map<string, Tracked>, report: nat -> OrderReport)
    ensures HoldingSymbols(hs[..0]) == {} && CleanSoFar(hs[..0], internal, report)
  {
  }

  lemma SeenExtends(hs: seq<Holding>, i: nat)
    requires i < |hs|
    ensures HoldingSymbols(hs[..i + 1]) == HoldingSymbols(hs[..i]) + {hs[i].symbol}
  {
    var a, b := hs[..i], hs[..i + 1];
    assert b[i] == hs[i] && forall k :: 0 <= k < i ==> a[k] == b[k];
    forall s | s in HoldingSymbols(b)
      ensures s in HoldingSymbols(a) + {hs[i].symbol}
    {
      var k :| 0 <= k < |b| && b[k].symbol == s;
      if k < i { assert a[k].symbol == s; }
    }
  }

  lemma CleanExtends(hs: seq<Holding>, i: nat, internal: map<string, Tracked>, report: nat -> OrderReport)
    requires i < |hs|
    ensures CleanSoFar(hs[..i + 1], internal, report) <==>
      CleanSoFar(hs[..i], internal, report) && hs[i].symbol !in HoldingSymbols(hs[..i])
        && HoldingMatches(hs[i], internal, report)
  {
    hide HoldingMatches;
    var a, b := hs[..i], hs[..i + 1];
    assert forall k :: 0 <= k < i ==> a[k] == b[k];
    assert b[i] == hs[i];
    if CleanSoFar(b, internal, report) {
      assert forall k :: 0 <= k < i ==> HoldingMatches(b[k], internal, report);
    }
    if
      && CleanSoFar(a, internal, report) && hs[i].symbol !in HoldingSymbols(a)
      && HoldingMatches(hs[i], internal, report)
    {
      assert forall k :: 0 <= k < i ==> HoldingMatches(a[k], internal, report);
      assert forall k :: 0 <= k < i ==> a[k].symbol in HoldingSymbols(a);
    }
  }

  /** For a ledger position and its broker row, the two forms of the pair test agree. */
  lemma PairIsHolding(h: Holding, ledger: seq<Tracked>, k: nat, report: nat -> OrderReport)
    requires DistinctTracked(ledger) && k < |ledger| && ledger[k].symbol == h.symbol
    ensures HoldingMatches(h, BySymbol(ledger), report) <==> PairMatches(h, ledger[k], report)
  {
    hide StopProblem, BySymbol;
    BySymbolFinds(ledger);
  }

  lemma CleanIsInStep(hs: seq<Holding>, ledger: seq<Tracked>, report: nat -> OrderReport)
    requires DistinctTracked(ledger)
    ensures InStep(hs, ledger, report) <==>
      CleanSoFar(hs, BySymbol(ledger), report) && BySymbol(ledger).Keys <= HoldingSymbols(hs)
  {
    hide PairMatches, BySymbol, HoldingMatches;
    BySymbolFinds(ledger);
    forall i, k | 0 <= i < |hs| && 0 <= k < |ledger| && hs[i].symbol == ledger[k].symbol
      ensures HoldingMatches(hs[i], BySymbol(ledger), report) <==> PairMatches(hs[i], ledger[k], report)
    {
      PairIsHolding(hs[i], ledger, k, report);
    }
    forall i | 0 <= i < |hs|
      ensures hs[i].symbol in HoldingSymbols(hs)
      ensures HoldingMatches(hs[i], BySymbol(ledger), report) ==> hs[i].symbol in TrackedSymbols(ledger)
    {
      MatchIsTracked(hs[i], BySymbol(ledger), report);
    }
    if InStep(hs, ledger, report) {
      forall i | 0 <= i < |hs|
        ensures HoldingMatches(hs[i], BySymbol(ledger), report)
      {
        assert hs[i].symbol in TrackedSymbols(ledger);
        var k :| 0 <= k < |ledger| && ledger[k].symbol == hs[i].symbol;
      }
    }
  }

  lemma MatchIsTracked(h: Holding, ledger: map<string, Tracked>, report: nat -> OrderReport)
    ensures HoldingMatches(h, ledger, report) ==> h.symbol in ledger
  {
    hide StopProblem;
  }
}
