/** Checking a broker's report of a stop order against the exposure it is meant to protect. */
module Protection {
  import opened Common

  /** One order as the broker reports it; a quantity or trigger missing from the report is `None`. */
  datatype OrderReport = OrderReport(
    status: string,
    symbol: string,
    transactionType: string,
    product: string,
    exchange: string,
    orderType: string,
    pending: Option<int>,
    filled: Option<int>,
    trigger: Option<real>,
    averagePrice: real
  )

  datatype Problem =
    | NoProblem | NotWorking | DetailsUnavailable | QuantityDiffers | InvalidTrigger
    | WrongSymbol | WrongSide | WrongProduct | WrongExchange | NotAStop

  const TOLERANCE: real := 0.0001

  function StopIdentityProblem(r: OrderReport, symbol: string, product: string, exchange: string): Problem {
    if Upper(r.symbol) != Upper(symbol) then WrongSymbol
    else if Upper(r.transactionType) != "SELL" then WrongSide
    else if Upper(r.product) != Upper(product) then WrongProduct
    else if Upper(r.exchange) != Upper(exchange) then WrongExchange
    else if r.orderType != "SL" && r.orderType != "SL-M" then NotAStop
    else NoProblem
  }

  function StopProblem(r: OrderReport, symbol: string, qty: real, product: string, exchange: string): Problem {
    if r.status != "OPEN" && r.status != "TRIGGER PENDING" then NotWorking
    else if r.pending.None? || r.filled.None? || r.trigger.None? then DetailsUnavailable
    else if r.filled.value != 0 || TOLERANCE < Abs(r.pending.value as real - qty) || qty <= 0.0 then QuantityDiffers
    else if r.trigger.value <= 0.0 then InvalidTrigger
    else StopIdentityProblem(r, symbol, product, exchange)
  }

  /** A stop that passes is working, untouched, and still has exactly the exposure pending; for a
      whole number of shares the tolerance means equality. */
  lemma PassingStop(r: OrderReport, symbol: string, qty: real, product: string, exchange: string)
    ensures StopProblem(r, symbol, qty, product, exchange) == NoProblem <==>
      && (r.status == "OPEN" || r.status == "TRIGGER PENDING")
      && r.filled == Some(0) && r.pending.Some? && r.trigger.Some? && 0.0 < r.trigger.value
      && 0.0 < qty && Abs(r.pending.value as real - qty) <= TOLERANCE
      && StopIdentityProblem(r, symbol, product, exchange) == NoProblem
    ensures forall shares: int {:trigger StopProblem(r, symbol, shares as real, product, exchange)} ::
      StopProblem(r, symbol, shares as real, product, exchange) == NoProblem ==> r.pending == Some(shares) && 0 < shares
  {
    hide StopIdentityProblem;
    forall shares: int {:trigger StopProblem(r, symbol, shares as real, product, exchange)}
      | StopProblem(r, symbol, shares as real, product, exchange) == NoProblem
      ensures r.pending == Some(shares) && 0 < shares
    {
      WholeShares(r.pending.value, shares);
    }
  }

  lemma WholeShares(a: int, b: int)
    ensures Abs(a as real - b as real) <= TOLERANCE ==> a == b
  {
    if a < b { assert a as real + 1.0 <= b as real; }
    if b < a { assert b as real + 1.0 <= a as real; }
  }
}
