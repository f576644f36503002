/** The account at the broker as a value: net quantities and orders, and the moves the market may
    make on its own. */
module OrderBook {
  import opened Common

  datatype Side = Buy | Sell

  /** `Underway`: sent and not yet at the broker; it may arrive at any later moment, or never. */
  datatype Phase = Underway | Working | Complete | Cancelled | Rejected

  /** `heard` says that the reply to the submission brought its id. */
  datatype OrderData = OrderData(symbol: string, side: Side, qty: nat, filled: nat, phase: Phase, heard: bool)

  /** Fills never exceed the ordered quantity, and an order that was heard of is at the broker. */
  type Order = o: OrderData | o.filled <= o.qty && (o.heard ==> !o.phase.Underway?)
    witness OrderData("", Buy, 0, 0, Working, true)

  /** Net quantity by symbol, and every order ever sent; an order's index is its broker id. */
  datatype Book = Book(net: map<string, int>, orders: seq<Order>)

  function Net(b: Book, s: string): int { if s in b.net then b.net[s] else 0 }

  /** The order may still come to something. */
  predicate Alive(o: Order) { o.phase.Underway? || o.phase.Working? }

  /** What an order may still fill. */
  function Open(o: Order): nat { if Alive(o) then o.qty - o.filled else 0 }

  function SellOpen(o: Order, s: string): nat { if o.side.Sell? && o.symbol == s then Open(o) else 0 }

  function SellFilled(o: Order, s: string): nat { if o.side.Sell? && o.symbol == s then o.filled else 0 }

  /** Shares of `s` that working sell orders, other than those in `skip`, may still sell. */
  function Offered(os: seq<Order>, s: string, skip: set<nat>): nat {
    if os == [] then 0
    else Offered(os[..|os| - 1], s, skip) + (if |os| - 1 in skip then 0 else SellOpen(os[|os| - 1], s))
  }

  /** Shares of `s` that the orders `these` have sold already. */
  function Sold(os: seq<Order>, s: string, these: set<nat>): nat {
    if os == [] then 0
    else Sold(os[..|os| - 1], s, these) + (if |os| - 1 in these then SellFilled(os[|os| - 1], s) else 0)
  }

  /** Net quantity with the sales of the orders `these` added back, less what the other sells may
      still take. No market move can lower it. */
  function Reach(b: Book, s: string, these: set<nat>): int {
    Net(b, s) + Sold(b.orders, s, these) - Offered(b.orders, s, these)
  }

  /** Net quantity less everything working sells may still take. */
  function Cover(b: Book, s: string): int { Reach(b, s, {}) }

  // ---- what the market may do ----

  datatype Move = Arrive(id: nat) | Fill(id: nat, qty: nat) | End(id: nat, phase: Phase)

  function Signed(o: Order, q: nat): int { if o.side.Buy? then q as int else -(q as int) }

  /** The arrival of an order under way, a fill of a working one within its open quantity, or the end of
      either; anything else is no move at all. */
  function Apply(b: Book, m: Move): Book {
    match m
    case Arrive(id) =>
      if id < |b.orders| && b.orders[id].phase.Underway?
      then b.(orders := b.orders[id := b.orders[id].(phase := Working)])
      else b
    case Fill(id, q) =>
      if id < |b.orders| && b.orders[id].phase.Working? && q <= Open(b.orders[id])
      then
        var o := b.orders[id];
        Book(b.net[o.symbol := Net(b, o.symbol) + Signed(o, q)], b.orders[id := o.(filled := o.filled + q)])
      else b
    case End(id, phase) =>
      if id < |b.orders| && Alive(b.orders[id]) && !phase.Underway? && !phase.Working?
      then b.(orders := b.orders[id := b.orders[id].(phase := phase)])
      else b
  }

  function ApplyAll(b: Book, ms: seq<Move>): Book {
    if ms == [] then b else Apply(ApplyAll(b, ms[..|ms| - 1]), ms[|ms| - 1])
  }

  /** A new order at the end of the list, under way. */
  function Submitted(b: Book, symbol: string, side: Side, qty: nat): Book {
    b.(orders := b.orders + [OrderData(symbol, side, qty, 0, Underway, false)])
  }

  // ---- sums over orders ----

  lemma {:induction false} SumsUpdate(os: seq<Order>, i: nat, o: Order, s: string, these: set<nat>)
    requires i < |os|
    ensures Offered(os[i := o], s, these)
         == Offered(os, s, these) + (if i in these then 0 else SellOpen(o, s) - SellOpen(os[i], s))
    ensures Sold(os[i := o], s, these)
         == Sold(os, s, these) + (if i in these then SellFilled(o, s) - SellFilled(os[i], s) else 0)
  {
    var n := |os| - 1;
    if i == n {
      assert os[i := o][..n] == os[..n];
    } else {
      assert os[i := o][..n] == os[..n][i := o];
      SumsUpdate(os[..n], i, o, s, these);
    }
  }

  /** One order more among `these`. */
  lemma {:induction false} SumsWith(os: seq<Order>, k: nat, s: string, these: set<nat>)
    requires k !in these
    ensures Offered(os, s, these) == Offered(os, s, these + {k}) + (if k < |os| then SellOpen(os[k], s) else 0)
    ensures Sold(os, s, these + {k}) == Sold(os, s, these) + (if k < |os| then SellFilled(os[k], s) else 0)
  {
    if os != [] { SumsWith(os[..|os| - 1], k, s, these); }
  }

  lemma {:induction false} NoneSold(os: seq<Order>, s: string)
    ensures Sold(os, s, {}) == 0
  {
    if os != [] { NoneSold(os[..|os| - 1], s); }
  }

  lemma {:induction false} SkippingMore(os: seq<Order>, s: string, a: set<nat>, b: set<nat>)
    requires a <= b
    ensures Offered(os, s, b) <= Offered(os, s, a)
  {
    if os != [] { SkippingMore(os[..|os| - 1], s, a, b); }
  }

  /** Skipping orders that offer nothing of `s` changes nothing. */
  lemma {:induction false} SkippingIdle(os: seq<Order>, s: string, a: set<nat>, b: set<nat>)
    requires a <= b && forall k :: k in b && k !in a && k < |os| ==> SellOpen(os[k], s) == 0
    ensures Offered(os, s, b) == Offered(os, s, a)
  {
    if os != [] { SkippingIdle(os[..|os| - 1], s, a, b); }
  }

  // ---- monotonicity ----

  /** `b'` may follow from `b` by market moves alone. */
  ghost predicate Later(b: Book, b': Book) {
    && |b'.orders| == |b.orders|
    && (forall i :: 0 <= i < |b.orders| ==> OrderLater(b.orders[i], b'.orders[i]))
    && (forall s, these: set<nat> :: Reach(b, s, these) <= Reach(b', s, these))
    && (forall s, these: set<nat> :: Offered(b'.orders, s, these) <= Offered(b.orders, s, these))
    && (forall i, s :: 0 <= i < |b.orders| ==> Spare(b, s, i) <= Spare(b', s, i))
  }

  ghost predicate OrderLater(o: Order, o': Order) {
    && o'.symbol == o.symbol && o'.side == o.side && o'.qty == o.qty
    && o.filled <= o'.filled
    && (!Alive(o) ==> o' == o)
  }

  /** What cover there is beyond the purchases of order `e`; no market move can lower it. */
  function Spare(b: Book, s: string, e: nat): int {
    Cover(b, s) - (if e < |b.orders| && b.orders[e].side.Buy? && b.orders[e].symbol == s then b.orders[e].filled else 0)
  }

  lemma LaterRefl(b: Book)
    ensures Later(b, b)
  {
  }

  lemma LaterTrans(a: Book, b: Book, c: Book)
    requires Later(a, b) && Later(b, c)
    ensures Later(a, c)
  {
    hide Reach, Spare, Offered;
    forall i | 0 <= i < |a.orders|
      ensures OrderLater(a.orders[i], c.orders[i])
    {
      assert OrderLater(a.orders[i], b.orders[i]) && OrderLater(b.orders[i], c.orders[i]);
    }
    forall s, k: set<nat>
      ensures Reach(a, s, k) <= Reach(c, s, k) && Offered(c.orders, s, k) <= Offered(a.orders, s, k)
    {
      assert Reach(a, s, k) <= Reach(b, s, k) <= Reach(c, s, k);
      assert Offered(c.orders, s, k) <= Offered(b.orders, s, k) <= Offered(a.orders, s, k);
    }
    forall i, s | 0 <= i < |a.orders|
      ensures Spare(a, s, i) <= Spare(c, s, i)
    {
      assert Spare(a, s, i) <= Spare(b, s, i) <= Spare(c, s, i);
    }
  }

  lemma MoveAt(b: Book, m: Move, s: string, these: set<nat>)
    ensures Reach(b, s, these) <= Reach(Apply(b, m), s, these)
    ensures Offered(Apply(b, m).orders, s, these) <= Offered(b.orders, s, these)
  {
    var b' := Apply(b, m);
    if b' != b {
      SumsUpdate(b.orders, m.id, b'.orders[m.id], s, these);
    }
  }

  lemma MoveSpare(b: Book, m: Move, s: string, e: nat)
    requires e < |b.orders|
    ensures Spare(b, s, e) <= Spare(Apply(b, m), s, e)
  {
    var b' := Apply(b, m);
    MoveAt(b, m, s, {});
    if b' != b {
      SumsUpdate(b.orders, m.id, b'.orders[m.id], s, {});
    }
  }

  /** Every market move only ever raises reach, cover and spare cover. */
  lemma MoveIsLater(b: Book, m: Move)
    ensures Later(b, Apply(b, m))
  {
    hide Reach, Spare, Offered;
    forall s, k: set<nat>
      ensures Reach(b, s, k) <= Reach(Apply(b, m), s, k)
      ensures Offered(Apply(b, m).orders, s, k) <= Offered(b.orders, s, k)
    {
      MoveAt(b, m, s, k);
    }
    forall i, s | 0 <= i < |b.orders|
      ensures Spare(b, s, i) <= Spare(Apply(b, m), s, i)
    {
      MoveSpare(b, m, s, i);
    }
  }

  lemma {:induction false} MovesAreLater(b: Book, ms: seq<Move>)
    ensures Later(b, ApplyAll(b, ms))
  {
    hide Later;
    if ms == [] {
      LaterRefl(b);
    } else {
      MovesAreLater(b, ms[..|ms| - 1]);
      MoveIsLater(ApplyAll(b, ms[..|ms| - 1]), ms[|ms| - 1]);
      LaterTrans(b, ApplyAll(b, ms[..|ms| - 1]), ApplyAll(b, ms));
    }
  }

  lemma CoverGrows(b: Book, b': Book, s: string)
    requires Later(b, b')
    ensures Cover(b, s) <= Cover(b', s)
  {
    assert Reach(b, s, {}) <= Reach(b', s, {});
  }

  // ---- submissions ----

  lemma SubmitAt(b: Book, symbol: string, side: Side, qty: nat, s: string, these: set<nat>)
    ensures var b', n := Submitted(b, symbol, side, qty), |b.orders|;
            && Reach(b', s, these) == Reach(b, s, these) - (if side.Sell? && symbol == s && n !in these then qty else 0)
            && Offered(b'.orders, s, these)
            == Offered(b.orders, s, these) + (if side.Sell? && symbol == s && n !in these then qty else 0)
  {
    var b' := Submitted(b, symbol, side, qty);
    assert b'.orders[..|b.orders|] == b.orders;
  }

  /** Orders that do not exist yet neither offer nor have sold. */
  lemma NotYet(b: Book, s: string, these: set<nat>)
    ensures Reach(b, s, these + {|b.orders|}) == Reach(b, s, these)
    ensures Offered(b.orders, s, these + {|b.orders|}) == Offered(b.orders, s, these)
  {
    if |b.orders| in these {
      assert these + {|b.orders|} == these;
    } else {
      SumsWith(b.orders, |b.orders|, s, these);
    }
  }

  /** A submission takes exactly its quantity off the cover of the symbol it sells, and nothing else. */
  lemma SubmitCover(b: Book, symbol: string, side: Side, qty: nat, t: string)
    ensures Cover(Submitted(b, symbol, side, qty), t) == Cover(b, t) - (if side.Sell? && symbol == t then qty else 0)
  {
    SubmitAt(b, symbol, side, qty, t, {});
  }

  // ---- what being covered means ----

  lemma CoverNet(b: Book, s: string)
    ensures Cover(b, s) == Net(b, s) - Offered(b.orders, s, {})
  {
    NoneSold(b.orders, s);
  }

  /** The arrival and the fill of every sell of `s`. */
  function SellOut(os: seq<Order>, s: string): seq<Move> {
    if os == [] then []
    else
      var o := os[|os| - 1];
      SellOut(os[..|os| - 1], s)
      + (if o.side.Sell? && o.symbol == s then [Arrive(|os| - 1), Fill(|os| - 1, Open(o))] else [])
  }

  lemma {:induction false} ApplyAllConcat(b: Book, x: seq<Move>, y: seq<Move>)
    ensures ApplyAll(b, x + y) == ApplyAll(ApplyAll(b, x), y)
  {
    if y == [] {
      assert x + y == x;
    } else {
      assert (x + y)[..|x + y| - 1] == x + y[..|y| - 1];
      ApplyAllConcat(b, x, y[..|y| - 1]);
    }
  }

  /** Filling out order `m` sells what it still offers of `s`, and touches no other order. */
  lemma FillOut(b: Book, m: nat, s: string)
    requires m < |b.orders| && b.orders[m].side.Sell? && b.orders[m].symbol == s
    ensures var b' := Apply(Apply(b, Arrive(m)), Fill(m, Open(b.orders[m])));
            && |b'.orders| == |b.orders| && b'.orders[m + 1..] == b.orders[m + 1..]
            && Net(b', s) == Net(b, s) - Open(b.orders[m])
  {
  }

  lemma ApplyOne(b: Book, m: Move)
    ensures ApplyAll(b, [m]) == Apply(b, m)
  {
    assert [m][..0] == [];
  }

  lemma ApplyTwo(b: Book, m: Move, n: Move)
    ensures ApplyAll(b, [m, n]) == Apply(Apply(b, m), n)
  {
    assert [m, n][..1] == [m];
    ApplyOne(b, m);
  }

  lemma {:induction false} SellOutSells(b: Book, n: nat, s: string)
    requires n <= |b.orders|
    ensures var b' := ApplyAll(b, SellOut(b.orders[..n], s));
            && |b'.orders| == |b.orders|
            && b'.orders[n..] == b.orders[n..]
            && Net(b', s) == Net(b, s) - Offered(b.orders[..n], s, {})
  {
    hide Apply, ApplyAll, Net;
    if n == 0 {
      assert SellOut(b.orders[..0], s) == [];
      NoMoves(b);
    } else {
      var m, o := n - 1, b.orders[n - 1];
      assert b.orders[..n][..m] == b.orders[..m];
      SellOutSells(b, m, s);
      var mid := ApplyAll(b, SellOut(b.orders[..m], s));
      assert mid.orders[m] == mid.orders[m..][0] == b.orders[m..][0] == o;
      assert mid.orders[n..] == mid.orders[m..][1..] == b.orders[m..][1..] == b.orders[n..];
      if o.side.Sell? && o.symbol == s {
        ApplyAllConcat(b, SellOut(b.orders[..m], s), [Arrive(m), Fill(m, Open(o))]);
        ApplyTwo(mid, Arrive(m), Fill(m, Open(o)));
        FillOut(mid, m, s);
      } else {
        assert SellOut(b.orders[..n], s) == SellOut(b.orders[..m], s);
      }
    }
  }

  lemma NoMoves(b: Book)
    ensures ApplyAll(b, []) == b
  {
  }

  /** A symbol can be taken short by some sequence of market moves exactly when it is not covered. */
  lemma CoveredMeansNeverShort(b: Book, s: string)
    ensures 0 <= Cover(b, s) <==> forall ms :: 0 <= Net(ApplyAll(b, ms), s)
  {
    CoverNet(b, s);
    if 0 <= Cover(b, s) {
      forall ms
        ensures 0 <= Net(ApplyAll(b, ms), s)
      {
        MovesAreLater(b, ms);
        CoverGrows(b, ApplyAll(b, ms), s);
        CoverNet(ApplyAll(b, ms), s);
      }
    } else {
      SellOutSells(b, |b.orders|, s);
      assert b.orders[..|b.orders|] == b.orders;
      assert Net(ApplyAll(b, SellOut(b.orders, s)), s) < 0;
    }
  }

  /** A sale decided on the book `b` stays within the cover in every market that may come before it
      arrives exactly when the net quantity holds it and everything other sells offer; a sale of the whole
      net quantity does exactly when nothing else offers the symbol. */
  lemma SaleSafeExactly(b: Book, s: string, qty: nat)
    ensures (forall moves :: qty <= Cover(ApplyAll(b, moves), s)) <==> qty + Offered(b.orders, s, {}) <= Net(b, s)
    ensures Net(b, s) == qty ==>
      ((forall moves :: qty <= Cover(ApplyAll(b, moves), s)) <==> Offered(b.orders, s, {}) == 0)
  {
    CoverNet(b, s);
    forall moves
      ensures Cover(b, s) <= Cover(ApplyAll(b, moves), s)
    {
      MovesAreLater(b, moves);
      CoverGrows(b, ApplyAll(b, moves), s);
    }
    NoMoves(b);
  }
}
