/** What the simulator guarantees: no look-ahead, disjoint holding periods, bounded losses and
    solvency, and a one-pass drawdown that is the true maximum. */
module BacktestLaws {
  import opened Common
  import opened Configuration
  import opened Backtest
  import Sizing

  // ---- causality ----

  ghost predicate AgreeUpTo(a: seq<Bar>, b: seq<Bar>, m: nat) {
    m <= |a| && m <= |b| && a[..m] == b[..m]
  }

  lemma {:induction false} FirstTouchLocal(a: seq<Bar>, b: seq<Bar>, m: nat, j: nat, end: nat, stop: real, target: real)
    requires AgreeUpTo(a, b, m) && end < m && j <= end + 1
    ensures FirstTouch(a, j, end, stop, target) == FirstTouch(b, j, end, stop, target)
    decreases end + 1 - j
  {
    assert a[end] == a[..m][end] == b[..m][end] == b[end];
    if j <= end {
      assert a[j] == a[..m][j] == b[..m][j] == b[j];
      FirstTouchLocal(a, b, m, j + 1, end, stop, target);
    }
  }

  lemma StepLocal(cfg: Settings, a: seq<Bar>, b: seq<Bar>, scan: Strategy, m: nat, acc: Account, i: nat)
    requires AgreeUpTo(a, b, m) && i + HOLD < m
    ensures Step(cfg, a, scan, acc, i) == Step(cfg, b, scan, acc, i)
  {
    hide Shares, Pays, WellPlaced, ExitPrice, NetPnl, FirstTouch;
    assert a[..i + 1] == a[..m][..i + 1] == b[..m][..i + 1] == b[..i + 1];
    assert a[i + 1] == a[..m][i + 1] == b[..m][i + 1] == b[i + 1];
    var sig := scan(a[..i + 1]);
    if sig.Some? {
      FirstTouchLocal(a, b, m, i + 1, i + HOLD, sig.value.stopLoss, sig.value.takeProfit);
    }
  }

  /** No look-ahead: two series that agree on their first `m` bars give the same trades, equity,
      peak and drawdown once every signal bar whose five-bar window lies within those bars has
      been processed, whatever comes later in either series. */
  lemma {:induction false} Causality(cfg: Settings, a: seq<Bar>, b: seq<Bar>, scan: Strategy, capital: real, m: nat,
                                     n: nat)
    requires AgreeUpTo(a, b, m) && (n + HOLD <= m || n <= WARMUP)
    ensures RunTo(cfg, a, scan, capital, n) == RunTo(cfg, b, scan, capital, n)
  {
    hide Step;
    if WARMUP < n {
      Causality(cfg, a, b, scan, capital, m, n - 1);
      StepLocal(cfg, a, b, scan, m, RunTo(cfg, a, scan, capital, n - 1), n - 1);
    }
  }

  /** Trades are only ever appended. */
  lemma {:induction false} TradesGrow(cfg: Settings, bars: seq<Bar>, scan: Strategy, capital: real, n: nat, later: nat)
    requires n <= later && (later < |bars| || later <= WARMUP)
    ensures RunTo(cfg, bars, scan, capital, n).trades <= RunTo(cfg, bars, scan, capital, later).trades
    decreases later
  {
    hide TradeAt;
    if n < later && WARMUP < later {
      TradesGrow(cfg, bars, scan, capital, n, later - 1);
    }
  }

  /** The published form: extending a series never changes a trade already completed on it. */
  lemma ExtensionKeepsTrades(cfg: Settings, bars: seq<Bar>, more: seq<Bar>, scan: Strategy, capital: real, n: nat)
    requires n + HOLD <= |bars|
    ensures RunTo(cfg, bars, scan, capital, n) == RunTo(cfg, bars + more, scan, capital, n)
    ensures RunTo(cfg, bars, scan, capital, n).trades
         <= RunTo(cfg, bars + more, scan, capital, LastSignal(|bars + more|)).trades
  {
    assert (bars + more)[..|bars|] == bars == bars[..|bars|];
    Causality(cfg, bars, bars + more, scan, capital, |bars|, n);
    if n <= LastSignal(|bars + more|) {
      TradesGrow(cfg, bars + more, scan, capital, n, LastSignal(|bars + more|));
    }
  }

  // ---- every trade, and the gaps between trades ----

  /** A trade is the one its own signal bar opens, at some equity the account had. */
  ghost predicate Genuine(cfg: Settings, bars: seq<Bar>, scan: Strategy, t: Trade, equity: real) {
    t.signalBar + 1 < |bars| && equity != 0.0 && TradeAt(cfg, bars, scan, equity, t.signalBar) == Some(t)
  }

  function EquityBefore(capital: real, trades: seq<Trade>, k: nat): real
    requires k <= |trades|
  {
    if k == 0 then capital else EquityBefore(capital, trades, k - 1) + trades[k - 1].pnl
  }

  lemma {:induction false} EquityBeforePrefix(capital: real, trades: seq<Trade>, t: Trade, k: nat)
    requires k <= |trades|
    ensures EquityBefore(capital, trades + [t], k) == EquityBefore(capital, trades, k)
  {
    if k != 0 { EquityBeforePrefix(capital, trades, t, k - 1); }
  }

  ghost predicate SoundTrades(cfg: Settings, bars: seq<Bar>, scan: Strategy, capital: real, acc: Account) {
    && acc.equity == EquityBefore(capital, acc.trades, |acc.trades|)
    && (forall k :: 0 <= k < |acc.trades| ==>
          Genuine(cfg, bars, scan, acc.trades[k], EquityBefore(capital, acc.trades, k)))
    && (forall j, k :: 0 <= j < k < |acc.trades| ==> acc.trades[j].exitBar < acc.trades[k].signalBar)
    && (forall k :: 0 <= k < |acc.trades| ==> acc.trades[k].exitBar < acc.nextEntry)
  }

  /** Every booked trade is the genuine outcome of its signal bar at the equity of that moment, and
      each signal comes after the previous trade has been closed. */
  lemma {:induction false} RunIsSound(cfg: Settings, bars: seq<Bar>, scan: Strategy, capital: real, n: nat)
    requires n < |bars| || n <= WARMUP
    ensures SoundTrades(cfg, bars, scan, capital, RunTo(cfg, bars, scan, capital, n))
  {
    hide Step, Genuine, Booked;
    if WARMUP < n {
      RunIsSound(cfg, bars, scan, capital, n - 1);
      var acc := RunTo(cfg, bars, scan, capital, n - 1);
      var t := StepIsBooking(cfg, bars, scan, acc, n - 1);
      if t.Some? { BookingIsSound(cfg, bars, scan, capital, acc, t.value); }
    }
  }

  lemma BookingIsSound(cfg: Settings, bars: seq<Bar>, scan: Strategy, capital: real, acc: Account, t: Trade)
    requires SoundTrades(cfg, bars, scan, capital, acc)
    requires Genuine(cfg, bars, scan, t, acc.equity) && acc.nextEntry <= t.signalBar < t.exitBar
    ensures SoundTrades(cfg, bars, scan, capital, Booked(acc, t))
  {
    hide Genuine, Drawdown, EquityBefore;
    var trades, m := acc.trades + [t], |acc.trades|;
    EquityAfter(capital, trades);
    forall k: nat | k <= m
      ensures EquityBefore(capital, trades, k) == EquityBefore(capital, acc.trades, k)
    {
      EquityBeforePrefix(capital, acc.trades, t, k);
    }
    forall k | 0 <= k < m + 1
      ensures Genuine(cfg, bars, scan, trades[k], EquityBefore(capital, trades, k))
    {
      if k < m { assert trades[k] == acc.trades[k]; }
    }
  }

  lemma EquityAfter(capital: real, trades: seq<Trade>)
    requires trades != []
    ensures EquityBefore(capital, trades, |trades|)
      == EquityBefore(capital, trades, |trades| - 1) + trades[|trades| - 1].pnl
  {
  }

  /** A step either leaves the account alone or books one genuine trade of its signal bar. */
  lemma StepIsBooking(cfg: Settings, bars: seq<Bar>, scan: Strategy, acc: Account, i: nat) returns (t: Option<Trade>)
    requires i + 1 < |bars|
    ensures t.None? ==> Step(cfg, bars, scan, acc, i) == acc
    ensures t.Some? ==>
      && Step(cfg, bars, scan, acc, i) == Booked(acc, t.value)
      && Genuine(cfg, bars, scan, t.value, acc.equity)
      && acc.nextEntry <= i == t.value.signalBar < t.value.exitBar
  {
    hide TradeAt, Booked;
    t := if i < acc.nextEntry || acc.equity == 0.0 then None else TradeAt(cfg, bars, scan, acc.equity, i);
    if t.Some? { TradeHasItsBar(cfg, bars, scan, acc.equity, i); }
  }

  lemma TradeHasItsBar(cfg: Settings, bars: seq<Bar>, scan: Strategy, equity: real, i: nat)
    requires i + 1 < |bars| && equity != 0.0
    ensures TradeAt(cfg, bars, scan, equity, i).Some? ==>
      var t := TradeAt(cfg, bars, scan, equity, i).value;
      t.signalBar == i && i + 1 <= t.exitBar <= Horizon(i, |bars|)
  {
    hide Shares, Pays, WellPlaced, ExitPrice, NetPnl, EntryPrice;
    var sig := scan(bars[..i + 1]);
    if sig.Some? {
      FirstTouchIsFirst(bars, i + 1, Horizon(i, |bars|), sig.value.stopLoss, sig.value.takeProfit);
    }
  }

  /** Holding periods, entry bar to exit bar, are non-empty and never overlap. */
  lemma HoldingsDisjoint(cfg: Settings, bars: seq<Bar>, scan: Strategy, capital: real, n: nat, j: nat, k: nat)
    requires n < |bars| || n <= WARMUP
    requires j < k < |RunTo(cfg, bars, scan, capital, n).trades|
    ensures var trades := RunTo(cfg, bars, scan, capital, n).trades;
            trades[j].signalBar + 1 <= trades[j].exitBar < trades[k].signalBar + 1 <= trades[k].exitBar
  {
    hide TradeAt, RunTo;
    RunIsSound(cfg, bars, scan, capital, n);
    var trades := RunTo(cfg, bars, scan, capital, n).trades;
    assert Genuine(cfg, bars, scan, trades[j], EquityBefore(capital, trades, j));
    assert Genuine(cfg, bars, scan, trades[k], EquityBefore(capital, trades, k));
    TradeHasItsBar(cfg, bars, scan, EquityBefore(capital, trades, j), trades[j].signalBar);
    TradeHasItsBar(cfg, bars, scan, EquityBefore(capital, trades, k), trades[k].signalBar);
  }

  // ---- wins and losses ----

  function Slip(cfg: Settings): real { cfg.exitSlippageBps / 10000.0 }

  function Fee(cfg: Settings): real { cfg.roundTripCostBps / 10000.0 }

  /** Net profit of one share that exits at `price` before exit slippage. */
  function ShareNet(cfg: Settings, entry: real, price: real): real {
    price * (1.0 - Slip(cfg)) - entry - entry * Fee(cfg)
  }

  lemma NetPnlPerShare(cfg: Settings, entry: real, price: real, qty: int)
    ensures NetPnl(cfg, entry, ExitPrice(cfg, price), qty) == ShareNet(cfg, entry, price) * qty as real
  {
  }

  /** An exit at or below the stop loses: slippage and fees only make it worse. */
  lemma StopLoses(cfg: Settings, entry: real, stop: real, price: real)
    requires 0.0 <= Slip(cfg) && 0.0 <= Fee(cfg) && 0.0 <= price <= stop < entry
    ensures ShareNet(cfg, entry, price) < 0.0
  {
    ScaleUp(0.0, Slip(cfg), price);
    ScaleUp(0.0, Fee(cfg), entry);
  }

  /** A target exit wins whenever the reward filter, with its minimum ratio `m`, passed and
      exit slippage takes at most the share `m / (1 + m)` of the price. */
  lemma TargetWins(cfg: Settings, sig: Signal, entry: real)
    requires cfg.Valid() && WellPlaced(sig, entry) && Pays(cfg, sig, entry)
    requires 1.0 <= (1.0 - Slip(cfg)) * (1.0 + cfg.minNetRewardRisk)
    ensures 0.0 < ShareNet(cfg, entry, sig.takeProfit)
  {
    hide Pays;
    var gain, risk, cost := sig.takeProfit - entry, entry - sig.stopLoss, EstimatedCost(cfg, entry);
    CostParts(cfg, entry);
    RewardFilter(cfg, sig, entry);
    GainCovers(gain, risk, cost, cfg.minNetRewardRisk, 1.0 - Slip(cfg));
    assert sig.takeProfit * (1.0 - Slip(cfg)) == gain * (1.0 - Slip(cfg)) + entry - entry * Slip(cfg);
  }

  /** A signal right at the reward filter's bound, `risk` below the entry. */
  function AtBound(cfg: Settings, entry: real, risk: real): Signal {
    var cost := EstimatedCost(cfg, entry);
    Signal(entry - risk, entry + cost + cfg.minNetRewardRisk * (risk + cost), "")
  }

  /** There the target exit nets the cost times what the slippage leaves beyond the filter's ratio, and a
      share of the risk. */
  lemma BoundNets(cfg: Settings, entry: real, risk: real)
    requires cfg.Valid() && 0.0 < entry && 0.0 < risk < entry
    ensures var sig, keep, m := AtBound(cfg, entry, risk), 1.0 - Slip(cfg), cfg.minNetRewardRisk;
            && WellPlaced(sig, entry) && Pays(cfg, sig, entry)
            && ShareNet(cfg, entry, sig.takeProfit)
              == EstimatedCost(cfg, entry) * (keep * (1.0 + m) - 1.0) + keep * m * risk
  {
    hide EstimatedCost;
    var cost, keep, m := EstimatedCost(cfg, entry), 1.0 - Slip(cfg), cfg.minNetRewardRisk;
    CostParts(cfg, entry);
    assert 0.0 <= cost;
    ScaleUp(0.0, m, risk + cost);
    Ratio(m, risk + cost);
    assert AtBound(cfg, entry, risk).takeProfit - entry - cost == m * (risk + cost);
    BoundArithmetic(entry, cost, Slip(cfg), Fee(cfg), m, risk);
  }

  lemma Ratio(m: real, x: real)
    requires 0.0 < x
    ensures (m * x) / x == m
  {
  }

  lemma BoundArithmetic(e: real, c: real, slip: real, fee: real, m: real, r: real)
    requires c == e * slip + e * fee
    ensures (e + c + m * (r + c)) * (1.0 - slip) - e - e * fee
      == c * ((1.0 - slip) * (1.0 + m) - 1.0) + (1.0 - slip) * m * r
  {
    var k := 1.0 - slip;
    var ck, rk := c * k, r * k;
    assert (e + c + m * (r + c)) * k == e * k + ck + m * rk + m * ck;
    assert e * k == e - e * slip;
    assert c * (k * (1.0 + m) - 1.0) == ck + ck * m - c;
    assert k * m * r == m * rk;
  }

  /** The exact condition: at a given entry every target exit the filter lets through wins if and only if
      exit slippage leaves the share `1 / (1 + m)` of the price. */
  lemma TargetWinsExactly(cfg: Settings, entry: real)
    requires cfg.Valid() && 0.0 < entry
    ensures (forall sig: Signal :: WellPlaced(sig, entry) && Pays(cfg, sig, entry) ==>
      0.0 < ShareNet(cfg, entry, sig.takeProfit))
       <==> 1.0 <= (1.0 - Slip(cfg)) * (1.0 + cfg.minNetRewardRisk)
  {
    hide WellPlaced, Pays, ShareNet, EstimatedCost, Slip;
    if 1.0 <= (1.0 - Slip(cfg)) * (1.0 + cfg.minNetRewardRisk) {
      forall sig: Signal | WellPlaced(sig, entry) && Pays(cfg, sig, entry)
        ensures 0.0 < ShareNet(cfg, entry, sig.takeProfit)
      {
        TargetWins(cfg, sig, entry);
      }
    } else {
      var keep, m, cost := 1.0 - Slip(cfg), cfg.minNetRewardRisk, EstimatedCost(cfg, entry);
      CostIsPositive(cfg, entry);
      var risk := SmallRisk(entry, cost * (1.0 - keep * (1.0 + m)), keep * m) by {
        Positive(cost, 1.0 - keep * (1.0 + m));
      }
      BoundNets(cfg, entry, risk);
      assert cost * (keep * (1.0 + m) - 1.0) == -(cost * (1.0 - keep * (1.0 + m)));
      assert ShareNet(cfg, entry, AtBound(cfg, entry, risk).takeProfit) <= 0.0;
    }
  }

  /** Slippage beyond the margin is some slippage, so there is a cost. */
  lemma CostIsPositive(cfg: Settings, entry: real)
    requires cfg.Valid() && 0.0 < entry && (1.0 - Slip(cfg)) * (1.0 + cfg.minNetRewardRisk) < 1.0
    ensures 0.0 < EstimatedCost(cfg, entry)
  {
    CostParts(cfg, entry);
    if Slip(cfg) <= 0.0 { ScaleUp(1.0, 1.0 - Slip(cfg), 1.0 + cfg.minNetRewardRisk); }
    Positive(entry, Slip(cfg));
  }

  /** A risk small enough for `a` times it to stay within `room`. */
  lemma SmallRisk(entry: real, room: real, a: real) returns (risk: real)
    requires 0.0 < entry && 0.0 < room
    ensures 0.0 < risk < entry && a * risk <= room
  {
    if a <= 0.0 {
      risk := entry / 2.0;
      ScaleUp(a, 0.0, risk);
    } else {
      risk := Min(entry / 2.0, room / a);
      ScaleUp(risk, room / a, a);
      assert room / a * a == room;
      ScaleUp(0.0, room / a, a);
    }
  }

  /** With an exit slippage of 7000 basis points the filter passes a trade whose target exit loses. */
  lemma TargetMayLose(cfg: Settings)
    requires cfg.minNetRewardRisk == 1.5 && cfg.exitSlippageBps == 7000.0 && cfg.roundTripCostBps == 0.0
    ensures var sig := Signal(99.0, 276.5, "");
            WellPlaced(sig, 100.0) && Pays(cfg, sig, 100.0) && ShareNet(cfg, 100.0, sig.takeProfit) == -17.05
  {
  }

  lemma CostSplit(cfg: Settings, entry: real)
    ensures EstimatedCost(cfg, entry) == entry * Slip(cfg) + entry * Fee(cfg)
  {
  }

  lemma CostParts(cfg: Settings, entry: real)
    requires cfg.Valid() && 0.0 < entry
    ensures EstimatedCost(cfg, entry) == entry * Slip(cfg) + entry * Fee(cfg)
    ensures 0.0 <= entry * Slip(cfg) && 0.0 <= entry * Fee(cfg)
  {
    ScaleUp(0.0, Slip(cfg), entry);
    ScaleUp(0.0, Fee(cfg), entry);
  }

  lemma RewardFilter(cfg: Settings, sig: Signal, entry: real)
    requires cfg.Valid() && WellPlaced(sig, entry) && Pays(cfg, sig, entry)
    ensures var cost := EstimatedCost(cfg, entry);
            cfg.minNetRewardRisk * (entry - sig.stopLoss + cost) <= sig.takeProfit - entry - cost
  {
    CostParts(cfg, entry);
    var cost := EstimatedCost(cfg, entry);
    BelowQuotient(cfg.minNetRewardRisk, sig.takeProfit - entry - cost, entry - sig.stopLoss + cost);
  }

  lemma GainCovers(gain: real, risk: real, cost: real, m: real, keep: real)
    requires 0.0 < risk && 0.0 <= cost && 1.0 <= m
    requires m * (risk + cost) <= gain - cost
    requires 1.0 <= keep * (1.0 + m)
    ensures cost < gain * keep
  {
    assert 0.0 < keep by {
      if keep <= 0.0 { ScaleUp(keep, 0.0, 1.0 + m); }
    }
    assert m * (risk + cost) == m * risk + m * cost;
    assert (1.0 + m) * cost < gain by { ScaleUp(1.0, m, risk); }
    ScaleUp((1.0 + m) * cost, gain, keep);
    ScaleUp(1.0, keep * (1.0 + m), cost);
    assert (1.0 + m) * cost * keep == keep * (1.0 + m) * cost;
    assert ((gain - (1.0 + m) * cost) * keep) > 0.0;
  }

  // ---- losses and solvency ----

  ghost predicate SaneBars(bars: seq<Bar>) {
    forall i :: 0 <= i < |bars| ==> 0.0 <= bars[i].open && 0.0 <= bars[i].low <= bars[i].close
  }

  /** The worst share of equity one trade can lose: the position-value cap and the fees on it. */
  function WorstLoss(cfg: Settings): real { cfg.maxPositionValuePct / 100.0 * (1.0 + Fee(cfg)) }

  lemma SharesFit(cfg: Settings, equity: real, entry: real, stop: real)
    requires cfg.Valid() && 0 < Shares(cfg, equity, entry, stop)
    ensures var q := Shares(cfg, equity, entry, stop) as real;
            && 0.0 < equity && 0.0 < entry
            && q * (entry - stop + EstimatedCost(cfg, entry)) <= equity * cfg.maxRiskPerTradePct / 100.0
            && q * entry <= equity * cfg.maxPositionValuePct / 100.0
  {
    hide Sizing.Compute, Sizing.HeatRoomPct, Sizing.CapBasis;
    var inp := SizeInputFor(equity, entry, stop);
    Sizing.SizeFitsEveryBudget(cfg, inp, Sizing.FixedRisk);
    FullMultiplier(cfg, inp);
  }

  lemma FullMultiplier(cfg: Settings, inp: Sizing.SizeInput)
    requires inp.riskMultiplier == 1.0
    ensures Sizing.MaxRiskPct(cfg, inp) == cfg.maxRiskPerTradePct
  {
  }

  lemma ShareNetAboveStop(cfg: Settings, entry: real, stop: real, price: real)
    requires 0.0 <= Slip(cfg) <= 1.0 && 0.0 < stop < entry && stop <= price
    ensures -(entry - stop + EstimatedCost(cfg, entry)) <= ShareNet(cfg, entry, price)
  {
    hide EstimatedCost, Slip, Fee;
    CostSplit(cfg, entry);
    SlippedAboveStop(entry, stop, price, Slip(cfg), Fee(cfg));
  }

  lemma SlippedAboveStop(entry: real, stop: real, price: real, slip: real, fee: real)
    requires 0.0 <= slip <= 1.0 && stop < entry && stop <= price
    ensures -(entry - stop + (entry * slip + entry * fee)) <= price * (1.0 - slip) - entry - entry * fee
  {
    var keep := 1.0 - slip;
    ScaleUp(stop, price, keep);
    ScaleUp(stop, entry, slip);
    assert stop * keep == stop - stop * slip;
    assert stop - stop * slip <= price * keep;
    assert stop - entry * slip <= price * keep;
    assert -(entry - stop + (entry * slip + entry * fee)) <= price * keep - entry - entry * fee;
  }

  lemma ShareNetAboveZero(cfg: Settings, entry: real, price: real)
    requires Slip(cfg) <= 1.0 && 0.0 <= price
    ensures -(entry * (1.0 + Fee(cfg))) <= ShareNet(cfg, entry, price)
  {
    ScaleUp(0.0, price, 1.0 - Slip(cfg));
  }

  ghost function SignalOf(bars: seq<Bar>, scan: Strategy, t: Trade): Option<Signal>
    requires t.signalBar + 1 < |bars|
  {
    scan(bars[..t.signalBar + 1])
  }

  ghost function ExitOf(bars: seq<Bar>, sig: Signal, i: nat): ExitPoint
    requires i + 1 < |bars|
  {
    FirstTouch(bars, i + 1, Horizon(i, |bars|), sig.stopLoss, sig.takeProfit)
  }

  /** What a genuine trade is made of: its signal, its size and its first-touch exit. */
  lemma GenuineParts(cfg: Settings, bars: seq<Bar>, scan: Strategy, t: Trade, equity: real)
    requires Genuine(cfg, bars, scan, t, equity)
    ensures SignalOf(bars, scan, t).Some?
    ensures var sig := SignalOf(bars, scan, t).value;
            && WellPlaced(sig, t.entry) && Pays(cfg, sig, t.entry)
            && t.entry == EntryPrice(bars, t.signalBar)
            && t.qty == Shares(cfg, equity, t.entry, sig.stopLoss) && 0 < t.qty
    ensures var e := ExitOf(bars, SignalOf(bars, scan, t).value, t.signalBar);
            && t.exitBar == e.bar && t.reason == e.reason && t.exit == ExitPrice(cfg, e.price)
            && t.pnl == NetPnl(cfg, t.entry, ExitPrice(cfg, e.price), t.qty)
            && (t.win <==> 0.0 < t.pnl)
  {
    hide Shares, Pays, WellPlaced, ExitPrice, NetPnl, EntryPrice, FirstTouch;
    var got := TradeAt(cfg, bars, scan, equity, t.signalBar);
    assert got.value.signalBar == t.signalBar;
  }

  /** The raw exit price of a first-touch exit: at or below the stop on a stop or a gap, the target
      on a target, above the stop on a time exit. */
  lemma ExitPriceRange(bars: seq<Bar>, i: nat, sig: Signal)
    requires SaneBars(bars) && i + 1 < |bars| && 0.0 < sig.stopLoss < sig.takeProfit
    ensures var e := ExitOf(bars, sig, i);
            && 0.0 <= e.price
            && match e.reason
               case GapStop => e.price <= sig.stopLoss
               case Stop => e.price == sig.stopLoss
               case Target => e.price == sig.takeProfit
               case TimeExit => sig.stopLoss < e.price
  {
    var end := Horizon(i, |bars|);
    FirstTouchIsFirst(bars, i + 1, end, sig.stopLoss, sig.takeProfit);
    if ExitOf(bars, sig, i).reason.TimeExit? {
      assert !Touches(bars[end], sig.stopLoss, sig.takeProfit);
    }
  }

  ghost predicate Bounds(cfg: Settings, t: Trade, equity: real) {
    && -(equity * WorstLoss(cfg)) <= t.pnl
    && (t.reason.Stop? || t.reason.TimeExit? ==> -(equity * cfg.maxRiskPerTradePct / 100.0) <= t.pnl)
    && (t.reason.Stop? || t.reason.GapStop? ==> t.pnl < 0.0 && !t.win)
    && (t.reason.Target? && 1.0 <= (1.0 - Slip(cfg)) * (1.0 + cfg.minNetRewardRisk) ==> 0.0 < t.pnl && t.win)
  }

  /** Every genuine trade: a stop or time exit loses at most the per-trade risk share of the
      equity at entry, any exit loses at most the worst-loss share, stop and gap exits always
      lose, and target exits always win at realistic slippage. */
  lemma TradeBounds(cfg: Settings, bars: seq<Bar>, scan: Strategy, t: Trade, equity: real)
    requires cfg.Valid() && Slip(cfg) <= 1.0 && SaneBars(bars)
    requires Genuine(cfg, bars, scan, t, equity)
    ensures 0.0 < equity && Bounds(cfg, t, equity)
  {
    hide ExitOf, SignalOf, TradeAt, Shares, Pays, EstimatedCost, ShareNet, EntryPrice, NetPnl, ExitPrice, WorstLoss,
      Bounds, Slip;
    GenuineParts(cfg, bars, scan, t, equity);
    var sig := SignalOf(bars, scan, t).value;
    var e := ExitOf(bars, sig, t.signalBar);
    ExitPriceRange(bars, t.signalBar, sig);
    NetPnlPerShare(cfg, t.entry, e.price, t.qty);
    SharesFit(cfg, equity, t.entry, sig.stopLoss);
    PriceBounds(cfg, sig, t.entry, e, equity, t.qty as real, t);
  }

  lemma PriceBounds(cfg: Settings, sig: Signal, entry: real, e: ExitPoint, equity: real, q: real, t: Trade)
    requires cfg.Valid() && Slip(cfg) <= 1.0 && WellPlaced(sig, entry) && Pays(cfg, sig, entry)
    requires 0.0 <= e.price
    requires match e.reason
             case GapStop => e.price <= sig.stopLoss
             case Stop => e.price == sig.stopLoss
             case Target => e.price == sig.takeProfit
             case TimeExit => sig.stopLoss < e.price
    requires 0.0 < q
    requires q * (entry - sig.stopLoss + EstimatedCost(cfg, entry)) <= equity * cfg.maxRiskPerTradePct / 100.0
    requires q * entry <= equity * cfg.maxPositionValuePct / 100.0
    requires t.pnl == ShareNet(cfg, entry, e.price) * q && t.reason == e.reason && (t.win <==> 0.0 < t.pnl)
    ensures Bounds(cfg, t, equity)
  {
    hide Pays, EstimatedCost, ShareNet, WorstLoss;
    var net := ShareNet(cfg, entry, e.price);
    assert 0.0 <= Slip(cfg) && 0.0 <= Fee(cfg);
    hide Slip, Fee;
    ShareNetAboveZero(cfg, entry, e.price);
    ScaleUp(-(entry * (1.0 + Fee(cfg))), net, q);
    ValueCap(q, entry, equity, cfg);
    if sig.stopLoss <= e.price {
      ShareNetAboveStop(cfg, entry, sig.stopLoss, e.price);
      LossWithinRisk(q, entry - sig.stopLoss + EstimatedCost(cfg, entry), net, equity * cfg.maxRiskPerTradePct / 100.0);
    }
    if e.reason.Stop? || e.reason.GapStop? {
      StopLoses(cfg, entry, sig.stopLoss, e.price);
      Negative(net, q);
    } else if e.reason.Target? && 1.0 <= (1.0 - Slip(cfg)) * (1.0 + cfg.minNetRewardRisk) {
      TargetWins(cfg, sig, entry);
      Positive(net, q);
    }
  }

  lemma Negative(x: real, q: real)
    requires x < 0.0 && 0.0 < q
    ensures x * q < 0.0
  {
  }

  lemma Positive(x: real, q: real)
    requires 0.0 < x && 0.0 < q
    ensures 0.0 < x * q
  {
  }

  lemma LossWithinRisk(q: real, stressed: real, net: real, budget: real)
    requires 0.0 <= q && -stressed <= net && q * stressed <= budget
    ensures -budget <= net * q
  {
    ScaleUp(-stressed, net, q);
  }

  lemma ValueCap(q: real, entry: real, equity: real, cfg: Settings)
    requires cfg.Valid() && q * entry <= equity * cfg.maxPositionValuePct / 100.0
    ensures -(equity * WorstLoss(cfg)) <= -(entry * (1.0 + Fee(cfg))) * q
  {
    ScaleUp(q * entry, equity * cfg.maxPositionValuePct / 100.0, 1.0 + Fee(cfg));
    assert entry * (1.0 + Fee(cfg)) * q == q * entry * (1.0 + Fee(cfg));
    assert equity * cfg.maxPositionValuePct / 100.0 * (1.0 + Fee(cfg)) == equity * WorstLoss(cfg);
  }

  function Pow(x: real, n: nat): real { if n == 0 then 1.0 else Pow(x, n - 1) * x }

  /** What is left of `capital` after losing the share `loss` in each of `n` trades. */
  function Floor(capital: real, loss: real, n: nat): real { capital * Pow(1.0 - loss, n) }

  /** Solvency: when the value cap with its fees is below the whole equity, the equity stays positive
      after every trade and above the geometric bound in the number of trades. */
  lemma {:induction false} EquityBound(cfg: Settings, bars: seq<Bar>, scan: Strategy, capital: real, acc: Account,
                                       k: nat)
    requires cfg.Valid() && Slip(cfg) <= 1.0 && SaneBars(bars) && 0.0 < capital && WorstLoss(cfg) < 1.0
    requires SoundTrades(cfg, bars, scan, capital, acc) && k <= |acc.trades|
    ensures 0.0 < Floor(capital, WorstLoss(cfg), k) <= EquityBefore(capital, acc.trades, k)
  {
    hide Genuine, WorstLoss, Slip, Floor, SoundTrades;
    if k != 0 {
      var e, t := EquityBefore(capital, acc.trades, k - 1), acc.trades[k - 1];
      EquityBound(cfg, bars, scan, capital, acc, k - 1);
      assert Genuine(cfg, bars, scan, t, e) by { SoundTrade(cfg, bars, scan, capital, acc, k - 1); }
      LossBound(cfg, bars, scan, t, e);
      GeometricStep(capital, WorstLoss(cfg), k, e, t.pnl);
    } else {
      FloorAtStart(capital, WorstLoss(cfg));
    }
  }

  lemma SoundTrade(cfg: Settings, bars: seq<Bar>, scan: Strategy, capital: real, acc: Account, k: nat)
    requires SoundTrades(cfg, bars, scan, capital, acc) && k < |acc.trades|
    ensures Genuine(cfg, bars, scan, acc.trades[k], EquityBefore(capital, acc.trades, k))
  {
    hide Genuine, EquityBefore;
  }

  lemma FloorAtStart(capital: real, loss: real)
    ensures Floor(capital, loss, 0) == capital
  {
  }

  lemma LossBound(cfg: Settings, bars: seq<Bar>, scan: Strategy, t: Trade, equity: real)
    requires cfg.Valid() && Slip(cfg) <= 1.0 && SaneBars(bars) && Genuine(cfg, bars, scan, t, equity)
    ensures -(equity * WorstLoss(cfg)) <= t.pnl
  {
    hide Genuine, WorstLoss, Slip;
    TradeBounds(cfg, bars, scan, t, equity);
  }

  lemma FloorStep(capital: real, loss: real, k: nat)
    requires 0 < k
    ensures Floor(capital, loss, k) == Floor(capital, loss, k - 1) * (1.0 - loss)
  {
    var p := Pow(1.0 - loss, k - 1);
    assert Pow(1.0 - loss, k) == p * (1.0 - loss);
    Associate(capital, p, 1.0 - loss);
  }

  lemma GeometricStep(capital: real, loss: real, k: nat, equity: real, pnl: real)
    requires 0 < k && loss < 1.0 && 0.0 < Floor(capital, loss, k - 1) <= equity && -(equity * loss) <= pnl
    ensures 0.0 < Floor(capital, loss, k) <= equity + pnl
  {
    hide Floor, Pow;
    var least, keep := Floor(capital, loss, k - 1), 1.0 - loss;
    FloorStep(capital, loss, k);
    ScaleUp(least, equity, keep);
    Positive(least, keep);
    Distribute(equity, 1.0, loss);
  }

  lemma Solvency(cfg: Settings, bars: seq<Bar>, scan: Strategy, capital: real, n: nat)
    requires cfg.Valid() && Slip(cfg) <= 1.0 && SaneBars(bars) && 0.0 < capital && WorstLoss(cfg) < 1.0
    requires n < |bars| || n <= WARMUP
    ensures var acc := RunTo(cfg, bars, scan, capital, n);
            0.0 < Floor(capital, WorstLoss(cfg), |acc.trades|) <= acc.equity
  {
    hide RunTo, WorstLoss, Slip, Genuine, Floor;
    var acc := RunTo(cfg, bars, scan, capital, n);
    RunIsSound(cfg, bars, scan, capital, n);
    EquityBound(cfg, bars, scan, capital, acc, |acc.trades|);
  }

  // ---- drawdown ----

  /** The deepest fall between two equity points in order, over all such pairs. */
  ghost predicate DeepestFall(points: nat -> real, n: nat, dd: real) {
    && (forall i, j :: 0 <= i <= j <= n && points(i) != 0.0 ==> Drawdown(points(i), points(j)) <= dd)
    && (exists i, j :: 0 <= i <= j <= n && points(i) != 0.0 && Drawdown(points(i), points(j)) == dd)
  }

  ghost predicate HighWater(points: nat -> real, n: nat, peak: real) {
    && (forall i :: 0 <= i <= n ==> points(i) <= peak)
    && (exists i :: 0 <= i <= n && points(i) == peak)
  }

  lemma FallFromPeak(e: real, peak: real, now: real)
    requires 0.0 < e <= peak && 0.0 <= now
    ensures Drawdown(e, now) <= Drawdown(peak, now)
  {
    FallShare(e, now);
    FallShare(peak, now);
    ScaleUp(e, peak, now);
    BelowDivision(now, e, peak);
  }

  lemma FallShare(top: real, now: real)
    requires top != 0.0
    ensures Drawdown(top, now) == (1.0 - now / top) * 100.0
  {
    assert top / top == 1.0;
    assert (top - now) / top == top / top - now / top;
  }

  lemma BelowDivision(x: real, a: real, b: real)
    requires 0.0 < a && 0.0 < b && x * a <= x * b
    ensures x / b <= x / a
  {
    ScaleDown(x * a, x * b, a * b);
    assert x * a / (a * b) == x / b;
    assert x * b / (a * b) == x / a;
  }

  lemma HighWaterStep(points: nat -> real, n: nat, peak: real)
    requires HighWater(points, n, peak)
    ensures HighWater(points, n + 1, Max(peak, points(n + 1)))
  {
    var top :| 0 <= top <= n && points(top) == peak;
    assert points(if peak < points(n + 1) then n + 1 else top) == Max(peak, points(n + 1));
  }

  /** Every fall into the last point is at most the fall from the peak. */
  lemma LastFall(points: nat -> real, n: nat, peak: real, i: nat)
    requires HighWater(points, n, peak) && i <= n && 0.0 < points(i) && 0.0 <= points(n)
    ensures Drawdown(points(i), points(n)) <= Drawdown(peak, points(n))
  {
    hide Drawdown;
    FallFromPeak(points(i), peak, points(n));
  }

  /** One more positive equity point: the running maximum of the falls stays exact. */
  lemma DrawdownStep(points: nat -> real, n: nat, peak: real, dd: real)
    requires forall i :: 0 <= i <= n + 1 ==> 0.0 < points(i)
    requires 0.0 < peak && HighWater(points, n + 1, peak) && DeepestFall(points, n, dd)
    ensures DeepestFall(points, n + 1, Max(dd, Drawdown(peak, points(n + 1))))
  {
    hide Drawdown, HighWater;
    var fall := Drawdown(peak, points(n + 1));
    forall i, j | 0 <= i <= j <= n + 1 && points(i) != 0.0
      ensures Drawdown(points(i), points(j)) <= Max(dd, fall)
    {
      if j == n + 1 { LastFall(points, n + 1, peak, i); }
    }
    if dd < fall {
      var top := PeakAt(points, n + 1, peak);
      assert Drawdown(points(top), points(n + 1)) == fall;
    } else {
      var i, j :| 0 <= i <= j <= n && points(i) != 0.0 && Drawdown(points(i), points(j)) == dd;
      assert Drawdown(points(i), points(j)) == Max(dd, fall);
    }
  }

  lemma PeakAt(points: nat -> real, n: nat, peak: real) returns (top: nat)
    requires HighWater(points, n, peak)
    ensures top <= n && points(top) == peak
  {
    top :| 0 <= top <= n && points(top) == peak;
  }

  /** The equity points of a run: the capital, then the equity after each trade. */
  function Curve(capital: real, trades: seq<Trade>): nat -> real {
    (k: nat) => if k <= |trades| then EquityBefore(capital, trades, k) else 0.0
  }

  lemma Extensional(p: nat -> real, q: nat -> real, n: nat, peak: real, dd: real)
    requires forall i :: 0 <= i <= n ==> p(i) == q(i)
    requires HighWater(p, n, peak) && DeepestFall(p, n, dd)
    ensures HighWater(q, n, peak) && DeepestFall(q, n, dd)
  {
    hide Drawdown;
    var top :| 0 <= top <= n && p(top) == peak;
    assert q(top) == peak;
    var i, j :| 0 <= i <= j <= n && p(i) != 0.0 && Drawdown(p(i), p(j)) == dd;
    assert Drawdown(q(i), q(j)) == dd;
    forall i, j | 0 <= i <= j <= n && q(i) != 0.0
      ensures Drawdown(q(i), q(j)) <= dd
    {
      assert p(i) == q(i) && p(j) == q(j);
    }
  }

  /** The figures an account carries are those of its own equity curve. */
  ghost predicate ExactFigures(capital: real, acc: Account) {
    && HighWater(Curve(capital, acc.trades), |acc.trades|, acc.peak)
    && DeepestFall(Curve(capital, acc.trades), |acc.trades|, acc.maxDd)
  }

  /** Every equity point of the run is positive. */
  ghost predicate Solvent(capital: real, trades: seq<Trade>) {
    forall k :: 0 <= k <= |trades| ==> 0.0 < EquityBefore(capital, trades, k)
  }

  lemma SolventBefore(capital: real, trades: seq<Trade>, t: Trade)
    requires Solvent(capital, trades + [t])
    ensures Solvent(capital, trades)
  {
    forall k: nat | k <= |trades|
      ensures 0.0 < EquityBefore(capital, trades, k)
    {
      EquityBeforePrefix(capital, trades, t, k);
    }
  }

  lemma SoundEquity(cfg: Settings, bars: seq<Bar>, scan: Strategy, capital: real, acc: Account)
    requires SoundTrades(cfg, bars, scan, capital, acc)
    ensures acc.equity == EquityBefore(capital, acc.trades, |acc.trades|)
  {
    hide Genuine, EquityBefore;
  }

  /** The one-pass figures are exact: while every equity point is positive, the peak is the highest
      equity point and the maximum drawdown is the deepest fall over all ordered pairs of equity points. */
  lemma {:induction false} DrawdownIsExact(cfg: Settings, bars: seq<Bar>, scan: Strategy, capital: real, n: nat)
    requires n < |bars| || n <= WARMUP
    requires Solvent(capital, RunTo(cfg, bars, scan, capital, n).trades)
    ensures ExactFigures(capital, RunTo(cfg, bars, scan, capital, n))
  {
    hide Step, SoundTrades, ExactFigures, Genuine, Booked;
    if n <= WARMUP {
      assert ExactFigures(capital, Start(capital)) by {
        assert 0.0 < EquityBefore(capital, [], 0);
        StartIsExact(capital);
      }
    } else {
      var before := RunTo(cfg, bars, scan, capital, n - 1);
      var t := StepIsBooking(cfg, bars, scan, before, n - 1);
      if t.Some? {
        assert Booked(before, t.value).trades == before.trades + [t.value] by { BookedTrades(before, t.value); }
        SolventBefore(capital, before.trades, t.value);
        DrawdownIsExact(cfg, bars, scan, capital, n - 1);
        RunIsSound(cfg, bars, scan, capital, n - 1);
        SoundEquity(cfg, bars, scan, capital, before);
        BookingKeepsDrawdown(capital, before, t.value);
      } else {
        DrawdownIsExact(cfg, bars, scan, capital, n - 1);
      }
    }
  }

  lemma BookedTrades(acc: Account, t: Trade)
    ensures Booked(acc, t).trades == acc.trades + [t]
  {
    hide Drawdown;
  }

  /** A value cap that with its fees stays below the whole equity is enough. */
  lemma CappedDrawdownIsExact(cfg: Settings, bars: seq<Bar>, scan: Strategy, capital: real, n: nat)
    requires cfg.Valid() && Slip(cfg) <= 1.0 && SaneBars(bars) && 0.0 < capital && WorstLoss(cfg) < 1.0
    requires n < |bars| || n <= WARMUP
    ensures Solvent(capital, RunTo(cfg, bars, scan, capital, n).trades)
    ensures ExactFigures(capital, RunTo(cfg, bars, scan, capital, n))
  {
    hide RunTo, SoundTrades, ExactFigures, WorstLoss, Slip, SaneBars, EquityBefore, Floor;
    var acc := RunTo(cfg, bars, scan, capital, n);
    RunIsSound(cfg, bars, scan, capital, n);
    forall k: nat | k <= |acc.trades|
      ensures 0.0 < EquityBefore(capital, acc.trades, k)
    {
      EquityBound(cfg, bars, scan, capital, acc, k);
    }
    DrawdownIsExact(cfg, bars, scan, capital, n);
  }

  lemma StartIsExact(capital: real)
    requires capital != 0.0
    ensures ExactFigures(capital, Start(capital))
  {
    hide HighWater, DeepestFall;
    FlatCurve(Curve(capital, []), capital);
  }

  lemma BookingKeepsDrawdown(capital: real, before: Account, t: Trade)
    requires ExactFigures(capital, before) && Solvent(capital, before.trades + [t])
    requires before.equity == EquityBefore(capital, before.trades, |before.trades|)
    ensures ExactFigures(capital, Booked(before, t))
  {
    hide Drawdown, HighWater, DeepestFall, EquityBefore;
    var m, acc := |before.trades|, Booked(before, t);
    var points := Curve(capital, before.trades + [t]);
    forall k: nat | k <= m
      ensures Curve(capital, before.trades)(k) == points(k)
    {
      EquityBeforePrefix(capital, before.trades, t, k);
    }
    Extensional(Curve(capital, before.trades), points, m, before.peak, before.maxDd);
    forall k: nat | k <= m + 1
      ensures 0.0 < points(k)
    {
    }
    EquityAfter(capital, before.trades + [t]);
    assert points(m + 1) == points(m) + t.pnl == acc.equity;
    PeakPositive(points, m, before.peak);
    HighWaterStep(points, m, before.peak);
    DrawdownStep(points, m, acc.peak, before.maxDd);
  }

  lemma FlatCurve(points: nat -> real, capital: real)
    requires points(0) == capital && capital != 0.0
    ensures HighWater(points, 0, capital) && DeepestFall(points, 0, 0.0)
  {
    hide Drawdown;
    NoFall(capital);
    assert Drawdown(points(0), points(0)) == 0.0;
  }

  lemma PeakPositive(points: nat -> real, n: nat, peak: real)
    requires HighWater(points, n, peak) && 0.0 < points(0)
    ensures 0.0 < peak
  {
  }

  lemma NoFall(x: real)
    requires x != 0.0
    ensures Drawdown(x, x) == 0.0
  {
  }
}
