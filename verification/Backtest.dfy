/** The backtest simulator: next-bar entries, first-touch exits, compounding equity and running
    drawdown. The regime filter and the strategy scan are one function of the bars seen so far. */
module Backtest {
  import opened Common
  import opened Configuration
  import Sizing

  datatype Bar = Bar(open: real, high: real, low: real, close: real)

  /** The first signal of the scan; `None` when the regime forbids trading or nothing fires. */
  datatype Signal = Signal(stopLoss: real, takeProfit: real, strategy: string)

  type Strategy = seq<Bar> -> Option<Signal>

  datatype Reason = GapStop | Stop | Target | TimeExit

  datatype ExitPoint = ExitPoint(bar: nat, price: real, reason: Reason)

  /** `signalBar` and `exitBar` index the bars; the entry is on the bar after the signal. */
  datatype Trade = Trade(signalBar: nat, exitBar: nat, entry: real, exit: real, qty: int, pnl: real,
                         pnlPct: real, win: bool, strategy: string, reason: Reason)

  datatype Account = Account(equity: real, peak: real, maxDd: real, nextEntry: nat, trades: seq<Trade>)

  const SLIPPAGE_BPS: real := 2.0
  const WARMUP: nat := 60
  const HOLD: nat := 5

  // ---- exits ----

  predicate Touches(bar: Bar, stop: real, target: real) {
    bar.open <= stop || bar.low <= stop || target <= bar.high
  }

  /** How a touching bar closes the trade; the stop comes first when both are touched. */
  function ExitAt(bars: seq<Bar>, j: nat, stop: real, target: real): ExitPoint
    requires j < |bars|
  {
    if bars[j].open <= stop then ExitPoint(j, bars[j].open, GapStop)
    else if bars[j].low <= stop then ExitPoint(j, stop, Stop)
    else ExitPoint(j, target, Target)
  }

  /** The exit of a trade watched from bar `j` up to and including bar `end`. */
  function FirstTouch(bars: seq<Bar>, j: nat, end: nat, stop: real, target: real): ExitPoint
    requires j <= end + 1 && end < |bars|
    decreases end + 1 - j
  {
    if j == end + 1 then ExitPoint(end, bars[end].close, TimeExit)
    else if Touches(bars[j], stop, target) then ExitAt(bars, j, stop, target)
    else FirstTouch(bars, j + 1, end, stop, target)
  }

  method FindExit(bars: seq<Bar>, i: nat, horizon: nat, stop: real, target: real) returns (e: ExitPoint)
    requires i < horizon < |bars|
    ensures e == FirstTouch(bars, i + 1, horizon, stop, target)
  {
    var end, price, reason := horizon, bars[horizon].close, TimeExit;
    var j := i + 1;
    while j <= horizon
      invariant i + 1 <= j <= horizon + 1
      invariant end == horizon && price == bars[horizon].close && reason == TimeExit
      invariant FirstTouch(bars, i + 1, horizon, stop, target) == FirstTouch(bars, j, horizon, stop, target)
    {
      var bar := bars[j];
      if bar.open <= stop {
        price, end, reason := bar.open, j, GapStop;
        break;
      }
      if bar.low <= stop {
        price, end, reason := stop, j, Stop;
        break;
      }
      if bar.high >= target {
        price, end, reason := target, j, Target;
        break;
      }
      j := j + 1;
    }
    e := ExitPoint(end, price, reason);
  }

  /** First touch, spelled out: either no bar of the window touches and the trade is closed at the
      end of the window, or it is closed on the first bar that touches the stop or the target,
      at the opening price on a gap, at the stop whenever the stop is touched, else at the target. */
  lemma {:induction false} FirstTouchIsFirst(bars: seq<Bar>, j: nat, end: nat, stop: real, target: real)
    requires j <= end + 1 && end < |bars|
    ensures var e := FirstTouch(bars, j, end, stop, target);
            && (e.reason.TimeExit? <==> forall k :: j <= k <= end ==> !Touches(bars[k], stop, target))
            && (e.reason.TimeExit? ==> e.bar == end && e.price == bars[end].close)
            && (!e.reason.TimeExit? ==>
                  && j <= e.bar <= end
                  && Touches(bars[e.bar], stop, target)
                  && (forall k :: j <= k < e.bar ==> !Touches(bars[k], stop, target))
                  && e == ExitAt(bars, e.bar, stop, target))
    decreases end + 1 - j
  {
    if j <= end && !Touches(bars[j], stop, target) {
      FirstTouchIsFirst(bars, j + 1, end, stop, target);
    }
  }

  // ---- one signal bar ----

  function EntryPrice(bars: seq<Bar>, i: nat): real
    requires i + 1 < |bars|
  {
    bars[i + 1].open * (1.0 + SLIPPAGE_BPS / 10000.0)
  }

  function EstimatedCost(cfg: Settings, entry: real): real {
    entry * (cfg.roundTripCostBps + cfg.exitSlippageBps) / 10000.0
  }

  predicate WellPlaced(sig: Signal, entry: real) { 0.0 < sig.stopLoss < entry < sig.takeProfit }

  predicate Pays(cfg: Settings, sig: Signal, entry: real) {
    var cost := EstimatedCost(cfg, entry);
    entry - sig.stopLoss + cost != 0.0
    && !((sig.takeProfit - entry - cost) / (entry - sig.stopLoss + cost) < cfg.minNetRewardRisk)
  }

  function SizeInputFor(equity: real, entry: real, stop: real): Sizing.SizeInput {
    Sizing.SizeInput(equity, entry, stop, None, Some(equity), 0.0, 0.0, 0.0, 1.0, 0.5, 1.5, 0.0, 1.0)
  }

  /** Shares bought, zero when the sizer refuses. */
  function Shares(cfg: Settings, equity: real, entry: real, stop: real): int {
    var size := Sizing.Compute(cfg, SizeInputFor(equity, entry, stop), Sizing.FixedRisk);
    if size.None? then 0 else size.value.qty
  }

  function ExitPrice(cfg: Settings, price: real): real { price * (1.0 - cfg.exitSlippageBps / 10000.0) }

  function NetPnl(cfg: Settings, entry: real, exit: real, qty: int): real {
    (exit - entry) * qty as real - entry * qty as real * cfg.roundTripCostBps / 10000.0
  }

  /** The last bar a trade signalled on bar `i` may be held to. */
  function Horizon(i: nat, length: nat): nat
    requires i + 1 < length
  {
    if i + HOLD < length - 1 then i + HOLD else length - 1
  }

  /** The trade opened by the signal bar, if one is. */
  function TradeAt(cfg: Settings, bars: seq<Bar>, scan: Strategy, equity: real, i: nat): Option<Trade>
    requires i + 1 < |bars| && equity != 0.0
  {
    var sig := scan(bars[..i + 1]);
    if sig.None? then None
    else
      var entry, s := EntryPrice(bars, i), sig.value;
      if !WellPlaced(s, entry) || !Pays(cfg, s, entry) || Shares(cfg, equity, entry, s.stopLoss) <= 0 then None
      else
        var qty := Shares(cfg, equity, entry, s.stopLoss);
        var e := FirstTouch(bars, i + 1, Horizon(i, |bars|), s.stopLoss, s.takeProfit);
        var exit := ExitPrice(cfg, e.price);
        var pnl := NetPnl(cfg, entry, exit, qty);
        Some(Trade(i, e.bar, entry, exit, qty, pnl, pnl / equity * 100.0, 0.0 < pnl, s.strategy, e.reason))
  }

  function Drawdown(peak: real, equity: real): real
    requires peak != 0.0
  {
    (peak - equity) / peak * 100.0
  }

  /** Booking one trade; a zero peak cannot arise with a trade (see `TradeNeedsEquity`). */
  function Booked(acc: Account, t: Trade): Account {
    var equity := acc.equity + t.pnl;
    var peak := Max(acc.peak, equity);
    Account(equity, peak, if peak == 0.0 then acc.maxDd else Max(acc.maxDd, Drawdown(peak, equity)),
            t.exitBar + 1, acc.trades + [t])
  }

  function Step(cfg: Settings, bars: seq<Bar>, scan: Strategy, acc: Account, i: nat): Account
    requires i + 1 < |bars|
  {
    if i < acc.nextEntry || acc.equity == 0.0 then acc
    else
      var t := TradeAt(cfg, bars, scan, acc.equity, i);
      if t.None? then acc else Booked(acc, t.value)
  }

  function Start(capital: real): Account { Account(capital, capital, 0.0, WARMUP, []) }

  /** The account once every signal bar before `n` has been processed. */
  function RunTo(cfg: Settings, bars: seq<Bar>, scan: Strategy, capital: real, n: nat): Account
    requires n < |bars| || n <= WARMUP
  {
    if n <= WARMUP then Start(capital)
    else Step(cfg, bars, scan, RunTo(cfg, bars, scan, capital, n - 1), n - 1)
  }

  function LastSignal(length: nat): nat { if length <= WARMUP then WARMUP else length - 1 }

  /** A positive size needs positive equity, so no trade divides by a zero equity or peak. */
  lemma TradeNeedsEquity(cfg: Settings, equity: real, entry: real, stop: real)
    requires 0 < Shares(cfg, equity, entry, stop)
    ensures 0.0 < equity && stop < entry
  {
    hide Sizing.Lots, Sizing.BreachesLimit, Sizing.RiskPct, Round;
  }

  lemma RunStart(cfg: Settings, bars: seq<Bar>, scan: Strategy, capital: real)
    ensures RunTo(cfg, bars, scan, capital, WARMUP) == Start(capital)
  {
  }

  lemma RunStep(cfg: Settings, bars: seq<Bar>, scan: Strategy, capital: real, i: nat)
    requires WARMUP <= i && i + 1 < |bars|
    ensures RunTo(cfg, bars, scan, capital, i + 1) == Step(cfg, bars, scan, RunTo(cfg, bars, scan, capital, i), i)
  {
    hide Step;
  }

  /** The simulation itself. */
  method Run(cfg: Settings, bars: seq<Bar>, scan: Strategy, capital: real) returns (acc: Account)
    ensures acc == RunTo(cfg, bars, scan, capital, LastSignal(|bars|))
  {
    hide RunTo, Pays, Shares, WellPlaced, NetPnl, ExitPrice, EntryPrice, FirstTouch, Drawdown;
    RunStart(cfg, bars, scan, capital);
    var equity, peak, maxDd := capital, capital, 0.0;
    var nextEntry: nat, trades: seq<Trade> := WARMUP, [];
    var i: nat := WARMUP;
    while i + 1 < |bars|
      invariant WARMUP <= i && (i < |bars| || i == WARMUP)
      invariant equity <= peak && (capital <= peak)
      invariant Account(equity, peak, maxDd, nextEntry, trades) == RunTo(cfg, bars, scan, capital, i)
    {
      ghost var before := Account(equity, peak, maxDd, nextEntry, trades);
      RunStep(cfg, bars, scan, capital, i);
      var sig := if i < nextEntry then None else scan(bars[..i + 1]);
      if sig.Some? {
        var entry := EntryPrice(bars, i);
        if WellPlaced(sig.value, entry) && Pays(cfg, sig.value, entry) {
          var qty := Shares(cfg, equity, entry, sig.value.stopLoss);
          if 0 < qty {
            TradeNeedsEquity(cfg, equity, entry, sig.value.stopLoss);
            var e := FindExit(bars, i, Horizon(i, |bars|), sig.value.stopLoss, sig.value.takeProfit);
            var exit := ExitPrice(cfg, e.price);
            var pnl := NetPnl(cfg, entry, exit, qty);
            var pnlPct := pnl / equity * 100.0;
            equity := equity + pnl;
            peak := Max(peak, equity);
            maxDd := Max(maxDd, Drawdown(peak, equity));
            trades := trades + [Trade(i, e.bar, entry, exit, qty, pnl, pnlPct, 0.0 < pnl, sig.value.strategy,
              e.reason)];
            nextEntry := e.bar + 1;
          }
        }
      }
      i := i + 1;
    }
    acc := Account(equity, peak, maxDd, nextEntry, trades);
  }
}
