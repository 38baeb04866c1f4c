/**
 The simulation loop of backend/backtest_engine/multi_symbol_engine.py for one symbol and
 timeframe. Prices are exact reals and bars are named by their position in the series.
 */
module Backtest {
  import opened Options

  datatype Candle = Candle(timestamp: string, high: real, low: real, close: real)

  datatype Direction = Buy | Sell | Neither

  datatype Signal = Signal(direction: Direction, entryPrice: real, stopLoss: real, takeProfit: real)

  datatype Outcome = Win | Loss | BreakEven

  datatype Trade = Trade(direction: Direction, entryBar: nat, exitBar: nat, entryTime: string, exitTime: string,
                         entryPrice: real, exitPrice: real, stopLoss: real, takeProfit: real, lotSize: real,
                         pnlPips: real, pnlUsd: real, commission: real, outcome: Outcome)

  datatype Config = Config(initialBalance: real, riskPerTrade: real, slippagePips: real, commissionUsd: real,
                           minRrRatio: real, pipValue: real)

  /** A signal function that raises gives no signal. */
  type SignalFn = (Candle, seq<Candle>) -> Option<Signal>

  // ---------------------------------------------------------------- pure parts

  /** Round half to even at `scale` steps per unit. */
  function Round(x: real, scale: real): real
    requires scale > 0.0
  {
    var n := (x * scale).Floor;
    var f := x * scale - n as real;
    var r := if f < 0.5 || (f == 0.5 && n % 2 == 0) then n else n + 1;
    r as real / scale
  }

  function Max(a: real, b: real): real {
    if a >= b then a else b
  }

  function Min(a: real, b: real): real {
    if a <= b then a else b
  }

  predicate IsValid(s: Signal, cfg: Config) {
    if s.entryPrice <= 0.0 || s.stopLoss <= 0.0 || s.takeProfit <= 0.0 || s.direction == Neither then false
    else
      var risk := if s.direction == Buy then s.entryPrice - s.stopLoss else s.stopLoss - s.entryPrice;
      var reward := if s.direction == Buy then s.takeProfit - s.entryPrice else s.entryPrice - s.takeProfit;
      risk > 0.0 && reward > 0.0 && reward / risk >= cfg.minRrRatio
  }

  predicate StopTouched(c: Candle, s: Signal) {
    if s.direction == Buy then c.low <= s.stopLoss else c.high >= s.stopLoss
  }

  predicate TargetTouched(c: Candle, s: Signal) {
    if s.direction == Buy then c.high >= s.takeProfit else c.low <= s.takeProfit
  }

  predicate Touched(c: Candle, s: Signal) {
    StopTouched(c, s) || TargetTouched(c, s)
  }

  /** The first bar from `from` on that touches the stop or the target. */
  function FirstTouch(candles: seq<Candle>, s: Signal, from: nat): (r: Option<nat>)
    ensures r.Some? ==> from <= r.value < |candles| && Touched(candles[r.value], s)
    ensures forall j | from <= j < |candles| && (r.Some? ==> j < r.value) :: !Touched(candles[j], s)
    decreases |candles| - from
  {
    if from >= |candles| then None
    else if Touched(candles[from], s) then Some(from)
    else FirstTouch(candles, s, from + 1)
  }

  function Entry(s: Signal, cfg: Config): real {
    var slip := cfg.slippagePips * 0.1;
    if s.direction == Buy then s.entryPrice + slip else s.entryPrice - slip
  }

  function RiskPips(s: Signal, cfg: Config): real {
    var d := Entry(s, cfg) - s.stopLoss;
    (if d >= 0.0 then d else -d) * 10.0
  }

  /** Sizing the position does not divide by zero: there is a pip value, or no risk and so no trade. */
  predicate Sizable(s: Signal, cfg: Config) {
    cfg.pipValue != 0.0 || RiskPips(s, cfg) <= 0.0
  }

  function Lot(s: Signal, cfg: Config, balance: real): real
    requires Sizable(s, cfg) && RiskPips(s, cfg) > 0.0
  {
    Sized(RiskUsd(cfg, balance), PerLot(s, cfg))
  }

  function RiskUsd(cfg: Config, balance: real): real {
    balance * (cfg.riskPerTrade / 100.0)
  }

  function PerLot(s: Signal, cfg: Config): real {
    RiskPips(s, cfg) * cfg.pipValue
  }

  /** The lot that risks `riskUsd` when one lot risks `perLot`, rounded and kept between 0.01 and 10. */
  function Sized(riskUsd: real, perLot: real): real
    requires perLot != 0.0
  {
    Max(0.01, Min(Round(riskUsd / perLot, 100.0), 10.0))
  }

  /** The gain in pips of a move in price. */
  function Pips(s: Signal, move: real): real {
    (if s.direction == Buy then move else -move) * 10.0
  }

  /** The profit of `lot` after commission. */
  function Net(pips: real, lot: real, cfg: Config): real {
    pips * cfg.pipValue * lot - cfg.commissionUsd * lot
  }

  /** The trade that closes at bar `exitBar` for `exitPrice`. */
  function Close(candles: seq<Candle>, bar: nat, s: Signal, cfg: Config, lot: real,
                 exitBar: nat, exitPrice: real, outcome: Outcome): Trade
    requires bar < |candles| && exitBar < |candles|
  {
    var pnlPips := Pips(s, exitPrice - Entry(s, cfg));
    Trade(s.direction, bar, exitBar, candles[bar].timestamp, candles[exitBar].timestamp,
          Round(Entry(s, cfg), 100000.0), Round(exitPrice, 100000.0), s.stopLoss, s.takeProfit, lot,
          Round(pnlPips, 100.0), Round(Net(pnlPips, lot, cfg), 100.0), cfg.commissionUsd * lot, outcome)
  }

  /** The trade opened at `bar`, followed to the bar that first touches stop or target, or to the end. */
  function Simulated(candles: seq<Candle>, bar: nat, s: Signal, cfg: Config, balance: real): Option<Trade>
    requires bar < |candles| && Sizable(s, cfg)
  {
    if RiskPips(s, cfg) <= 0.0 then None
    else
      var lot := Lot(s, cfg, balance);
      match FirstTouch(candles, s, bar + 1)
      case None =>
        Some(Close(candles, bar, s, cfg, lot, |candles| - 1, candles[|candles| - 1].close, BreakEven))
      case Some(j) =>
        if StopTouched(candles[j], s) then Some(Close(candles, bar, s, cfg, lot, j, s.stopLoss, Loss))
        else Some(Close(candles, bar, s, cfg, lot, j, s.takeProfit, Win))
  }

  /** The last fifty candles before `bar`. */
  function History(candles: seq<Candle>, bar: nat): seq<Candle>
    requires bar <= |candles|
  {
    if bar <= 50 then candles[..bar] else candles[bar - 50..bar]
  }

  /** The valid signal at a bar: the first bar has no history and gets none. */
  function SignalAt(candles: seq<Candle>, bar: nat, fn: SignalFn, cfg: Config): Option<Signal>
    requires bar < |candles|
  {
    if bar == 0 then None
    else
      var s := fn(candles[bar], History(candles, bar));
      if s.Some? && IsValid(s.value, cfg) then s else None
  }

  predicate AllSizable(candles: seq<Candle>, n: nat, fn: SignalFn, cfg: Config)
    requires n <= |candles|
  {
    forall i | 0 <= i < n :: SignalAt(candles, i, fn, cfg).Some? ==> Sizable(SignalAt(candles, i, fn, cfg).value, cfg)
  }

  /** The trades opened in the first `n` bars, and the balance after them. */
  function RunTo(candles: seq<Candle>, n: nat, fn: SignalFn, cfg: Config): (seq<Trade>, real)
    requires n <= |candles| && AllSizable(candles, n, fn, cfg)
  {
    if n == 0 then ([], cfg.initialBalance)
    else
      var (trades, balance) := RunTo(candles, n - 1, fn, cfg);
      match SignalAt(candles, n - 1, fn, cfg)
      case None => (trades, balance)
      case Some(s) =>
        match Simulated(candles, n - 1, s, cfg, balance)
        case None => (trades, balance)
        case Some(t) => (trades + [t], balance + t.pnlUsd)
  }

  // ---------------------------------------------------------------- stability under extension

  /**
   How a trade of a series of `n` bars relates to its counterpart in a longer series. What was
   decided at the opening is the same; a resolved trade keeps its exit; an open one can only
   resolve at a new bar.
   */
  predicate Stable(t: Trade, longer: Trade, n: nat) {
    && longer.direction == t.direction && longer.entryBar == t.entryBar && longer.entryTime == t.entryTime
    && longer.entryPrice == t.entryPrice && longer.stopLoss == t.stopLoss && longer.takeProfit == t.takeProfit
    && (t.outcome != BreakEven ==>
          && longer.outcome == t.outcome && longer.exitBar == t.exitBar && longer.exitTime == t.exitTime
          && longer.exitPrice == t.exitPrice && longer.pnlPips == t.pnlPips)
    && (t.outcome == BreakEven && longer.outcome != BreakEven ==> n <= longer.exitBar)
  }

  lemma {:induction false} FirstTouchExtends(candles: seq<Candle>, more: seq<Candle>, s: Signal, from: nat)
    requires from <= |candles|
    ensures var short, long := FirstTouch(candles, s, from), FirstTouch(candles + more, s, from);
            if short.Some? then long == short else long.Some? ==> |candles| <= long.value
    decreases |candles| - from
  {
    if from < |candles| {
      assert (candles + more)[from] == candles[from];
      FirstTouchExtends(candles, more, s, from + 1);
    }
  }

  /** No look-ahead: the signal at a bar does not depend on later candles. */
  lemma SignalExtends(candles: seq<Candle>, more: seq<Candle>, bar: nat, fn: SignalFn, cfg: Config)
    requires bar < |candles|
    ensures SignalAt(candles + more, bar, fn, cfg) == SignalAt(candles, bar, fn, cfg)
  {
    assert History(candles + more, bar) == History(candles, bar);
  }

  lemma SizableExtends(candles: seq<Candle>, more: seq<Candle>, n: nat, fn: SignalFn, cfg: Config)
    requires n <= |candles|
    ensures AllSizable(candles + more, n, fn, cfg) <==> AllSizable(candles, n, fn, cfg)
  {
    hide SignalAt, Sizable;
    forall i | 0 <= i < n
      ensures SignalAt(candles + more, i, fn, cfg) == SignalAt(candles, i, fn, cfg)
    {
      SignalExtends(candles, more, i, fn, cfg);
    }
  }

  lemma SimulatedExtends(candles: seq<Candle>, more: seq<Candle>, bar: nat, s: Signal, cfg: Config, a: real, b: real)
    requires bar < |candles| && Sizable(s, cfg)
    ensures var short, long := Simulated(candles, bar, s, cfg, a), Simulated(candles + more, bar, s, cfg, b);
            if short.None? then long.None? else long.Some? && Stable(short.value, long.value, |candles|)
  {
    hide Round, Sized, Lot;
    FirstTouchExtends(candles, more, s, bar + 1);
  }

  ghost predicate AllStable(short: seq<Trade>, long: seq<Trade>, n: nat) {
    |short| == |long| && forall k | 0 <= k < |short| :: Stable(short[k], long[k], n)
  }

  lemma StableAppend(short: seq<Trade>, long: seq<Trade>, t: Trade, longer: Trade, n: nat)
    requires AllStable(short, long, n) && Stable(t, longer, n)
    ensures AllStable(short + [t], long + [longer], n)
  {
    hide Stable;
  }

  /** The trades of the common bars correspond one to one. */
  lemma {:induction false} CommonBarsStable(candles: seq<Candle>, more: seq<Candle>, n: nat, fn: SignalFn, cfg: Config)
    requires n <= |candles| && AllSizable(candles, n, fn, cfg) && AllSizable(candles + more, n, fn, cfg)
    ensures AllStable(RunTo(candles, n, fn, cfg).0, RunTo(candles + more, n, fn, cfg).0, |candles|)
  {
    hide Simulated, Stable, SignalAt, Sizable, AllStable;
    if n == 0 {
      assert AllStable([], [], |candles|) by { NoneStable(|candles|); }
    } else {
      CommonBarsStable(candles, more, n - 1, fn, cfg);
      SignalExtends(candles, more, n - 1, fn, cfg);
      var s := SignalAt(candles, n - 1, fn, cfg);
      var (short, a) := RunTo(candles, n - 1, fn, cfg);
      var (long, b) := RunTo(candles + more, n - 1, fn, cfg);
      if s.Some? {
        SimulatedExtends(candles, more, n - 1, s.value, cfg, a, b);
        var t, longer := Simulated(candles, n - 1, s.value, cfg, a), Simulated(candles + more, n - 1, s.value, cfg, b);
        if t.Some? {
          StableAppend(short, long, t.value, longer.value, |candles|);
        }
      }
    }
  }

  lemma NoneStable(n: nat)
    ensures AllStable([], [], n)
  {
  }

  lemma SimulatedBars(candles: seq<Candle>, bar: nat, s: Signal, cfg: Config, balance: real)
    requires bar < |candles| && Sizable(s, cfg)
    ensures var t := Simulated(candles, bar, s, cfg, balance);
            t.Some? ==> t.value.entryBar == bar && bar <= t.value.exitBar < |candles|
  {
    hide Round, Sized, Lot;
  }

  /** One more bar appends at most one trade, opened at that bar. */
  lemma OneMoreBar(candles: seq<Candle>, n: nat, fn: SignalFn, cfg: Config)
    requires n < |candles| && AllSizable(candles, n + 1, fn, cfg)
    ensures var a, b := RunTo(candles, n, fn, cfg).0, RunTo(candles, n + 1, fn, cfg).0;
            || b == a
            || (|b| == |a| + 1 && b[..|a|] == a && b[|a|].entryBar == n && n <= b[|a|].exitBar < |candles|)
  {
    hide Simulated, SignalAt;
    var s, balance := SignalAt(candles, n, fn, cfg), RunTo(candles, n, fn, cfg).1;
    if s.Some? {
      SimulatedBars(candles, n, s.value, cfg, balance);
    }
  }

  predicate InOrder(ts: seq<Trade>, n: nat, bars: nat) {
    && (forall k | 0 <= k < |ts| :: ts[k].entryBar < n && ts[k].entryBar <= ts[k].exitBar < bars)
    && (forall j, k | 0 <= j < k < |ts| :: ts[j].entryBar < ts[k].entryBar)
  }

  /** Every trade is opened at its own bar, in order, and closed no earlier. */
  lemma {:induction false} TradesInOrder(candles: seq<Candle>, n: nat, fn: SignalFn, cfg: Config)
    requires n <= |candles| && AllSizable(candles, n, fn, cfg)
    ensures InOrder(RunTo(candles, n, fn, cfg).0, n, |candles|)
  {
    if n > 0 {
      hide SignalAt, Simulated;
      TradesInOrder(candles, n - 1, fn, cfg);
      OneMoreBar(candles, n - 1, fn, cfg);
      StillInOrder(RunTo(candles, n - 1, fn, cfg).0, RunTo(candles, n, fn, cfg).0, n - 1, |candles|);
    }
  }

  lemma StillInOrder(a: seq<Trade>, b: seq<Trade>, n: nat, bars: nat)
    requires InOrder(a, n, bars) && n < bars
    requires || b == a
             || (|b| == |a| + 1 && b[..|a|] == a && b[|a|].entryBar == n && n <= b[|a|].exitBar < bars)
    ensures InOrder(b, n + 1, bars)
  {
    assert forall k | 0 <= k < |a| && b != a :: b[k] == b[..|a|][k];
  }

  lemma {:induction false} LaterBarsAppend(candles: seq<Candle>, m: nat, n: nat, fn: SignalFn, cfg: Config)
    requires m <= n <= |candles| && AllSizable(candles, n, fn, cfg)
    ensures var a, b := RunTo(candles, m, fn, cfg).0, RunTo(candles, n, fn, cfg).0;
            && |a| <= |b| && b[..|a|] == a
            && forall k | |a| <= k < |b| :: m <= b[k].entryBar
    decreases n - m
  {
    hide RunTo;
    if m < n {
      LaterBarsAppend(candles, m, n - 1, fn, cfg);
      OneMoreBar(candles, n - 1, fn, cfg);
      var a, mid, b := RunTo(candles, m, fn, cfg).0, RunTo(candles, n - 1, fn, cfg).0, RunTo(candles, n, fn, cfg).0;
      assert b[..|a|] == b[..|mid|][..|a|];
      assert forall k | 0 <= k < |mid| :: b[k] == b[..|mid|][k];
    }
  }

  /**
   Stability under extension: appending candles never changes what was decided when a trade was
   opened, nor the exit of a trade that was resolved; new trades come from new bars only.
   */
  lemma ExtensionStable(candles: seq<Candle>, more: seq<Candle>, fn: SignalFn, cfg: Config)
    requires AllSizable(candles + more, |candles + more|, fn, cfg)
    ensures AllSizable(candles, |candles|, fn, cfg)
    ensures var short := RunTo(candles, |candles|, fn, cfg).0;
            var long := RunTo(candles + more, |candles + more|, fn, cfg).0;
            && |short| <= |long|
            && (forall k | 0 <= k < |short| :: Stable(short[k], long[k], |candles|))
            && (forall k | |short| <= k < |long| :: |candles| <= long[k].entryBar)
  {
    hide Stable, RunTo, SignalAt, Sizable;
    SizableExtends(candles, more, |candles|, fn, cfg);
    CommonBarsStable(candles, more, |candles|, fn, cfg);
    LaterBarsAppend(candles + more, |candles|, |candles + more|, fn, cfg);
    var long := RunTo(candles + more, |candles + more|, fn, cfg).0;
    var mid := RunTo(candles + more, |candles|, fn, cfg).0;
    forall k | 0 <= k < |mid|
      ensures long[k] == mid[k]
    {
      assert long[..|mid|][k] == long[k];
    }
  }

  // ---------------------------------------------------------------- exits and money

  /** The prices of a bar reach the stop. */
  predicate ReachesStop(c: Candle, s: Signal) {
    if s.direction == Buy then s.stopLoss >= c.low else s.stopLoss <= c.high
  }

  /** The prices of a bar keep strictly between stop and target. */
  predicate KeepsBetween(c: Candle, s: Signal) {
    if s.direction == Buy then s.stopLoss < c.low && c.high < s.takeProfit
    else s.takeProfit < c.low && c.high < s.stopLoss
  }

  /** How a trade ended, in terms of the candles alone. */
  predicate ExitExplained(candles: seq<Candle>, t: Trade, s: Signal) {
    && t.entryBar <= t.exitBar < |candles|
    && (forall j | t.entryBar < j < t.exitBar :: KeepsBetween(candles[j], s))
    && (t.outcome == Loss <==> t.entryBar < t.exitBar && ReachesStop(candles[t.exitBar], s))
    && (t.outcome == Win <==>
          && t.entryBar < t.exitBar
          && !ReachesStop(candles[t.exitBar], s) && !KeepsBetween(candles[t.exitBar], s))
    && (t.outcome == BreakEven ==> t.exitBar == |candles| - 1)
    && t.exitPrice == Round(if t.outcome == Loss then s.stopLoss else if t.outcome == Win then s.takeProfit
                            else candles[t.exitBar].close, 100000.0)
  }

  /**
   Every trade comes from the valid signal at its entry bar and ends at the first later bar that
   touches stop or target, the stop first when one bar touches both, or at the last close.
   */
  lemma {:induction false} ExitsExplained(candles: seq<Candle>, n: nat, fn: SignalFn, cfg: Config)
    requires n <= |candles| && AllSizable(candles, n, fn, cfg)
    ensures forall t | t in RunTo(candles, n, fn, cfg).0 ::
              && t.entryBar < |candles| && SignalAt(candles, t.entryBar, fn, cfg).Some?
              && ExitExplained(candles, t, SignalAt(candles, t.entryBar, fn, cfg).value)
  {
    if n > 0 {
      hide Simulated, ExitExplained, IsValid, AllSizable;
      ExitsExplained(candles, n - 1, fn, cfg);
      var s := SignalAt(candles, n - 1, fn, cfg);
      var balance := RunTo(candles, n - 1, fn, cfg).1;
      hide SignalAt;
      if s.Some? && Simulated(candles, n - 1, s.value, cfg, balance).Some? {
        ExitOfOne(candles, n - 1, s.value, cfg, balance);
      }
    }
  }

  lemma ExitOfOne(candles: seq<Candle>, bar: nat, s: Signal, cfg: Config, balance: real)
    requires bar < |candles| && Sizable(s, cfg) && Simulated(candles, bar, s, cfg, balance).Some?
    ensures ExitExplained(candles, Simulated(candles, bar, s, cfg, balance).value, s)
    ensures Simulated(candles, bar, s, cfg, balance).value.entryBar == bar
  {
    hide Round, Sized, Lot;
  }

  lemma RoundKeepsSign(x: real, scale: real)
    requires scale > 0.0
    ensures x >= 0.0 ==> Round(x, scale) >= 0.0
    ensures x <= 0.0 ==> Round(x, scale) <= 0.0
  {
    var n := (x * scale).Floor;
    var r := if x * scale - n as real < 0.5 || (x * scale - n as real == 0.5 && n % 2 == 0) then n else n + 1;
    assert x >= 0.0 ==> x * scale >= 0.0;
    assert x <= 0.0 ==> x * scale <= 0.0;
    assert x >= 0.0 ==> r >= 0;
    assert x <= 0.0 ==> r <= 0;
    assert Round(x, scale) == r as real / scale;
  }

  /** A stop never pays: with costs that are not negative, a valid trade stopped out loses money. */
  lemma StoppedOutLoses(candles: seq<Candle>, bar: nat, s: Signal, cfg: Config, balance: real)
    requires bar < |candles| && cfg.pipValue > 0.0 && cfg.slippagePips >= 0.0 && cfg.commissionUsd >= 0.0
    requires IsValid(s, cfg) && Simulated(candles, bar, s, cfg, balance).Some?
    ensures var t := Simulated(candles, bar, s, cfg, balance).value;
            && (t.outcome == Loss ==> t.pnlPips <= 0.0 && t.pnlUsd <= 0.0)
            && (t.outcome == Win && cfg.slippagePips == 0.0 ==> t.pnlPips >= 0.0)
  {
    hide FirstTouch, Round;
    var t := Simulated(candles, bar, s, cfg, balance).value;
    if t.outcome != BreakEven {
      var exitPrice := if t.outcome == Loss then s.stopLoss else s.takeProfit;
      var pips := Pips(s, exitPrice - Entry(s, cfg));
      RoundKeepsSign(pips, 100.0);
      if t.outcome == Loss {
        assert pips <= 0.0;
        assert t.lotSize >= 0.01;
        assert pips * cfg.pipValue <= 0.0;
        assert pips * cfg.pipValue * t.lotSize <= 0.0 && cfg.commissionUsd * t.lotSize >= 0.0;
        RoundKeepsSign(Net(pips, t.lotSize, cfg), 100.0);
      }
    }
  }

  function TotalPnl(trades: seq<Trade>): real {
    if trades == [] then 0.0 else TotalPnl(trades[..|trades| - 1]) + trades[|trades| - 1].pnlUsd
  }

  lemma OneMorePnl(trades: seq<Trade>, t: Trade)
    ensures TotalPnl(trades + [t]) == TotalPnl(trades) + t.pnlUsd
  {
    assert (trades + [t])[..|trades|] == trades;
  }

  /** The balance is the initial balance plus the profits and losses of all trades so far. */
  lemma {:induction false} BalanceConserved(candles: seq<Candle>, n: nat, fn: SignalFn, cfg: Config)
    requires n <= |candles| && AllSizable(candles, n, fn, cfg)
    ensures var (trades, balance) := RunTo(candles, n, fn, cfg);
            balance == cfg.initialBalance + TotalPnl(trades)
  {
    if n > 0 {
      hide Simulated, SignalAt, TotalPnl;
      BalanceConserved(candles, n - 1, fn, cfg);
      var (before, _) := RunTo(candles, n - 1, fn, cfg);
      forall t
        ensures TotalPnl(before + [t]) == TotalPnl(before) + t.pnlUsd
      {
        OneMorePnl(before, t);
      }
    } else {
      assert TotalPnl([]) == 0.0;
    }
  }

  // ---------------------------------------------------------------- the loops themselves

  lemma TouchHere(candles: seq<Candle>, s: Signal, from: nat)
    requires from < |candles|
    ensures FirstTouch(candles, s, from)
            == if StopTouched(candles[from], s) || TargetTouched(candles[from], s) then Some(from)
               else FirstTouch(candles, s, from + 1)
  {
  }

  lemma NoTouchLeft(candles: seq<Candle>, s: Signal)
    ensures FirstTouch(candles, s, |candles|).None?
  {
  }

  /** `future` starts with the entry candle, which is bar `bar` of the series. */
  method Simulate(s: Signal, ghost candles: seq<Candle>, bar: nat, future: seq<Candle>, cfg: Config, balance: real)
    returns (trade: Option<Trade>)
    requires bar < |candles| && future == candles[bar..] && Sizable(s, cfg)
    ensures trade == Simulated(candles, bar, s, cfg, balance)
  {
    hide Round, Sized, Lot, FirstTouch, Touched;
    var slip := cfg.slippagePips * 0.1;
    var epActual := if s.direction == Buy then s.entryPrice + slip else s.entryPrice - slip;
    var gap := epActual - s.stopLoss;
    var riskPips := (if gap >= 0.0 then gap else -gap) * 10.0;
    if riskPips <= 0.0 {
      return None;
    }
    var lot := Lot(s, cfg, balance);
    var exit, exitPrice, outcome := |future| - 1, future[|future| - 1].close, BreakEven;
    var k := 1;
    while k < |future|
      invariant 1 <= k <= |future|
      invariant exit == |future| - 1 && exitPrice == future[|future| - 1].close && outcome == BreakEven
      invariant FirstTouch(candles, s, bar + 1) == FirstTouch(candles, s, bar + k)
    {
      var c := future[k];
      TouchHere(candles, s, bar + k);
      if s.direction == Buy {
        if c.low <= s.stopLoss {
          exit, exitPrice, outcome := k, s.stopLoss, Loss;
          break;
        }
        if c.high >= s.takeProfit {
          exit, exitPrice, outcome := k, s.takeProfit, Win;
          break;
        }
      } else {
        if c.high >= s.stopLoss {
          exit, exitPrice, outcome := k, s.stopLoss, Loss;
          break;
        }
        if c.low <= s.takeProfit {
          exit, exitPrice, outcome := k, s.takeProfit, Win;
          break;
        }
      }
      k := k + 1;
    }
    ghost var touch := FirstTouch(candles, s, bar + 1);
    NoTouchLeft(candles, s);
    assert if outcome == BreakEven then touch.None? && bar + exit == |candles| - 1
           else touch == Some(bar + exit) && (outcome == Loss <==> StopTouched(candles[bar + exit], s));
    assert exitPrice == if outcome == Loss then s.stopLoss else if outcome == Win then s.takeProfit
                        else candles[|candles| - 1].close;
    hide StopTouched, TargetTouched;
    var pnlPts := if s.direction == Buy then exitPrice - epActual else epActual - exitPrice;
    var pnlPips := pnlPts * 10.0;
    var pnlUsd := pnlPips * cfg.pipValue * lot - cfg.commissionUsd * lot;
    trade := Some(Trade(s.direction, bar, bar + exit, future[0].timestamp, future[exit].timestamp,
                        Round(epActual, 100000.0), Round(exitPrice, 100000.0), s.stopLoss, s.takeProfit, lot,
                        Round(pnlPips, 100.0), Round(pnlUsd, 100.0), cfg.commissionUsd * lot, outcome));
    assert pnlUsd == Net(pnlPips, lot, cfg);
    assert epActual == Entry(s, cfg) && pnlPips == Pips(s, exitPrice - epActual);
    assert future[0] == candles[bar] && future[exit] == candles[bar + exit];
    hide Entry, Pips, Net;
    assert trade.value == Close(candles, bar, s, cfg, lot, bar + exit, exitPrice, outcome);
    hide Close;
  }

  method RunSymbol(candles: seq<Candle>, fn: SignalFn, cfg: Config) returns (trades: seq<Trade>, balance: real)
    requires AllSizable(candles, |candles|, fn, cfg)
    ensures (trades, balance) == RunTo(candles, |candles|, fn, cfg)
    ensures balance == cfg.initialBalance + TotalPnl(trades)
  {
    hide Simulated, IsValid;
    trades, balance := [], cfg.initialBalance;
    var history: seq<Candle> := [];
    for i := 0 to |candles|
      invariant history == candles[..i]
      invariant (trades, balance) == RunTo(candles, i, fn, cfg)
    {
      var recent := if |history| <= 50 then history else history[|history| - 50..];
      assert recent == History(candles, i);
      var sig := if history != [] then fn(candles[i], recent) else None;
      if sig.Some? && IsValid(sig.value, cfg) {
        assert SignalAt(candles, i, fn, cfg) == sig;
        var trade := Simulate(sig.value, candles, i, candles[i..], cfg, balance);
        if trade.Some? {
          trades := trades + [trade.value];
          balance := balance + trade.value.pnlUsd;
        }
      }
      history := history + [candles[i]];
    }
    BalanceConserved(candles, |candles|, fn, cfg);
  }
}
