/** What the trades of a backtest run risk and pay, said in prices, balances and half units of rounding. */
module BacktestLaws {
  import opened Options
  import opened Backtest

  // ---------------------------------------------------------------- rounding

  predicate Near(a: real, b: real, slack: real) {
    b - slack <= a <= b + slack
  }

  /** Rounding moves a number by half a unit at most, and a number half way to the even neighbour. */
  lemma RoundNear(x: real, scale: real)
    requires scale > 0.0
    ensures Near(Round(x, scale), x, 0.5 / scale)
    ensures var n := (x * scale).Floor;
            x * scale - n as real == 0.5 ==> Round(x, scale) == (if n % 2 == 0 then n else n + 1) as real / scale
  {
    var n := (x * scale).Floor;
    var f := x * scale - n as real;
    var r := if f < 0.5 || (f == 0.5 && n % 2 == 0) then n else n + 1;
    assert Round(x, scale) == r as real / scale;
    hide Round;
    DividedNear(x, x * scale, r as real, scale);
  }

  lemma DividedNear(x: real, y: real, r: real, scale: real)
    requires scale > 0.0 && y == x * scale && Near(r, y, 0.5)
    ensures Near(r / scale, x, 0.5 / scale)
  {
    Divided(y - 0.5, r, scale);
    Divided(r, y + 0.5, scale);
    assert (y - 0.5) / scale == x - 0.5 / scale;
    assert (y + 0.5) / scale == x + 0.5 / scale;
  }

  lemma Divided(a: real, b: real, scale: real)
    requires a <= b && scale > 0.0
    ensures a / scale <= b / scale
  {
  }

  // ---------------------------------------------------------------- one trade

  /** The price after slippage, which is against the trader. */
  function Filled(s: Signal, cfg: Config): real {
    if s.direction == Buy then s.entryPrice + cfg.slippagePips * 0.1 else s.entryPrice - cfg.slippagePips * 0.1
  }

  /** What one lot loses if the price goes from the entry to the stop. */
  function StopCost(s: Signal, cfg: Config): real {
    (if Filled(s, cfg) >= s.stopLoss then Filled(s, cfg) - s.stopLoss else s.stopLoss - Filled(s, cfg))
    * 10.0 * cfg.pipValue
  }

  function AtRisk(cfg: Config, balance: real): real {
    balance * (cfg.riskPerTrade / 100.0)
  }

  /**
   The lot is between 0.01 and 10 and, where neither bound holds it, puts the wanted percentage of
   the balance at risk, up to half a hundredth of a lot. At a bound the wanted lot is beyond it.
   */
  predicate RightlySized(lot: real, s: Signal, cfg: Config, balance: real) {
    var cost, risk := StopCost(s, cfg), AtRisk(cfg, balance);
    && 0.01 <= lot <= 10.0
    && (0.01 < lot < 10.0 ==> Near(lot * cost, risk, 0.005 * cost))
    && (lot == 0.01 ==> risk <= 0.015 * cost)
    && (lot == 10.0 ==> risk >= 9.995 * cost)
  }

  /** How far the price goes in the trader's favour. */
  function Move(s: Signal, cfg: Config, exitPrice: real): real {
    if s.direction == Buy then exitPrice - Filled(s, cfg) else Filled(s, cfg) - exitPrice
  }

  /** What the move is worth for `lot` lots. */
  function Gain(s: Signal, cfg: Config, exitPrice: real, lot: real): real {
    Move(s, cfg, exitPrice) * 10.0 * cfg.pipValue * lot
  }

  function Fee(cfg: Config, lot: real): real {
    cfg.commissionUsd * lot
  }

  /** The trade is booked at the prices it was opened and closed for, and pays for the move between them. */
  predicate RightlyPaid(t: Trade, s: Signal, cfg: Config, exitPrice: real) {
    && t.direction == s.direction && t.stopLoss == s.stopLoss && t.takeProfit == s.takeProfit
    && Near(t.entryPrice, Filled(s, cfg), 0.000005) && Near(t.exitPrice, exitPrice, 0.000005)
    && Near(t.pnlPips, Move(s, cfg, exitPrice) * 10.0, 0.005)
    && t.commission == Fee(cfg, t.lotSize)
    && Near(t.pnlUsd, Gain(s, cfg, exitPrice, t.lotSize) - t.commission, 0.005)
  }

  lemma SizedMeans(risk: real, cost: real)
    requires cost > 0.0
    ensures var lot := Sized(risk, cost);
            && 0.01 <= lot <= 10.0
            && (0.01 < lot < 10.0 ==> Near(lot * cost, risk, 0.005 * cost))
            && (lot == 0.01 ==> risk <= 0.015 * cost)
            && (lot == 10.0 ==> risk >= 9.995 * cost)
  {
    var x := risk / cost;
    assert x * cost == risk;
    RoundNear(x, 100.0);
    hide Round;
    KeptMeans(x, Round(x, 100.0), Sized(risk, cost), risk, cost);
  }

  lemma KeptMeans(x: real, rounded: real, lot: real, risk: real, cost: real)
    requires cost > 0.0 && x * cost == risk && Near(rounded, x, 0.005) && lot == Max(0.01, Min(rounded, 10.0))
    ensures 0.01 <= lot <= 10.0
    ensures 0.01 < lot < 10.0 ==> Near(lot * cost, risk, 0.005 * cost)
    ensures lot == 0.01 ==> risk <= 0.015 * cost
    ensures lot == 10.0 ==> risk >= 9.995 * cost
  {
    if 0.01 < lot < 10.0 {
      NearTimes(lot, x, 0.005, cost);
    }
    AtBounds(x, risk, cost);
  }

  lemma AtBounds(x: real, risk: real, cost: real)
    requires cost > 0.0 && x * cost == risk
    ensures x <= 0.015 ==> risk <= 0.015 * cost
    ensures x >= 9.995 ==> risk >= 9.995 * cost
  {
    if x <= 0.015 {
      TimesCost(x, 0.015, cost);
    }
    if x >= 9.995 {
      TimesCost(9.995, x, cost);
    }
  }

  lemma NearTimes(a: real, b: real, slack: real, cost: real)
    requires Near(a, b, slack) && cost > 0.0
    ensures Near(a * cost, b * cost, slack * cost)
  {
    TimesCost(0.0, a - (b - slack), cost);
    TimesCost(0.0, b + slack - a, cost);
    assert (a - (b - slack)) * cost == a * cost - b * cost + slack * cost;
    assert (b + slack - a) * cost == b * cost + slack * cost - a * cost;
  }

  lemma RiskMeans(s: Signal, cfg: Config, balance: real)
    ensures RiskUsd(cfg, balance) == AtRisk(cfg, balance)
    ensures PerLot(s, cfg) == StopCost(s, cfg)
    ensures cfg.pipValue > 0.0 && RiskPips(s, cfg) > 0.0 ==> PerLot(s, cfg) > 0.0
  {
  }

  lemma SizeMeans(s: Signal, cfg: Config, balance: real)
    requires cfg.pipValue > 0.0 && RiskPips(s, cfg) > 0.0
    ensures RightlySized(Lot(s, cfg, balance), s, cfg, balance)
  {
    hide Sized, RiskUsd, PerLot, RiskPips, StopCost, AtRisk;
    RiskMeans(s, cfg, balance);
    SizedMeans(RiskUsd(cfg, balance), PerLot(s, cfg));
  }

  lemma TimesCost(a: real, b: real, cost: real)
    requires a <= b && cost > 0.0
    ensures a * cost <= b * cost
  {
  }

  /** Where a trade of this outcome is closed. */
  function ClosedAt(candles: seq<Candle>, s: Signal, t: Trade): real
    requires candles != []
  {
    match t.outcome
    case Loss => s.stopLoss
    case Win => s.takeProfit
    case BreakEven => candles[|candles| - 1].close
  }

  /** Every simulated trade is sized and paid as it should be. */
  lemma TradeMeans(candles: seq<Candle>, bar: nat, s: Signal, cfg: Config, balance: real)
    requires bar < |candles| && cfg.pipValue > 0.0 && Simulated(candles, bar, s, cfg, balance).Some?
    ensures var t := Simulated(candles, bar, s, cfg, balance).value;
            && t.entryBar == bar && t.entryTime == candles[bar].timestamp
            && t.exitBar < |candles| && t.exitTime == candles[t.exitBar].timestamp
            && RightlySized(t.lotSize, s, cfg, balance) && RightlyPaid(t, s, cfg, ClosedAt(candles, s, t))
  {
    hide FirstTouch, Round, RightlySized;
    SizeMeans(s, cfg, balance);
    var t := Simulated(candles, bar, s, cfg, balance).value;
    var exitPrice := ClosedAt(candles, s, t);
    hide Lot;
    assert t == Close(candles, bar, s, cfg, t.lotSize, t.exitBar, exitPrice, t.outcome);
    ClosePays(candles, bar, s, cfg, t.lotSize, t.exitBar, exitPrice, t.outcome);
  }

  lemma PipsMean(s: Signal, cfg: Config, exitPrice: real)
    ensures Entry(s, cfg) == Filled(s, cfg)
    ensures Pips(s, exitPrice - Entry(s, cfg)) == Move(s, cfg, exitPrice) * 10.0
  {
  }

  lemma NetMeans(pips: real, move: real, lot: real, cfg: Config)
    requires pips == move * 10.0
    ensures Net(pips, lot, cfg) == move * 10.0 * cfg.pipValue * lot - Fee(cfg, lot)
  {
  }

  lemma NetIsGain(s: Signal, cfg: Config, exitPrice: real, lot: real)
    ensures Net(Pips(s, exitPrice - Entry(s, cfg)), lot, cfg) == Gain(s, cfg, exitPrice, lot) - Fee(cfg, lot)
  {
    hide Net, Move, Fee, Pips, Entry;
    PipsMean(s, cfg, exitPrice);
    NetMeans(Pips(s, exitPrice - Entry(s, cfg)), Move(s, cfg, exitPrice), lot, cfg);
  }

  lemma CloseParts(candles: seq<Candle>, bar: nat, s: Signal, cfg: Config, lot: real,
                   exitBar: nat, exitPrice: real, outcome: Outcome)
    requires bar < |candles| && exitBar < |candles|
    ensures var t := Close(candles, bar, s, cfg, lot, exitBar, exitPrice, outcome);
            var pips := Pips(s, exitPrice - Entry(s, cfg));
            && t.direction == s.direction && t.stopLoss == s.stopLoss && t.takeProfit == s.takeProfit
            && t.lotSize == lot
            && t.entryPrice == Round(Entry(s, cfg), 100000.0) && t.exitPrice == Round(exitPrice, 100000.0)
            && t.pnlPips == Round(pips, 100.0) && t.pnlUsd == Round(Net(pips, lot, cfg), 100.0)
            && t.commission == Fee(cfg, lot)
  {
    hide Round, Entry, Pips, Net;
  }

  lemma ClosePays(candles: seq<Candle>, bar: nat, s: Signal, cfg: Config, lot: real,
                  exitBar: nat, exitPrice: real, outcome: Outcome)
    requires bar < |candles| && exitBar < |candles|
    ensures RightlyPaid(Close(candles, bar, s, cfg, lot, exitBar, exitPrice, outcome), s, cfg, exitPrice)
  {
    hide Round, Entry, Filled, Pips, Net, Move, Gain, Fee, Close;
    var pips := Pips(s, exitPrice - Entry(s, cfg));
    PipsMean(s, cfg, exitPrice);
    NetIsGain(s, cfg, exitPrice, lot);
    CloseParts(candles, bar, s, cfg, lot, exitBar, exitPrice, outcome);
    RoundNear(Entry(s, cfg), 100000.0);
    RoundNear(exitPrice, 100000.0);
    RoundNear(pips, 100.0);
    RoundNear(Net(pips, lot, cfg), 100.0);
  }

  /**
   A valid trade stopped out loses what was to be at risk, and the commission, up to half a
   hundredth of a lot and half a cent, unless the lot was held at a bound.
   */
  lemma StopLosesTheRisk(candles: seq<Candle>, bar: nat, s: Signal, cfg: Config, balance: real)
    requires bar < |candles| && cfg.pipValue > 0.0 && cfg.slippagePips >= 0.0 && IsValid(s, cfg)
    requires Simulated(candles, bar, s, cfg, balance).Some?
    ensures var t := Simulated(candles, bar, s, cfg, balance).value;
            t.outcome == Loss && 0.01 < t.lotSize < 10.0 ==>
              Near(t.pnlUsd, -(AtRisk(cfg, balance) + t.commission), 0.005 * StopCost(s, cfg) + 0.005)
  {
    hide Simulated, AtRisk, StopCost, Filled, IsValid, Move, Gain, Fee;
    TradeMeans(candles, bar, s, cfg, balance);
    var t := Simulated(candles, bar, s, cfg, balance).value;
    StopGain(s, cfg, t.lotSize);
  }

  /** For a valid signal the move to the stop is all loss. */
  lemma StopGain(s: Signal, cfg: Config, lot: real)
    requires cfg.slippagePips >= 0.0 && IsValid(s, cfg)
    ensures Gain(s, cfg, s.stopLoss, lot) == -(lot * StopCost(s, cfg))
  {
    var move := Move(s, cfg, s.stopLoss);
    assert StopCost(s, cfg) == -move * 10.0 * cfg.pipValue;
    hide StopCost, Move, IsValid;
  }

  // ---------------------------------------------------------------- which trades are taken

  /**
   The signal names prices on the right sides of its entry, and its reward is worth its risk.
   */
  predicate WorthIt(s: Signal, cfg: Config) {
    && s.entryPrice > 0.0 && s.stopLoss > 0.0 && s.takeProfit > 0.0
    && match s.direction
       case Buy => s.stopLoss < s.entryPrice < s.takeProfit
                   && s.takeProfit - s.entryPrice >= cfg.minRrRatio * (s.entryPrice - s.stopLoss)
       case Sell => s.takeProfit < s.entryPrice < s.stopLoss
                    && s.entryPrice - s.takeProfit >= cfg.minRrRatio * (s.stopLoss - s.entryPrice)
       case Neither => false
  }

  lemma ValidIff(s: Signal, cfg: Config)
    ensures IsValid(s, cfg) <==> WorthIt(s, cfg)
  {
    if s.direction == Buy && s.stopLoss < s.entryPrice {
      RatioIff(s.takeProfit - s.entryPrice, s.entryPrice - s.stopLoss, cfg.minRrRatio);
    }
    if s.direction == Sell && s.entryPrice < s.stopLoss {
      RatioIff(s.entryPrice - s.takeProfit, s.stopLoss - s.entryPrice, cfg.minRrRatio);
    }
  }

  lemma RatioIff(reward: real, risk: real, ratio: real)
    requires risk > 0.0
    ensures reward / risk >= ratio <==> reward >= ratio * risk
  {
    var q := reward / risk;
    assert q * risk == reward;
    if q >= ratio {
      TimesCost(ratio, q, risk);
    } else {
      assert (ratio - q) * risk > 0.0;
    }
  }

  /** The signal function's answer at a bar: it sees the bar and the fifty candles before it, and nothing at bar 0. */
  function Answer(candles: seq<Candle>, bar: nat, fn: SignalFn): Option<Signal>
    requires bar < |candles|
  {
    if bar == 0 then None else fn(candles[bar], candles[if bar <= 50 then 0 else bar - 50..bar])
  }

  lemma SignalIsAnswer(candles: seq<Candle>, bar: nat, fn: SignalFn, cfg: Config)
    requires bar < |candles|
    ensures var answer := Answer(candles, bar, fn);
            SignalAt(candles, bar, fn, cfg) == if answer.Some? && WorthIt(answer.value, cfg) then answer else None
  {
    var answer := Answer(candles, bar, fn);
    assert bar > 0 ==> History(candles, bar) == candles[if bar <= 50 then 0 else bar - 50..bar];
    if answer.Some? {
      ValidIff(answer.value, cfg);
    }
    hide IsValid, WorthIt;
  }

  /** The answer at the bar is worth a trade, and slippage leaves the entry off the stop. */
  predicate Trades(candles: seq<Candle>, bar: nat, fn: SignalFn, cfg: Config)
    requires bar < |candles|
  {
    var answer := Answer(candles, bar, fn);
    answer.Some? && WorthIt(answer.value, cfg) && Filled(answer.value, cfg) != answer.value.stopLoss
  }

  lemma SimulatedIff(candles: seq<Candle>, bar: nat, s: Signal, cfg: Config, balance: real)
    requires bar < |candles| && Sizable(s, cfg)
    ensures var t := Simulated(candles, bar, s, cfg, balance);
            (t.Some? <==> Filled(s, cfg) != s.stopLoss) && (t.Some? ==> t.value.entryBar == bar)
  {
    hide FirstTouch, Round, Lot;
  }

  // ---------------------------------------------------------------- whole runs

  /** The trade at position `k` of a run is that of a worthy signal, sized for the balance the earlier trades left. */
  predicate InOrderOfBalance(candles: seq<Candle>, ts: seq<Trade>, fn: SignalFn, cfg: Config, k: nat)
    requires k < |ts|
  {
    var t := ts[k];
    && t.entryBar < |candles| && Trades(candles, t.entryBar, fn, cfg)
    && var s := Answer(candles, t.entryBar, fn).value;
       && RightlySized(t.lotSize, s, cfg, cfg.initialBalance + TotalPnl(ts[..k]))
       && RightlyPaid(t, s, cfg, ClosedAt(candles, s, t))
  }

  /** One more bar trades exactly when its answer is worth it, and then by one trade that is rightly sized and paid. */
  lemma OneMoreTrade(candles: seq<Candle>, n: nat, fn: SignalFn, cfg: Config)
    requires n < |candles| && cfg.pipValue > 0.0
    ensures var a, b := RunTo(candles, n, fn, cfg).0, RunTo(candles, n + 1, fn, cfg).0;
            && (if Trades(candles, n, fn, cfg) then |b| == |a| + 1 && b[..|a|] == a && b[|a|].entryBar == n else b == a)
            && (|b| == |a| + 1 ==> InOrderOfBalance(candles, b, fn, cfg, |a|))
  {
    hide Simulated, SignalAt, IsValid, Answer, WorthIt, RightlySized, RightlyPaid, ClosedAt, Filled;
    var (a, balance) := RunTo(candles, n, fn, cfg);
    SignalIsAnswer(candles, n, fn, cfg);
    BalanceConserved(candles, n, fn, cfg);
    var s := SignalAt(candles, n, fn, cfg);
    if s.Some? {
      SimulatedIff(candles, n, s.value, cfg, balance);
      if Simulated(candles, n, s.value, cfg, balance).Some? {
        TradeMeans(candles, n, s.value, cfg, balance);
        var t := Simulated(candles, n, s.value, cfg, balance).value;
        assert (a + [t])[..|a|] == a;
      }
    }
  }

  lemma EarlierTradeStays(candles: seq<Candle>, a: seq<Trade>, b: seq<Trade>, fn: SignalFn, cfg: Config, k: nat)
    requires k < |a| <= |b| && b[..|a|] == a && InOrderOfBalance(candles, a, fn, cfg, k)
    ensures InOrderOfBalance(candles, b, fn, cfg, k)
  {
    hide Trades, Answer, RightlySized, RightlyPaid, TotalPnl, ClosedAt;
    assert b[k] == b[..|a|][k] && b[..k] == b[..|a|][..k];
  }

  /** Every trade of a run was worth taking, and was sized for the balance before it and paid for its move. */
  lemma {:induction false} RiskLaw(candles: seq<Candle>, n: nat, fn: SignalFn, cfg: Config)
    requires n <= |candles| && cfg.pipValue > 0.0
    ensures var ts := RunTo(candles, n, fn, cfg).0;
            forall k | 0 <= k < |ts| :: InOrderOfBalance(candles, ts, fn, cfg, k)
  {
    hide InOrderOfBalance, Trades, AllSizable;
    if n == 0 {
      hide RunTo;
      assert RunTo(candles, n, fn, cfg).0 == [] by { NoTrades(candles, fn, cfg); }
    } else {
      hide RunTo;
      PipValueSizes(candles, n, fn, cfg);
      RiskLaw(candles, n - 1, fn, cfg);
      OneMoreTrade(candles, n - 1, fn, cfg);
      var a, b := RunTo(candles, n - 1, fn, cfg).0, RunTo(candles, n, fn, cfg).0;
      assert |a| <= |b| <= |a| + 1 && b[..|a|] == a;
      forall k | 0 <= k < |b|
        ensures InOrderOfBalance(candles, b, fn, cfg, k)
      {
        if k < |a| {
          EarlierTradeStays(candles, a, b, fn, cfg, k);
        }
      }
    }
  }

  lemma PipValueSizes(candles: seq<Candle>, n: nat, fn: SignalFn, cfg: Config)
    requires n <= |candles| && cfg.pipValue > 0.0
    ensures forall m: nat | m <= n :: AllSizable(candles, m, fn, cfg)
  {
  }

  lemma NoTrades(candles: seq<Candle>, fn: SignalFn, cfg: Config)
    ensures AllSizable(candles, 0, fn, cfg) && RunTo(candles, 0, fn, cfg) == ([], cfg.initialBalance)
  {
  }

  /** A run trades at exactly the bars whose answer is worth it. */
  lemma {:induction false} TradedIff(candles: seq<Candle>, n: nat, fn: SignalFn, cfg: Config, bar: nat)
    requires bar < n <= |candles| && cfg.pipValue > 0.0
    ensures (exists t :: t in RunTo(candles, n, fn, cfg).0 && t.entryBar == bar) <==> Trades(candles, bar, fn, cfg)
  {
    hide RunTo, Trades, InOrderOfBalance, AllSizable;
    PipValueSizes(candles, n, fn, cfg);
    OneMoreTrade(candles, n - 1, fn, cfg);
    TradesInOrder(candles, n - 1, fn, cfg);
    var a, b := RunTo(candles, n - 1, fn, cfg).0, RunTo(candles, n, fn, cfg).0;
    if b != a {
      assert b == a + [b[|a|]];
    }
    if bar < n - 1 {
      TradedIff(candles, n - 1, fn, cfg, bar);
    }
  }
}
