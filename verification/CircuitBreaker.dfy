/**
 The circuit breaker of backend/circuit_breaker.py. Every clock reading that a call takes is
 a parameter, in the order in which the call takes them.
 */
module CircuitBreaker {
  import opened Options

  datatype BreakerState = Closed | Open | HalfOpen

  datatype Config = Config(failureThreshold: int, windowS: real, recoveryS: real,
                           successThreshold: int, halfOpenMax: int)

  const DEFAULT := Config(5, 60.0, 30.0, 2, 3)

  datatype Stats = Stats(state: BreakerState, failureTimes: seq<real>, successes: nat,
                         halfOpenCalls: nat, openedAt: Option<real>)

  const FRESH := Stats(Closed, [], 0, 0, None)

  /** The times still inside the trailing window at `now`, oldest first. */
  function InWindow(times: seq<real>, now: real, windowS: real): seq<real> {
    if times == [] then []
    else
      var n := |times| - 1;
      InWindow(times[..n], now, windowS) + if now - times[n] < windowS then [times[n]] else []
  }

  function Transition(s: Stats, target: BreakerState, now: real): Stats {
    match target
    case Open => s.(state := Open, openedAt := Some(now), successes := 0, halfOpenCalls := 0)
    case HalfOpen => s.(state := HalfOpen, successes := 0, halfOpenCalls := 0)
    case Closed => s.(state := Closed, openedAt := None, successes := 0, halfOpenCalls := 0)
  }

  /** record_success at the clock reading taken if the breaker closes. */
  function Success(c: Config, s: Stats, now: real): Stats {
    var counted := s.(failureTimes := if s.state == Closed then [] else s.failureTimes, successes := s.successes + 1);
    if s.state == HalfOpen && counted.successes >= c.successThreshold then Transition(counted, Closed, now) else counted
  }

  /** record_failure: the readings are taken for pruning, for counting and for opening. */
  function Failure(c: Config, s: Stats, t1: real, t2: real, t3: real): Stats {
    var counted := s.(failureTimes := InWindow(s.failureTimes, t1, c.windowS) + [t1], successes := 0);
    if s.state != Open && |InWindow(counted.failureTimes, t2, c.windowS)| >= c.failureThreshold
    then Transition(counted, Open, t3) else counted
  }

  /** can_execute: the new statistics and whether the call is admitted. */
  function Check(c: Config, s: Stats, t1: real, t2: real): (Stats, bool) {
    match s.state
    case Closed => (s, true)
    case Open =>
      if s.openedAt.Some? && t1 - s.openedAt.value >= c.recoveryS then (Transition(s, HalfOpen, t2), true)
      else (s, false)
    case HalfOpen =>
      if s.halfOpenCalls >= c.halfOpenMax then (s, false) else (s.(halfOpenCalls := s.halfOpenCalls + 1), true)
  }

  // ---------------------------------------------------------------- runs

  /**
   A breaker in use. `recorded` holds every failure since the last success recorded while
   CLOSED, `outstanding` counts the admitted calls that have not reported, and `episode`
   the calls admitted since HALF_OPEN was entered.
   */
  datatype World = World(stats: Stats, clock: real, recorded: seq<real>, outstanding: nat, episode: nat)

  datatype Op = Call(t1: real, t2: real) | Succeed(t1: real) | Fail(t1: real, t2: real, t3: real)

  const START := World(FRESH, 0.0, [], 0, 0)

  /** The clock does not run backwards. Anyone may report, whether or not a call of theirs was admitted. */
  predicate Timely(w: World, op: Op) {
    match op
    case Call(t1, t2) => w.clock <= t1 <= t2
    case Succeed(t1) => w.clock <= t1
    case Fail(t1, t2, t3) => w.clock <= t1 <= t2 <= t3
  }

  /** Only admitted calls report, once each: the callers' part. */
  predicate Owed(w: World, op: Op) {
    op.Call? || w.outstanding > 0
  }

  predicate Legal(w: World, op: Op) {
    Timely(w, op) && Owed(w, op)
  }

  function Admitted(c: Config, w: World, op: Op): bool {
    op.Call? && Check(c, w.stats, op.t1, op.t2).1
  }

  function OneLess(n: nat): nat {
    if n == 0 then 0 else n - 1
  }

  function Step(c: Config, w: World, op: Op): World {
    match op
    case Call(t1, t2) =>
      var (stats, admitted) := Check(c, w.stats, t1, t2);
      World(stats, t2, w.recorded, w.outstanding + if admitted then 1 else 0,
            if stats.state != HalfOpen then 0
            else if w.stats.state != HalfOpen then 1
            else w.episode + if admitted then 1 else 0)
    case Succeed(t1) =>
      World(Success(c, w.stats, t1), t1, if w.stats.state == Closed then [] else w.recorded,
            OneLess(w.outstanding), w.episode)
    case Fail(t1, t2, t3) =>
      World(Failure(c, w.stats, t1, t2, t3), t3, w.recorded + [t1], OneLess(w.outstanding), w.episode)
  }

  function Run(c: Config, w: World, ops: seq<Op>): World
    decreases |ops|
  {
    if ops == [] then w else Run(c, Step(c, w, ops[0]), ops[1..])
  }

  predicate TimelyRun(c: Config, w: World, ops: seq<Op>)
    decreases |ops|
  {
    ops == [] || (Timely(w, ops[0]) && TimelyRun(c, Step(c, w, ops[0]), ops[1..]))
  }

  predicate LegalRun(c: Config, w: World, ops: seq<Op>)
    decreases |ops|
  {
    ops == [] || (Legal(w, ops[0]) && LegalRun(c, Step(c, w, ops[0]), ops[1..]))
  }

  // ---------------------------------------------------------------- the window

  lemma InWindowAppend(times: seq<real>, t: real, now: real, windowS: real)
    ensures InWindow(times + [t], now, windowS)
            == InWindow(times, now, windowS) + if now - t < windowS then [t] else []
  {
    assert (times + [t])[..|times|] == times;
  }

  /** Pruning at an earlier time loses nothing that a later window would count. */
  lemma {:induction false} PruningInvisible(times: seq<real>, earlier: real, later: real, windowS: real)
    requires earlier <= later
    ensures InWindow(InWindow(times, earlier, windowS), later, windowS) == InWindow(times, later, windowS)
    ensures |InWindow(times, later, windowS)| <= |InWindow(times, earlier, windowS)|
  {
    if times != [] {
      var n := |times| - 1;
      PruningInvisible(times[..n], earlier, later, windowS);
      if earlier - times[n] < windowS {
        InWindowAppend(InWindow(times[..n], earlier, windowS), times[n], later, windowS);
      } else {
        assert InWindow(times, earlier, windowS) == InWindow(times[..n], earlier, windowS);
      }
    }
  }

  /** The positions of the times inside the trailing window. */
  function Recent(times: seq<real>, now: real, windowS: real): set<nat> {
    set i: nat | i < |times| && now - times[i] < windowS
  }

  /** The window counts the times less than its length ago. */
  lemma {:induction false} WindowCounts(times: seq<real>, now: real, windowS: real)
    ensures |InWindow(times, now, windowS)| == |Recent(times, now, windowS)|
  {
    if times != [] {
      WindowCounts(times[..|times| - 1], now, windowS);
      RecentLast(times, now, windowS);
      hide Recent;
    }
  }

  lemma RecentLast(times: seq<real>, now: real, windowS: real)
    requires times != []
    ensures var n := |times| - 1;
            |Recent(times, now, windowS)|
            == |Recent(times[..n], now, windowS)| + if now - times[n] < windowS then 1 else 0
  {
    var n := |times| - 1;
    var before := Recent(times[..n], now, windowS);
    assert n !in before;
    assert Recent(times, now, windowS) == if now - times[n] < windowS then before + {n} else before;
  }

  /** It holds just those times, each as often as it was recorded. */
  lemma {:induction false} WindowHolds(times: seq<real>, now: real, windowS: real, t: real)
    ensures multiset(InWindow(times, now, windowS))[t] == if now - t < windowS then multiset(times)[t] else 0
  {
    if times != [] {
      var n := |times| - 1;
      WindowHolds(times[..n], now, windowS, t);
      assert times == times[..n] + [times[n]];
    }
  }

  /** At every time from the clock on, the pruned list counts what the full record counts. */
  ghost predicate WindowExact(c: Config, w: World) {
    forall now | w.clock <= now ::
      InWindow(w.stats.failureTimes, now, c.windowS) == InWindow(w.recorded, now, c.windowS)
  }

  lemma StepKeepsWindow(c: Config, w: World, op: Op)
    requires WindowExact(c, w) && Timely(w, op)
    ensures WindowExact(c, Step(c, w, op))
  {
    hide InWindow;
    var r := Step(c, w, op);
    forall now | r.clock <= now
      ensures InWindow(r.stats.failureTimes, now, c.windowS) == InWindow(r.recorded, now, c.windowS)
    {
      if op.Fail? {
        var kept := InWindow(w.stats.failureTimes, op.t1, c.windowS);
        InWindowAppend(kept, op.t1, now, c.windowS);
        InWindowAppend(w.recorded, op.t1, now, c.windowS);
        PruningInvisible(w.stats.failureTimes, op.t1, now, c.windowS);
      }
    }
  }

  // ---------------------------------------------------------------- the budget

  ghost predicate BudgetKept(c: Config, w: World) {
    && (w.stats.state == Open ==> w.stats.openedAt.Some?)
    && (w.stats.state == Closed ==> w.stats.openedAt.None?)
    && (w.stats.state == HalfOpen ==>
          && w.episode == w.stats.halfOpenCalls + 1
          && (w.stats.halfOpenCalls == 0 || w.stats.halfOpenCalls <= c.halfOpenMax)
          && (c.successThreshold >= 1 ==> w.stats.successes < c.successThreshold))
  }

  lemma StepKeepsBudget(c: Config, w: World, op: Op)
    requires BudgetKept(c, w)
    ensures BudgetKept(c, Step(c, w, op))
  {
  }

  ghost predicate Inv(c: Config, w: World) {
    WindowExact(c, w) && BudgetKept(c, w)
  }

  /**
   Over every run with a non-decreasing clock, whoever reports: the pruned list is an exact window over all
   failures since the last success recorded while CLOSED, each HALF_OPEN episode admits at most
   halfOpenMax + 1 calls, and successes stay below the threshold until the breaker closes.
   */
  lemma {:induction false} InvOverRuns(c: Config, w: World, ops: seq<Op>)
    requires Inv(c, w) && TimelyRun(c, w, ops)
    ensures Inv(c, Run(c, w, ops))
    ensures var r := Run(c, w, ops);
            r.stats.state == HalfOpen && c.halfOpenMax >= 0 ==> r.episode <= c.halfOpenMax + 1
    decreases |ops|
  {
    if ops != [] {
      StepKeepsWindow(c, w, ops[0]);
      StepKeepsBudget(c, w, ops[0]);
      InvOverRuns(c, Step(c, w, ops[0]), ops[1..]);
    }
  }

  /** In particular from a new breaker. */
  lemma InvFromStart(c: Config, ops: seq<Op>)
    requires TimelyRun(c, START, ops)
    ensures var r := Run(c, START, ops);
            && Inv(c, r)
            && |InWindow(r.stats.failureTimes, r.clock, c.windowS)| == |InWindow(r.recorded, r.clock, c.windowS)|
            && (r.stats.state == HalfOpen && c.halfOpenMax >= 0 ==> r.episode <= c.halfOpenMax + 1)
  {
    assert Inv(c, START);
    InvOverRuns(c, START, ops);
  }

  /** OPEN is entered only by a failure that brings the recorded window to the threshold. */
  lemma OpensOnlyAtThreshold(c: Config, w: World, op: Op)
    requires Inv(c, w) && Timely(w, op)
    requires w.stats.state != Open && Step(c, w, op).stats.state == Open
    ensures op.Fail? && |InWindow(w.recorded + [op.t1], op.t2, c.windowS)| >= c.failureThreshold
    ensures Step(c, w, op).stats.openedAt == Some(op.t3)
  {
    hide InWindow;
    if op.Fail? {
      PruningInvisible(w.stats.failureTimes, op.t1, op.t2, c.windowS);
      InWindowAppend(InWindow(w.stats.failureTimes, op.t1, c.windowS), op.t1, op.t2, c.windowS);
      InWindowAppend(w.recorded, op.t1, op.t2, c.windowS);
    }
  }

  /** OPEN is entered exactly by a failure that makes the recent ones as many as the threshold. */
  lemma OpensIff(c: Config, w: World, op: Op)
    requires Inv(c, w) && Timely(w, op) && w.stats.state != Open
    ensures Step(c, w, op).stats.state == Open
            <==> op.Fail? && |Recent(w.recorded + [op.t1], op.t2, c.windowS)| >= c.failureThreshold
  {
    hide InWindow, Recent;
    if op.Fail? {
      PruningInvisible(w.stats.failureTimes, op.t1, op.t2, c.windowS);
      InWindowAppend(InWindow(w.stats.failureTimes, op.t1, c.windowS), op.t1, op.t2, c.windowS);
      InWindowAppend(w.recorded, op.t1, op.t2, c.windowS);
      WindowCounts(w.recorded + [op.t1], op.t2, c.windowS);
    }
  }

  /**
   A call is admitted exactly while CLOSED, once the recovery timeout has passed since the breaker
   opened, and in HALF_OPEN while the episode has not admitted more than its budget.
   */
  lemma AdmittedIff(c: Config, w: World, op: Op)
    requires Inv(c, w) && op.Call?
    ensures Admitted(c, w, op) <==> match w.stats.state
                                    case Closed => true
                                    case Open => op.t1 >= w.stats.openedAt.value + c.recoveryS
                                    case HalfOpen => w.episode <= c.halfOpenMax
    ensures Step(c, w, op).stats.state
            == (if w.stats.state == Open && Admitted(c, w, op) then HalfOpen else w.stats.state)
    ensures Step(c, w, op).stats.failureTimes == w.stats.failureTimes
    ensures w.stats.state == Open && Admitted(c, w, op) ==> Step(c, w, op).stats.successes == 0
  {
  }

  /** A success forgets the failures exactly while CLOSED, and in OPEN it changes nothing that lasts. */
  lemma SuccessMeans(c: Config, w: World, op: Op)
    requires op.Succeed?
    ensures var r := Step(c, w, op).stats;
            && r.failureTimes == (if w.stats.state == Closed then [] else w.stats.failureTimes)
            && (w.stats.state != HalfOpen ==> r.state == w.stats.state && r.openedAt == w.stats.openedAt)
            && (r.state == Closed ==> r.openedAt == None || w.stats.state == Closed)
  {
  }

  // ---------------------------------------------------------------- closing

  lemma {:induction false} RunLast(c: Config, w: World, ops: seq<Op>)
    requires ops != []
    ensures Run(c, w, ops) == Step(c, Run(c, w, ops[..|ops| - 1]), ops[|ops| - 1])
    decreases |ops|
  {
    hide Step;
    if |ops| > 1 {
      RunLast(c, Step(c, w, ops[0]), ops[1..]);
      assert ops[1..][..|ops| - 2] == ops[..|ops| - 1][1..];
    }
  }

  /** The successes reported in a row at the end of a run. */
  function Row(ops: seq<Op>): nat {
    if ops == [] then 0
    else
      match ops[|ops| - 1]
      case Call(_, _) => Row(ops[..|ops| - 1])
      case Succeed(_) => Row(ops[..|ops| - 1]) + 1
      case Fail(_, _, _) => 0
  }

  /** The breaker is HALF_OPEN before and after every operation. */
  predicate StaysHalfOpen(c: Config, w: World, ops: seq<Op>) {
    Run(c, w, ops).stats.state == HalfOpen && (ops == [] || StaysHalfOpen(c, w, ops[..|ops| - 1]))
  }

  lemma {:induction false} SuccessesAreRow(c: Config, w: World, ops: seq<Op>)
    requires w.stats.successes == 0 && StaysHalfOpen(c, w, ops)
    ensures Run(c, w, ops).stats.successes == Row(ops)
  {
    if ops != [] {
      SuccessesAreRow(c, w, ops[..|ops| - 1]);
      RunLast(c, w, ops);
      hide InWindow, Run;
    }
  }

  /** From the start of a HALF_OPEN episode, the breaker closes exactly at success_threshold successes in a row. */
  lemma ClosesIff(c: Config, w: World, ops: seq<Op>, op: Op)
    requires w.stats.successes == 0 && StaysHalfOpen(c, w, ops)
    ensures Run(c, w, ops + [op]).stats.state == Closed <==> op.Succeed? && Row(ops + [op]) >= c.successThreshold
  {
    var before := Run(c, w, ops);
    assert before.stats.state == HalfOpen;
    hide InWindow, Run, Row, StaysHalfOpen;
    SuccessesAreRow(c, w, ops);
    RowAppend(ops, op);
    RunLast(c, w, ops + [op]);
    assert (ops + [op])[..|ops|] == ops;
  }

  lemma RowAppend(ops: seq<Op>, op: Op)
    ensures Row(ops + [op]) == if op.Call? then Row(ops) else if op.Succeed? then Row(ops) + 1 else 0
  {
    assert (ops + [op])[..|ops|] == ops;
  }

  // ---------------------------------------------------------------- admission while OPEN

  predicate AdmitsSome(c: Config, w: World, ops: seq<Op>)
    decreases |ops|
  {
    ops != [] && (Admitted(c, w, ops[0]) || AdmitsSome(c, Step(c, w, ops[0]), ops[1..]))
  }

  /** While OPEN no call at all is admitted before the recovery timeout, whatever is reported meanwhile. */
  lemma {:induction false} NoAdmissionWhileOpen(c: Config, w: World, ops: seq<Op>, since: real)
    requires w.stats.state == Open && w.stats.openedAt == Some(since)
    requires forall i | 0 <= i < |ops| :: ops[i].Call? ==> ops[i].t1 < since + c.recoveryS
    ensures Run(c, w, ops).stats.state == Open && Run(c, w, ops).stats.openedAt == Some(since)
    ensures !AdmitsSome(c, w, ops)
    decreases |ops|
  {
    if ops != [] {
      NoAdmissionWhileOpen(c, Step(c, w, ops[0]), ops[1..], since);
    }
  }

  // ---------------------------------------------------------------- stuck states

  predicate Sensible(c: Config) {
    c.failureThreshold >= 1 && c.successThreshold >= 1 && c.windowS > 0.0
  }

  function CountNow(c: Config, w: World): nat {
    |InWindow(w.stats.failureTimes, w.clock, c.windowS)|
  }

  /** The budget is spent and the calls still out can neither close nor reopen the breaker. */
  predicate Stuck(c: Config, w: World) {
    && w.stats.state == HalfOpen
    && w.stats.halfOpenCalls >= c.halfOpenMax
    && (w.outstanding == 0
        || (w.stats.successes + w.outstanding < c.successThreshold
            && CountNow(c, w) + w.outstanding < c.failureThreshold))
  }

  lemma StuckStays(c: Config, w: World, op: Op)
    requires Sensible(c) && Stuck(c, w) && Legal(w, op)
    ensures !Admitted(c, w, op) && Stuck(c, Step(c, w, op))
  {
    hide InWindow;
    var times := w.stats.failureTimes;
    var r := Step(c, w, op);
    if op.Fail? {
      var kept := InWindow(times, op.t1, c.windowS);
      PruningInvisible(times, w.clock, op.t1, c.windowS);
      PruningInvisible(kept, op.t1, op.t2, c.windowS);
      PruningInvisible(times, op.t1, op.t2, c.windowS);
      InWindowAppend(kept, op.t1, op.t2, c.windowS);
      assert r.stats.failureTimes == kept + [op.t1];
      PruningInvisible(kept + [op.t1], op.t2, op.t3, c.windowS);
    } else {
      PruningInvisible(times, w.clock, r.clock, c.windowS);
    }
  }

  /** Some legal continuation ends with an admitted call. */
  ghost predicate CanAdmit(c: Config, w: World) {
    exists ops :: AdmitsLast(c, w, ops)
  }

  predicate AdmitsLast(c: Config, w: World, ops: seq<Op>)
    decreases |ops|
  {
    && ops != []
    && LegalRun(c, w, ops)
    && if |ops| == 1 then Admitted(c, w, ops[0]) else AdmitsLast(c, Step(c, w, ops[0]), ops[1..])
  }

  lemma {:induction false} StuckNeverAdmits(c: Config, w: World, ops: seq<Op>)
    requires Sensible(c) && Stuck(c, w)
    ensures !AdmitsLast(c, w, ops)
    decreases |ops|
  {
    if ops != [] && Legal(w, ops[0]) {
      StuckStays(c, w, ops[0]);
      StuckNeverAdmits(c, Step(c, w, ops[0]), ops[1..]);
    }
  }

  lemma Prepend(c: Config, w: World, op: Op)
    requires Legal(w, op) && CanAdmit(c, Step(c, w, op))
    ensures CanAdmit(c, w)
  {
    var ops :| AdmitsLast(c, Step(c, w, op), ops);
    assert ([op] + ops)[1..] == ops;
    assert AdmitsLast(c, w, [op] + ops);
  }

  lemma AdmitsAt(c: Config, w: World, t: real)
    requires w.clock <= t && Admitted(c, w, Call(t, t))
    ensures CanAdmit(c, w)
  {
    assert [Call(t, t)][1..] == [];
    assert AdmitsLast(c, w, [Call(t, t)]);
  }

  /** Reporting a failure at once raises the count by one, or opens the breaker. */
  lemma FailNow(c: Config, w: World)
    requires Sensible(c) && w.outstanding > 0 && w.stats.state == HalfOpen
    ensures var r := Step(c, w, Fail(w.clock, w.clock, w.clock));
            if CountNow(c, w) + 1 >= c.failureThreshold then r.stats.state == Open && r.stats.openedAt.Some?
            else r.stats.state == HalfOpen && CountNow(c, r) == CountNow(c, w) + 1
                 && r.outstanding == w.outstanding - 1 && r.stats.halfOpenCalls == w.stats.halfOpenCalls
  {
    hide InWindow;
    PruningInvisible(w.stats.failureTimes, w.clock, w.clock, c.windowS);
    InWindowAppend(InWindow(w.stats.failureTimes, w.clock, c.windowS), w.clock, w.clock, c.windowS);
  }

  lemma {:induction false} FreeAdmits(c: Config, w: World)
    requires Sensible(c) && BudgetKept(c, w) && !Stuck(c, w)
    ensures CanAdmit(c, w)
    decreases w.outstanding
  {
    match w.stats.state
    case Closed => AdmitsAt(c, w, w.clock);
    case Open => OpenAdmits(c, w);
    case HalfOpen =>
      if w.stats.halfOpenCalls < c.halfOpenMax {
        AdmitsAt(c, w, w.clock);
      } else if w.stats.successes + w.outstanding >= c.successThreshold {
        var r := Step(c, w, Succeed(w.clock));
        if r.stats.state == Closed {
          AdmitsAt(c, r, r.clock);
        } else {
          FreeAdmits(c, r);
        }
        Prepend(c, w, Succeed(w.clock));
      } else {
        var fail := Fail(w.clock, w.clock, w.clock);
        var r := Step(c, w, fail);
        FailNow(c, w);
        if r.stats.state == Open {
          OpenAdmits(c, r);
        } else {
          FreeAdmits(c, r);
        }
        Prepend(c, w, fail);
      }
  }

  lemma OpenAdmits(c: Config, w: World)
    requires w.stats.state == Open && w.stats.openedAt.Some?
    ensures CanAdmit(c, w)
  {
    var ready := w.stats.openedAt.value + c.recoveryS;
    AdmitsAt(c, w, if w.clock <= ready then ready else w.clock);
  }

  /** A breaker can admit another call, some day and under some reports, exactly when it is not stuck. */
  lemma AdmitsIffNotStuck(c: Config, w: World)
    requires Sensible(c) && BudgetKept(c, w)
    ensures CanAdmit(c, w) <==> !Stuck(c, w)
  {
    if Stuck(c, w) {
      forall ops
        ensures !AdmitsLast(c, w, ops)
      {
        StuckNeverAdmits(c, w, ops);
      }
    } else {
      FreeAdmits(c, w);
    }
  }

  function SuccessTimes(c: Config, s: Stats, n: nat, now: real): Stats {
    if n == 0 then s else Success(c, SuccessTimes(c, s, n - 1, now), now)
  }

  lemma {:induction false} SuccessesCount(c: Config, s: Stats, n: nat, now: real)
    requires s.state == HalfOpen && s.successes + n < c.successThreshold
    ensures var r := SuccessTimes(c, s, n, now); r.state == HalfOpen && r.successes == s.successes + n
  {
    if n > 0 {
      SuccessesCount(c, s, n - 1, now);
    }
  }

  /**
   The breaker itself does not check that a report belongs to an admitted call: enough successes
   that no call owes close it from any HALF_OPEN state, a stuck one included, and it admits again.
   */
  lemma StrayReportsClose(c: Config, s: Stats, now: real)
    requires s.state == HalfOpen && s.successes < c.successThreshold
    ensures var r := SuccessTimes(c, s, c.successThreshold - s.successes, now);
            r.state == Closed && Check(c, r, now, now).1
  {
    SuccessesCount(c, s, c.successThreshold - s.successes - 1, now);
  }

  // ---------------------------------------------------------------- a stuck run

  function Repeat(op: Op, n: nat): seq<Op> {
    if n == 0 then [] else [op] + Repeat(op, n - 1)
  }

  lemma {:induction false} RunConcat(c: Config, w: World, a: seq<Op>, b: seq<Op>)
    requires LegalRun(c, w, a) && LegalRun(c, Run(c, w, a), b)
    ensures LegalRun(c, w, a + b) && Run(c, w, a + b) == Run(c, Run(c, w, a), b)
    decreases |a|
  {
    if a == [] {
      assert a + b == b;
    } else {
      assert (a + b)[1..] == a[1..] + b;
      RunConcat(c, Step(c, w, a[0]), a[1..], b);
    }
  }

  lemma {:induction false} ClosedCalls(w: World, t: real, n: nat)
    requires w.stats.state == Closed && w.clock == t && w.episode == 0
    ensures LegalRun(DEFAULT, w, Repeat(Call(t, t), n))
    ensures Run(DEFAULT, w, Repeat(Call(t, t), n)) == w.(outstanding := w.outstanding + n)
    decreases n
  {
    if n > 0 {
      ClosedCalls(Step(DEFAULT, w, Call(t, t)), t, n - 1);
    }
  }

  function Fill(n: nat, t: real): seq<real> {
    seq(n, _ => t)
  }

  lemma {:induction false} FillInWindow(n: nat, t: real, now: real, windowS: real)
    ensures InWindow(Fill(n, t), now, windowS) == if now - t < windowS then Fill(n, t) else []
  {
    if n > 0 {
      assert Fill(n, t)[..n - 1] == Fill(n - 1, t) && Fill(n, t) == Fill(n - 1, t) + [t];
      FillInWindow(n - 1, t, now, windowS);
    }
  }

  /** A failure at `t` when the window holds `k` failures, all at `t`. */
  lemma FailAgain(w: World, t: real, k: nat)
    requires w.clock <= t && w.outstanding > 0 && w.stats.state != Open
    requires InWindow(w.stats.failureTimes, t, DEFAULT.windowS) == Fill(k, t)
    ensures var counted := w.stats.(failureTimes := Fill(k + 1, t), successes := 0);
            && Step(DEFAULT, w, Fail(t, t, t)).stats
               == (if k + 1 >= DEFAULT.failureThreshold then Transition(counted, Open, t) else counted)
            && InWindow(Fill(k + 1, t), t, DEFAULT.windowS) == Fill(k + 1, t)
  {
    hide InWindow;
    assert Fill(k, t) + [t] == Fill(k + 1, t);
    FillInWindow(k + 1, t, t, DEFAULT.windowS);
  }

  /** A breaker whose window holds `k` failures, all at `t`, and that is otherwise like `like` with `out` calls out. */
  predicate Quiet(w: World, like: World, t: real, k: nat, out: nat) {
    && w.stats.state == like.stats.state != Open && w.stats.halfOpenCalls == like.stats.halfOpenCalls
    && w.stats.openedAt == like.stats.openedAt && w.clock <= t && w.outstanding == out
    && InWindow(w.stats.failureTimes, t, DEFAULT.windowS) == Fill(k, t)
  }

  lemma QuietFailure(w: World, like: World, t: real, k: nat, out: nat)
    requires Quiet(w, like, t, k, out) && out > 0 && k + 1 < DEFAULT.failureThreshold
    ensures Legal(w, Fail(t, t, t)) && Quiet(Step(DEFAULT, w, Fail(t, t, t)), like, t, k + 1, out - 1)
  {
    hide InWindow, Fill, Failure;
    FailAgain(w, t, k);
  }

  /** Failures reported at one moment, as long as the threshold is not reached. */
  lemma {:induction false} QuietFailures(w: World, like: World, t: real, k: nat, out: nat, n: nat)
    requires Quiet(w, like, t, k, out) && n <= out && k + n < DEFAULT.failureThreshold
    ensures LegalRun(DEFAULT, w, Repeat(Fail(t, t, t), n))
    ensures Quiet(Run(DEFAULT, w, Repeat(Fail(t, t, t), n)), like, t, k + n, out - n)
    decreases n
  {
    if n > 0 {
      hide Quiet, Legal, Step;
      var op := Fail(t, t, t);
      QuietFailure(w, like, t, k, out);
      assert Repeat(op, n)[1..] == Repeat(op, n - 1);
      QuietFailures(Step(DEFAULT, w, op), like, t, k + 1, out - 1, n - 1);
    }
  }

  /** Five admitted calls that fail at once open the breaker. */
  lemma OpensAtZero() returns (ops: seq<Op>, w: World)
    ensures LegalRun(DEFAULT, START, ops) && w == Run(DEFAULT, START, ops)
    ensures w.stats == Stats(Open, Fill(5, 0.0), 0, 0, Some(0.0)) && w.clock == 0.0 && w.outstanding == 0
  {
    hide InWindow;
    var calls, fails := Repeat(Call(0.0, 0.0), 5), Repeat(Fail(0.0, 0.0, 0.0), 4);
    ClosedCalls(START, 0.0, 5);
    var called := Run(DEFAULT, START, calls);
    FillInWindow(0, 0.0, 0.0, DEFAULT.windowS);
    assert called.stats.failureTimes == Fill(0, 0.0);
    QuietFailures(called, called, 0.0, 0, 5, 4);
    var failed := Run(DEFAULT, called, fails);
    FailAgain(failed, 0.0, 4);
    w := Step(DEFAULT, failed, Fail(0.0, 0.0, 0.0));
    var last := [Fail(0.0, 0.0, 0.0)];
    assert last[1..] == [];
    RunConcat(DEFAULT, START, calls, fails);
    RunConcat(DEFAULT, START, calls + fails, last);
    ops := calls + fails + last;
  }

  /** At 30 s the breaker recovers and spends its half-open budget on four calls. */
  lemma SpendsBudget(w: World) returns (ops: seq<Op>, r: World)
    requires w.stats == Stats(Open, Fill(5, 0.0), 0, 0, Some(0.0)) && w.clock == 0.0 && w.outstanding == 0
    ensures LegalRun(DEFAULT, w, ops) && r == Run(DEFAULT, w, ops)
    ensures r.stats == Stats(HalfOpen, Fill(5, 0.0), 0, 3, Some(0.0)) && r.clock == 30.0 && r.outstanding == 4
  {
    var call := Call(30.0, 30.0);
    ops := [call, call, call, call];
    var w1 := Step(DEFAULT, w, call);
    var w2 := Step(DEFAULT, w1, call);
    var w3 := Step(DEFAULT, w2, call);
    r := Step(DEFAULT, w3, call);
    assert ops[1..] == [call, call, call] && ops[1..][1..] == [call, call];
    assert ops[1..][1..][1..] == [call] && ops[1..][1..][1..][1..] == [];
    assert LegalRun(DEFAULT, w3, [call]) && Run(DEFAULT, w3, [call]) == r;
    assert LegalRun(DEFAULT, w2, ops[1..][1..]) && Run(DEFAULT, w2, ops[1..][1..]) == r;
    assert LegalRun(DEFAULT, w1, ops[1..]) && Run(DEFAULT, w1, ops[1..]) == r;
  }

  /**
   The default configuration reaches a dead end: five failures open the breaker, it recovers at
   30 s and spends its budget, all four admitted calls fail at 100 s, when the first five
   failures have left the window, and no legal continuation admits a call again.
   */
  lemma StuckReachable() returns (ops: seq<Op>, w: World)
    ensures LegalRun(DEFAULT, START, ops) && w == Run(DEFAULT, START, ops)
    ensures w.stats.state == HalfOpen && w.outstanding == 0 && !CanAdmit(DEFAULT, w)
  {
    hide InWindow, Run, LegalRun;
    var opening, broken := OpensAtZero();
    var spending, spent := SpendsBudget(broken);
    RunConcat(DEFAULT, START, opening, spending);
    FillInWindow(5, 0.0, 100.0, DEFAULT.windowS);
    assert Fill(0, 100.0) == [];
    QuietFailures(spent, spent, 100.0, 0, 4, 4);
    var failing := Repeat(Fail(100.0, 100.0, 100.0), 4);
    RunConcat(DEFAULT, START, opening + spending, failing);
    ops := opening + spending + failing;
    w := Run(DEFAULT, spent, failing);
    forall more
      ensures !AdmitsLast(DEFAULT, w, more)
    {
      StuckNeverAdmits(DEFAULT, w, more);
    }
  }

  // ---------------------------------------------------------------- the breaker itself

  class BreakerStats {
    var state: BreakerState
    var failureTimes: seq<real>
    var successes: nat
    var halfOpenCalls: nat
    var openedAt: Option<real>

    ghost function Value(): Stats
      reads this
    {
      Stats(state, failureTimes, successes, halfOpenCalls, openedAt)
    }

    constructor ()
      ensures Value() == FRESH
    {
      state, failureTimes, successes, halfOpenCalls, openedAt := Closed, [], 0, 0, None;
    }

    method RecordSuccess()
      modifies this
      ensures Value() == old(Value()).(failureTimes := if old(state) == Closed then [] else old(failureTimes),
                                       successes := old(successes) + 1)
    {
      if state == Closed {
        failureTimes := [];
      }
      successes := successes + 1;
    }

    method RecordFailure(now: real, windowS: real)
      modifies this
      ensures Value() == old(Value()).(failureTimes := InWindow(old(failureTimes), now, windowS) + [now],
                                       successes := 0)
    {
      failureTimes := InWindow(failureTimes, now, windowS);
      failureTimes := failureTimes + [now];
      successes := 0;
    }

    function FailureCount(now: real, windowS: real): nat
      reads this
    {
      |InWindow(failureTimes, now, windowS)|
    }
  }

  class Breaker {
    const config: Config
    const stats: BreakerStats

    constructor (config: Config)
      ensures this.config == config && fresh(stats) && stats.Value() == FRESH
    {
      this.config := config;
      stats := new BreakerStats();
    }

    method CanExecute(t1: real, t2: real) returns (admitted: bool)
      modifies stats
      ensures (stats.Value(), admitted) == Check(config, old(stats.Value()), t1, t2)
    {
      if stats.state == Closed {
        return true;
      }
      if stats.state == Open {
        if stats.openedAt.Some? && t1 - stats.openedAt.value >= config.recoveryS {
          TransitionTo(HalfOpen, t2);
          return true;
        }
        return false;
      }
      if stats.halfOpenCalls >= config.halfOpenMax {
        return false;
      }
      stats.halfOpenCalls := stats.halfOpenCalls + 1;
      return true;
    }

    method RecordSuccess(now: real)
      modifies stats
      ensures stats.Value() == Success(config, old(stats.Value()), now)
    {
      stats.RecordSuccess();
      if stats.state == HalfOpen {
        if stats.successes >= config.successThreshold {
          TransitionTo(Closed, now);
        }
      }
    }

    method RecordFailure(t1: real, t2: real, t3: real)
      modifies stats
      ensures stats.Value() == Failure(config, old(stats.Value()), t1, t2, t3)
    {
      stats.RecordFailure(t1, config.windowS);
      if stats.state != Open {
        var count := stats.FailureCount(t2, config.windowS);
        if count >= config.failureThreshold {
          TransitionTo(Open, t3);
        }
      }
    }

    method TransitionTo(target: BreakerState, now: real)
      modifies stats
      ensures stats.Value() == Transition(old(stats.Value()), target, now)
    {
      stats.state := target;
      match target {
        case Open =>
          stats.openedAt := Some(now);
          stats.successes := 0;
          stats.halfOpenCalls := 0;
        case HalfOpen =>
          stats.halfOpenCalls := 0;
          stats.successes := 0;
        case Closed =>
          stats.openedAt := None;
          stats.successes := 0;
          stats.halfOpenCalls := 0;
      }
    }
  }
}
