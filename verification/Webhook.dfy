/** The webhook processor of backend/billing/webhook.py: gates, replay filter and dispatch. */
module Webhook {
  import opened Options
  import opened IdempotencyKeys
  import opened Billing

  const MAX_PAYLOAD_BYTES := 1024 * 1024
  const TIMESTAMP_TOLERANCE := 300
  const NONCE_STORE_MAX := 100_000

  datatype EventKind = PaymentSucceeded | PaymentFailed | SubscriptionCancelled | RefundIssued

  /** `outcome` is what the provider reports when the engine asks it to confirm this event's payment. */
  datatype Event = Event(kind: EventKind, invoiceId: string, userId: string, outcome: PaymentStatus)

  /**
   One call of `process`: the payload's size, the caller's timestamp, the clock, whether the
   provider accepts the signature and what it parses (None when parsing raises).
   */
  datatype Delivery = Delivery(size: nat, timestamp: Option<int>, now: nat, signatureOk: bool,
                               eventId: string, parsed: Option<Event>)

  datatype Verdict = TooLarge | StaleTimestamp | BadSignature | Duplicate | ParseError | Processed | Raised

  datatype LogItem = LogItem(action: string, eventId: string)

  datatype Processor = Processor(engine: Engine, seen: set<string>, log: seq<LogItem>)

  /** The three gates before the replay filter. */
  function Gate(d: Delivery): Option<Verdict> {
    if d.size > MAX_PAYLOAD_BYTES then Some(TooLarge)
    else if d.timestamp.Some? && Distance(d.now, d.timestamp.value) > TIMESTAMP_TOLERANCE then Some(StaleTimestamp)
    else if !d.signatureOk then Some(BadSignature)
    else None
  }

  function Distance(a: int, b: int): nat {
    if a <= b then b - a else a - b
  }

  function RejectionText(v: Verdict): string {
    if v == TooLarge then "REJECTED_TOO_LARGE"
    else if v == StaleTimestamp then "REJECTED_STALE_TS"
    else "REJECTED_BAD_SIG"
  }

  /** The identifier under which an event is remembered. */
  function Remembered(d: Delivery, event: Event): string {
    if d.eventId != "" then d.eventId
    else if event.invoiceId != "" then event.invoiceId
    else "evt_" + DecimalText(d.now)
  }

  /** WebhookProcessor._dispatch: a missing invoice or subscription is swallowed, a transition error is not. */
  function Dispatch(e: Engine, event: Event, now: nat): (r: (Engine, Reply))
    requires WellFiled(e)
    ensures WellFiled(r.0)
  {
    match event.kind
    case SubscriptionCancelled =>
      if event.userId == "" then (e, Ok) else Cancel(e, event.userId, "provider_cancelled", now)
    case _ => Confirm(e, event.invoiceId, event.outcome, now)
  }

  function Receive(p: Processor, d: Delivery): (r: (Processor, Verdict))
    requires WellFiled(p.engine)
    ensures WellFiled(r.0.engine)
  {
    if Gate(d).Some? then
      (p.(log := p.log + [LogItem(RejectionText(Gate(d).value), d.eventId)]), Gate(d).value)
    else if d.eventId != "" && d.eventId in p.seen then
      (p.(log := p.log + [LogItem("DUPLICATE_SKIPPED", d.eventId)]), Duplicate)
    else if d.parsed.None? then (p, ParseError)
    else
      var event := d.parsed.value;
      var id := Remembered(d, event);
      var seen := if |p.seen| < NONCE_STORE_MAX then p.seen + {id} else p.seen;
      var (engine, reply) := Dispatch(p.engine, event, d.now);
      if reply == TransitionError then (Processor(engine, seen, p.log), Raised)
      else
        var log := if reply == NotFound then p.log + [LogItem("DISPATCH_KEY_ERROR", event.invoiceId)] else p.log;
        (Processor(engine, seen, log + [LogItem("PROCESSED", id)]), Processed)
  }

  // ---------------------------------------------------------------- refusals

  /** At most 1 MiB, stamped within 300 s of the clock if stamped at all, and signed. */
  predicate Acceptable(d: Delivery) {
    d.size <= 1_048_576 && (d.timestamp.Some? ==> -300 <= d.now - d.timestamp.value <= 300) && d.signatureOk
  }

  /** The verdict on every delivery: size, age and signature are looked at in turn, then the id, then the payload. */
  lemma VerdictMeans(p: Processor, d: Delivery)
    requires WellFiled(p.engine)
    ensures var verdict := Receive(p, d).1;
            && (verdict == TooLarge <==> d.size > 1_048_576)
            && (verdict == StaleTimestamp <==>
                  d.size <= 1_048_576 && d.timestamp.Some? && !(-300 <= d.now - d.timestamp.value <= 300))
            && (verdict == BadSignature <==>
                  && d.size <= 1_048_576 && (d.timestamp.Some? ==> -300 <= d.now - d.timestamp.value <= 300)
                  && !d.signatureOk)
            && (verdict == Duplicate <==> Acceptable(d) && d.eventId != "" && d.eventId in p.seen)
            && (verdict == ParseError <==> Acceptable(d) && (d.eventId == "" || d.eventId !in p.seen) && d.parsed.None?)
            && (verdict in {Processed, Raised} <==>
                  Acceptable(d) && (d.eventId == "" || d.eventId !in p.seen) && d.parsed.Some?)
  {
    hide Dispatch, DecimalText, WellFiled;
  }

  /** A refused, repeated or unreadable delivery leaves the engine and the seen ids alone and is logged at most. */
  lemma RefusedChangesNothing(p: Processor, d: Delivery)
    requires WellFiled(p.engine)
    requires !Acceptable(d) || (d.eventId != "" && d.eventId in p.seen) || d.parsed.None?
    ensures var (r, verdict) := Receive(p, d);
            && r.engine == p.engine && r.seen == p.seen
            && r.log == p.log + match verdict
                                case TooLarge => [LogItem("REJECTED_TOO_LARGE", d.eventId)]
                                case StaleTimestamp => [LogItem("REJECTED_STALE_TS", d.eventId)]
                                case BadSignature => [LogItem("REJECTED_BAD_SIG", d.eventId)]
                                case Duplicate => [LogItem("DUPLICATE_SKIPPED", d.eventId)]
                                case _ => []
  {
    hide Dispatch, DecimalText, WellFiled;
    assert p.log + [] == p.log;
  }

  /**
   Every other delivery is handed on, is remembered under its id, its invoice or the clock while
   there is room, and raises exactly when the engine refuses the transition.
   */
  lemma OthersAreHandedOn(p: Processor, d: Delivery)
    requires WellFiled(p.engine) && Acceptable(d) && d.parsed.Some? && (d.eventId == "" || d.eventId !in p.seen)
    ensures var event, (r, verdict) := d.parsed.value, Receive(p, d);
            var (engine, reply) := Dispatch(p.engine, event, d.now);
            var id := if d.eventId != "" then d.eventId
                      else if event.invoiceId != "" then event.invoiceId else "evt_" + DecimalText(d.now);
            && r.seen == (if |p.seen| < 100_000 then p.seen + {id} else p.seen)
            && r.engine == engine && (verdict == Raised <==> reply == TransitionError)
            && r.log == p.log + (if reply == TransitionError then [] else
                                 if reply == NotFound then [LogItem("DISPATCH_KEY_ERROR", event.invoiceId),
                                                            LogItem("PROCESSED", id)]
                                 else [LogItem("PROCESSED", id)])
  {
    hide Dispatch, DecimalText, WellFiled;
  }

  /** Payment events ask for a confirmation; a cancellation cancels the user it names, if it names one. */
  lemma DispatchMeans(e: Engine, event: Event, now: nat)
    requires WellFiled(e)
    ensures event.kind in {PaymentSucceeded, PaymentFailed, RefundIssued} ==>
              Dispatch(e, event, now) == Confirm(e, event.invoiceId, event.outcome, now)
    ensures event.kind == SubscriptionCancelled && event.userId == "" ==> Dispatch(e, event, now) == (e, Ok)
    ensures event.kind == SubscriptionCancelled && event.userId != "" ==>
              Dispatch(e, event, now) == Cancel(e, event.userId, "provider_cancelled", now)
  {
    hide Confirm, Cancel, WellFiled;
  }

  // ---------------------------------------------------------------- replays

  /** What can happen to the engine: a delivery, or an operation that some other caller performs. */
  datatype Input = Deliver(d: Delivery) | Operate(op: Op)

  function TakeIn(p: Processor, x: Input): (r: Processor)
    requires WellFiled(p.engine)
    ensures WellFiled(r.engine)
  {
    match x
    case Deliver(d) => Receive(p, d).0
    case Operate(op) => p.(engine := Step(p.engine, op))
  }

  function TakeAll(p: Processor, xs: seq<Input>): (r: Processor)
    requires WellFiled(p.engine)
    ensures WellFiled(r.engine)
    decreases |xs|
  {
    if xs == [] then p else TakeAll(TakeIn(p, xs[0]), xs[1..])
  }

  /** The delivery passes the gates, parses and carries an id not seen yet. */
  predicate FirstAccepted(d: Delivery, seen: set<string>) {
    Gate(d).None? && d.parsed.Some? && d.eventId !in seen
  }

  /** Every operation, and of the deliveries the first accepted one of every event id. */
  function Firsts(xs: seq<Input>, seen: set<string>): seq<Input> {
    if xs == [] then []
    else if xs[0].Operate? then [xs[0]] + Firsts(xs[1..], seen)
    else if FirstAccepted(xs[0].d, seen) then [xs[0]] + Firsts(xs[1..], seen + {xs[0].d.eventId})
    else Firsts(xs[1..], seen)
  }

  /** What the events and operations alone do to the engine, without any processor. */
  function Apply(e: Engine, x: Input): (r: Engine)
    requires WellFiled(e) && (x.Deliver? ==> x.d.parsed.Some?)
    ensures WellFiled(r)
  {
    match x
    case Deliver(d) => Dispatch(e, d.parsed.value, d.now).0
    case Operate(op) => Step(e, op)
  }

  predicate AllParsed(xs: seq<Input>) {
    forall i | 0 <= i < |xs| :: xs[i].Deliver? ==> xs[i].d.parsed.Some?
  }

  function ApplyAll(e: Engine, xs: seq<Input>): (r: Engine)
    requires WellFiled(e) && AllParsed(xs)
    ensures WellFiled(r)
    decreases |xs|
  {
    if xs == [] then e else ApplyAll(Apply(e, xs[0]), xs[1..])
  }

  predicate AllNamed(xs: seq<Input>) {
    forall i | 0 <= i < |xs| :: xs[i].Deliver? ==> xs[i].d.eventId != ""
  }

  /** Filtering leaves parsed, named deliveries, and filtering again removes nothing. */
  lemma {:induction false} FirstsStable(xs: seq<Input>, seen: set<string>)
    requires AllNamed(xs)
    ensures AllNamed(Firsts(xs, seen)) && AllParsed(Firsts(xs, seen))
    ensures Firsts(Firsts(xs, seen), seen) == Firsts(xs, seen)
  {
    if xs != [] {
      var x := xs[0];
      if x.Deliver? && !FirstAccepted(x.d, seen) {
        FirstsStable(xs[1..], seen);
      } else {
        var seen' := if x.Deliver? then seen + {x.d.eventId} else seen;
        FirstsStable(xs[1..], seen');
        assert ([x] + Firsts(xs[1..], seen'))[1..] == Firsts(xs[1..], seen');
      }
    }
  }

  lemma ReceiveFirst(p: Processor, d: Delivery)
    requires WellFiled(p.engine) && d.eventId != "" && |p.seen| < 100_000 && FirstAccepted(d, p.seen)
    ensures var r := Receive(p, d).0;
            r.seen == p.seen + {d.eventId} && r.engine == Dispatch(p.engine, d.parsed.value, d.now).0
  {
  }

  lemma ReceiveRest(p: Processor, d: Delivery)
    requires WellFiled(p.engine) && d.eventId != "" && !FirstAccepted(d, p.seen)
    ensures Receive(p, d).0.seen == p.seen && Receive(p, d).0.engine == p.engine
  {
  }

  /** How many deliveries the filter lets through. */
  function Deliveries(xs: seq<Input>): nat {
    if xs == [] then 0 else (if xs[0].Deliver? then 1 else 0) + Deliveries(xs[1..])
  }

  lemma {:induction false} EngineAppliesFirsts(p: Processor, xs: seq<Input>)
    requires WellFiled(p.engine) && AllNamed(xs)
    requires |p.seen| + Deliveries(Firsts(xs, p.seen)) <= NONCE_STORE_MAX
    requires AllParsed(Firsts(xs, p.seen))
    ensures TakeAll(p, xs).engine == ApplyAll(p.engine, Firsts(xs, p.seen))
    decreases |xs|
  {
    if xs != [] {
      var x := xs[0];
      var r := TakeIn(p, x);
      assert Firsts(xs, p.seen) == (if r.engine == p.engine && x.Deliver? && !FirstAccepted(x.d, p.seen)
                                    then [] else [x])
                                   + Firsts(xs[1..], r.seen) by {
        if x.Deliver? {
          if FirstAccepted(x.d, p.seen) { ReceiveFirst(p, x.d); } else { ReceiveRest(p, x.d); }
        }
      }
      hide Receive, Gate;
      if x.Deliver? && !FirstAccepted(x.d, p.seen) {
        ReceiveRest(p, x.d);
      } else {
        if x.Deliver? {
          ReceiveFirst(p, x.d);
        }
        assert Firsts(xs, p.seen)[1..] == Firsts(xs[1..], r.seen);
      }
      EngineAppliesFirsts(r, xs[1..]);
    }
  }

  /**
   Replays are harmless: whatever else happens in between, any sequence of named deliveries
   leaves the billing engine exactly as the first accepted delivery of each id would, as long
   as the replay store does not fill up. Deliveries whose dispatch failed or raised count as
   accepted: they are not given a second chance.
   */
  lemma ReplaysAreHarmless(p: Processor, xs: seq<Input>)
    requires WellFiled(p.engine) && AllNamed(xs)
    requires |p.seen| + Deliveries(Firsts(xs, p.seen)) <= NONCE_STORE_MAX
    ensures TakeAll(p, xs).engine == TakeAll(p, Firsts(xs, p.seen)).engine
    ensures AllParsed(Firsts(xs, p.seen)) && TakeAll(p, xs).engine == ApplyAll(p.engine, Firsts(xs, p.seen))
  {
    FirstsStable(xs, p.seen);
    EngineAppliesFirsts(p, xs);
    EngineAppliesFirsts(p, Firsts(xs, p.seen));
  }

  /** A delivery that passes the gates, parses and is not remembered is dispatched, with or without an id. */
  lemma UnseenIsDispatched(p: Processor, d: Delivery)
    requires WellFiled(p.engine) && Gate(d).None? && d.parsed.Some? && (d.eventId == "" || d.eventId !in p.seen)
    ensures Receive(p, d).0.engine == Dispatch(p.engine, d.parsed.value, d.now).0
    ensures Receive(p, d).1 != Duplicate
  {
  }

  /** Nothing that happens makes the processor forget an id, and a full store learns no new one. */
  lemma SeenGrows(p: Processor, x: Input)
    requires WellFiled(p.engine)
    ensures p.seen <= TakeIn(p, x).seen
    ensures |p.seen| >= NONCE_STORE_MAX ==> TakeIn(p, x).seen == p.seen
  {
    hide Dispatch, DecimalText, WellFiled, Step;
  }

  lemma {:induction false} SeenGrowsAll(p: Processor, xs: seq<Input>)
    requires WellFiled(p.engine)
    ensures p.seen <= TakeAll(p, xs).seen
    ensures |p.seen| >= NONCE_STORE_MAX ==> TakeAll(p, xs).seen == p.seen
    decreases |xs|
  {
    if xs != [] {
      hide TakeIn;
      SeenGrows(p, xs[0]);
      SeenGrowsAll(TakeIn(p, xs[0]), xs[1..]);
    }
  }

  /** Accepting a delivery remembers its id exactly when it has one and there is room. */
  lemma RememberedIff(p: Processor, d: Delivery)
    requires WellFiled(p.engine) && FirstAccepted(d, p.seen)
    ensures d.eventId != "" ==> (d.eventId in Receive(p, d).0.seen <==> |p.seen| < NONCE_STORE_MAX)
    ensures |p.seen| >= NONCE_STORE_MAX ==> Receive(p, d).0.seen == p.seen
  {
    hide Dispatch, DecimalText, WellFiled;
  }

  /**
   After an accepted delivery, and whatever happens in between, a later delivery with the same
   event id that passes the gates is recognised as a repeat exactly when the id is not empty and
   the store had room for it.
   */
  lemma RepeatRecognisedIff(p: Processor, d: Delivery, xs: seq<Input>, again: Delivery)
    requires WellFiled(p.engine) && FirstAccepted(d, p.seen) && again.eventId == d.eventId && Gate(again).None?
    ensures Receive(TakeAll(Receive(p, d).0, xs), again).1 == Duplicate
            <==> d.eventId != "" && |p.seen| < 100_000
  {
    RememberedIff(p, d);
    var r := Receive(p, d).0;
    SeenGrowsAll(r, xs);
    var mid := TakeAll(r, xs);
    hide Receive, TakeAll, Gate;
    DuplicateIff(mid, again);
  }

  lemma DuplicateIff(p: Processor, d: Delivery)
    requires WellFiled(p.engine) && Gate(d).None?
    ensures Receive(p, d).1 == Duplicate <==> d.eventId != "" && d.eventId in p.seen
    ensures Receive(p, d).1 == Duplicate ==> Receive(p, d).0.engine == p.engine
  {
    hide Dispatch, DecimalText, WellFiled;
  }

  /** Once the store is full, an id that is not in it is dispatched at every later delivery. */
  lemma FullStoreReplays(p: Processor, xs: seq<Input>, d: Delivery)
    requires WellFiled(p.engine) && |p.seen| >= NONCE_STORE_MAX
    requires Gate(d).None? && d.parsed.Some? && d.eventId !in p.seen
    ensures var mid := TakeAll(p, xs);
            Receive(mid, d).0.engine == Dispatch(mid.engine, d.parsed.value, d.now).0
  {
    SeenGrowsAll(p, xs);
    UnseenIsDispatched(TakeAll(p, xs), d);
  }

  /** The delivery reports a failed payment of the invoice. */
  predicate ReportsFailure(d: Delivery, id: string) {
    && d.parsed.Some? && d.parsed.value.kind != SubscriptionCancelled
    && d.parsed.value.invoiceId == id && d.parsed.value.outcome == Failed
  }

  /**
   A failure report that comes again at any later time counts another failure unless it is
   recognised as a repeat.
   */
  lemma FailureCountedAgainIff(p: Processor, d: Delivery, xs: seq<Input>, again: Delivery,
                               id: string, u: string, k: nat)
    requires WellFiled(p.engine) && FirstAccepted(d, p.seen) && again.eventId == d.eventId && Gate(again).None?
    requires ReportsFailure(again, id) && AfterFailures(TakeAll(Receive(p, d).0, xs).engine, id, u, k)
    ensures AfterFailures(Receive(TakeAll(Receive(p, d).0, xs), again).0.engine, id, u,
                          if d.eventId != "" && |p.seen| < 100_000 then k else k + 1)
  {
    RepeatRecognisedIff(p, d, xs, again);
    var mid := TakeAll(Receive(p, d).0, xs);
    DuplicateIff(mid, again);
    hide AfterFailures, Gate, TakeAll, Receive;
    if !(d.eventId != "" && |p.seen| < 100_000) {
      UnseenIsDispatched(mid, again);
      FailureDispatched(mid.engine, again.parsed.value, again.now, u, k);
    }
  }

  lemma FailureDispatched(e: Engine, event: Event, now: nat, u: string, k: nat)
    requires WellFiled(e) && event.kind != SubscriptionCancelled && event.outcome == Failed
    requires AfterFailures(e, event.invoiceId, u, k)
    ensures AfterFailures(Dispatch(e, event, now).0, event.invoiceId, u, k + 1)
  {
    hide AfterFailures, Confirm;
    FailOnce(e, event.invoiceId, u, k, now);
  }

  lemma UnnamedFailureTwice(p: Processor, d: Delivery, id: string, u: string, k: nat)
    requires WellFiled(p.engine) && d.eventId == "" && Gate(d).None? && ReportsFailure(d, id)
    requires AfterFailures(p.engine, id, u, k)
    ensures AfterFailures(TakeAll(p, [Deliver(d), Deliver(d)]).engine, id, u, k + 2)
  {
    hide AfterFailures, Gate, Receive, Dispatch;
    var once := Receive(p, d).0;
    assert [Deliver(d), Deliver(d)][1..] == [Deliver(d)] && [Deliver(d)][1..] == [];
    assert TakeAll(p, [Deliver(d), Deliver(d)]) == TakeAll(once, [Deliver(d)]) == Receive(once, d).0;
    hide TakeAll;
    UnseenIsDispatched(p, d);
    FailureDispatched(p.engine, d.parsed.value, d.now, u, k);
    UnseenIsDispatched(once, d);
    FailureDispatched(once.engine, d.parsed.value, d.now, u, k + 1);
  }

  /** A payer active on a basic plan with a pending invoice for a pro plan, from nothing. */
  lemma ActiveAndPending(u: string, c: Currency) returns (operations: seq<Input>)
    ensures |operations| == 2 && operations[0].Operate? && operations[1].Operate?
    ensures AfterFailures(TakeAll(Processor(EMPTY, {}, []), operations).engine, "b", u, 0)
  {
    var first := DoCheckout(u, "basic", c, 0, PaymentResult("a", Succeeded));
    var second := DoCheckout(u, "pro", c, 0, PaymentResult("b", Pending));
    OtherPlanOtherKey(u, "basic", "pro", 0);
    hide IdemKey;
    operations := [Operate(first), Operate(second)];
    var e := Step(Step(EMPTY, first), second);
    assert AfterFailures(e, "b", u, 0);
    hide Step, AfterFailures;
    assert operations[1..] == [Operate(second)] && [Operate(second)][1..] == [];
    var p := Processor(EMPTY, {}, []);
    var p1 := TakeIn(p, Operate(first));
    assert TakeAll(p, operations) == TakeAll(p1, [Operate(second)]);
    assert TakeAll(p1, [Operate(second)]) == TakeAll(TakeIn(p1, Operate(second)), []) == Processor(e, {}, []);
  }

  lemma {:induction false} TakeConcat(p: Processor, xs: seq<Input>, ys: seq<Input>)
    requires WellFiled(p.engine)
    ensures TakeAll(p, xs + ys) == TakeAll(TakeAll(p, xs), ys)
    decreases |xs|
  {
    hide TakeIn;
    if xs == [] {
      assert xs + ys == ys;
    } else {
      assert (xs + ys)[1..] == xs[1..] + ys;
      TakeConcat(TakeIn(p, xs[0]), xs[1..], ys);
    }
  }

  /** From nothing: an active payer's one failure, reported twice without an event id, is counted twice. */
  lemma CountedTwiceReachable(u: string, c: Currency, now: nat) returns (operations: seq<Input>, d: Delivery)
    ensures |operations| == 2 && operations[0].Operate? && operations[1].Operate?
    ensures d.eventId == "" && Gate(d).None? && ReportsFailure(d, "b")
    ensures AfterFailures(TakeAll(Processor(EMPTY, {}, []), operations).engine, "b", u, 0)
    ensures AfterFailures(TakeAll(Processor(EMPTY, {}, []), operations + [Deliver(d), Deliver(d)]).engine, "b", u, 2)
  {
    hide AfterFailures, TakeAll;
    operations := ActiveAndPending(u, c);
    d := Delivery(0, None, now, true, "", Some(Event(PaymentFailed, "b", u, Failed)));
    TakeConcat(Processor(EMPTY, {}, []), operations, [Deliver(d), Deliver(d)]);
    UnnamedFailureTwice(TakeAll(Processor(EMPTY, {}, []), operations), d, "b", u, 0);
  }

  /** The operations and the acceptable deliveries. */
  function AcceptableOnly(xs: seq<Input>): seq<Input> {
    if xs == [] then []
    else (if xs[0].Deliver? && !Acceptable(xs[0].d) then [] else [xs[0]]) + AcceptableOnly(xs[1..])
  }

  /** Equal but for the log. */
  predicate SameButLog(p: Processor, q: Processor) {
    p.engine == q.engine && p.seen == q.seen
  }

  lemma TakeInIgnoresLog(p: Processor, q: Processor, x: Input)
    requires WellFiled(p.engine) && SameButLog(p, q)
    ensures SameButLog(TakeIn(p, x), TakeIn(q, x))
  {
    hide Dispatch, DecimalText, WellFiled, Step;
  }

  /**
   Forged, stale and oversized deliveries might as well not have come: without them any sequence
   of deliveries and operations leaves the engine and the seen ids the same.
   */
  lemma {:induction false} UnacceptableInvisible(p: Processor, q: Processor, xs: seq<Input>)
    requires WellFiled(p.engine) && SameButLog(p, q)
    ensures SameButLog(TakeAll(p, xs), TakeAll(q, AcceptableOnly(xs)))
    decreases |xs|
  {
    if xs != [] {
      hide TakeIn, WellFiled;
      var x, rest := xs[0], AcceptableOnly(xs[1..]);
      if x.Deliver? && !Acceptable(x.d) {
        assert TakeIn(p, x) == Receive(p, x.d).0 by { DeliveryIsReceived(p, x.d); }
        RefusedChangesNothing(p, x.d);
        UnacceptableInvisible(TakeIn(p, x), q, xs[1..]);
        assert AcceptableOnly(xs) == rest;
      } else {
        TakeInIgnoresLog(p, q, x);
        UnacceptableInvisible(TakeIn(p, x), TakeIn(q, x), xs[1..]);
        assert AcceptableOnly(xs) == [x] + rest && ([x] + rest)[1..] == rest;
      }
    }
  }

  lemma DeliveryIsReceived(p: Processor, d: Delivery)
    requires WellFiled(p.engine)
    ensures TakeIn(p, Deliver(d)) == Receive(p, d).0
  {
    hide Receive;
  }

  /** The operation that an event asks of the engine. */
  function Asked(event: Event, now: nat): Op {
    if event.kind == SubscriptionCancelled then DoCancel(event.userId, "provider_cancelled", now)
    else DoConfirm(event.invoiceId, event.outcome, now)
  }

  lemma DispatchIsStep(e: Engine, event: Event, now: nat)
    requires WellFiled(e)
    ensures Dispatch(e, event, now).0 in {e, Step(e, Asked(event, now))}
  {
    hide Confirm, Cancel, WellFiled;
  }

  /** Every engine invariant holds after any deliveries, valid, forged or replayed. */
  lemma DeliveryKeepsInv(p: Processor, d: Delivery)
    requires Inv(p.engine)
    ensures Inv(Receive(p, d).0.engine)
  {
    hide SubsOk, InvoicesOk, WellFiled, Step, Dispatch, DecimalText;
    if d.parsed.Some? {
      DispatchIsStep(p.engine, d.parsed.value, d.now);
      StepKeepsInv(p.engine, Asked(d.parsed.value, d.now));
    }
  }

  // ---------------------------------------------------------------- the processor itself

  class WebhookProcessor {
    const engine: BillingEngine
    var seenIds: set<string>
    var audit: seq<LogItem>

    ghost function Value(): Processor
      reads this, engine
    {
      Processor(engine.Value(), seenIds, audit)
    }

    constructor (engine: BillingEngine)
      ensures this.engine == engine && Value() == Processor(engine.Value(), {}, [])
    {
      this.engine := engine;
      seenIds, audit := {}, [];
    }

    method AuditEvent(action: string, eventId: string)
      modifies this`audit
      ensures audit == old(audit) + [LogItem(action, eventId)]
    {
      audit := audit + [LogItem(action, eventId)];
    }

    method DispatchEvent(event: Event, now: nat) returns (reply: Reply)
      requires WellFiled(engine.Value())
      modifies engine
      ensures (engine.Value(), reply) == Dispatch(old(engine.Value()), event, now)
    {
      match event.kind {
        case SubscriptionCancelled =>
          if event.userId == "" {
            return Ok;
          }
          reply := engine.CancelUser(event.userId, "provider_cancelled", now);
        case _ =>
          reply := engine.ConfirmFromWebhook(event.invoiceId, event.outcome, now);
      }
    }

    method Process(d: Delivery) returns (verdict: Verdict)
      requires WellFiled(engine.Value())
      modifies this, engine
      ensures WellFiled(engine.Value())
      ensures (Value(), verdict) == Receive(old(Value()), d)
      ensures !Acceptable(d) ==>
                && verdict in {TooLarge, StaleTimestamp, BadSignature}
                && engine.Value() == old(engine.Value()) && seenIds == old(seenIds)
    {
      hide Dispatch, DecimalText, WellFiled;
      if d.size > MAX_PAYLOAD_BYTES {
        AuditEvent("REJECTED_TOO_LARGE", d.eventId);
        return TooLarge;
      }
      if d.timestamp.Some? {
        var drift := Distance(d.now, d.timestamp.value);
        if drift > TIMESTAMP_TOLERANCE {
          AuditEvent("REJECTED_STALE_TS", d.eventId);
          return StaleTimestamp;
        }
      }
      if !d.signatureOk {
        AuditEvent("REJECTED_BAD_SIG", d.eventId);
        return BadSignature;
      }
      if d.eventId != "" && d.eventId in seenIds {
        AuditEvent("DUPLICATE_SKIPPED", d.eventId);
        return Duplicate;
      }
      if d.parsed.None? {
        return ParseError;
      }
      var event := d.parsed.value;
      var eventId := d.eventId;
      if eventId == "" {
        eventId := if event.invoiceId != "" then event.invoiceId else "evt_" + DecimalText(d.now);
      }
      if |seenIds| < NONCE_STORE_MAX {
        seenIds := seenIds + {eventId};
      }
      var reply := DispatchEvent(event, d.now);
      if reply == TransitionError {
        return Raised;
      }
      if reply == NotFound {
        AuditEvent("DISPATCH_KEY_ERROR", event.invoiceId);
      }
      AuditEvent("PROCESSED", eventId);
      return Processed;
    }
  }
}
