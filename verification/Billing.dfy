/**
 The billing engine of backend/billing/engine.py.

 `Engine` is the value of the engine's dictionaries at one moment and each operation is a
 function on it; the class `BillingEngine` updates the dictionaries in place and is proved
 against those functions.
 */
module Billing {
  import opened Options
  import opened IdempotencyKeys

  const DUNNING_THRESHOLD := 3

  datatype SubStatus = Trial | Active | PastDue | Suspended | Expired | Cancelled | Revoked
  datatype PaymentStatus = Pending | Succeeded | Failed | Refunded | Cancelled
  datatype Currency = Usd | Irr | Eur

  function SubFsm(s: SubStatus): set<SubStatus> {
    match s
    case Trial => {Active, Expired, SubStatus.Cancelled}
    case Active => {PastDue, Expired, SubStatus.Cancelled, Suspended}
    case PastDue => {Active, Suspended, Expired, SubStatus.Cancelled}
    case Suspended => {Active, Revoked, SubStatus.Cancelled}
    case Expired => {Active}
    case Cancelled => {Active}
    case Revoked => {}
  }

  datatype Plan = Plan(priceUsd: nat, priceIrr: nat, days: nat)

  const PLANS: map<string, Plan> := map[
    "trial" := Plan(0, 0, 14),
    "basic" := Plan(2900, 4_900_000, 30),
    "pro" := Plan(7900, 12_900_000, 30),
    "vip" := Plan(14900, 24_900_000, 30),
    "annual" := Plan(79900, 129_900_000, 365)
  ]

  datatype Move = Move(source: SubStatus, target: SubStatus, reason: string)

  datatype Subscription = Subscription(userId: string, planId: string, status: SubStatus, expiresAt: int,
                                       trialEndsAt: int, cancelledAt: Option<int>, dunning: nat,
                                       transitions: seq<Move>)

  datatype Invoice = Invoice(invoiceId: string, userId: string, planId: string, amount: nat, currency: Currency,
                             status: PaymentStatus, confirmedAt: Option<int>, idemKey: string)

  datatype AuditItem = AuditItem(event: string, userId: string)

  /** `activated` lists the invoices for which `_activate` ran, in order. */
  datatype Engine = Engine(invoices: map<string, Invoice>, subs: map<string, Subscription>,
                           idem: map<string, string>, audit: seq<AuditItem>, activated: seq<string>)

  const EMPTY := Engine(map[], map[], map[], [], [])

  datatype Reply = Ok | UnknownPlan | NotFound | TransitionError

  /** What the payment provider answers to a payment request. */
  datatype PaymentResult = PaymentResult(invoiceId: string, status: PaymentStatus)

  // ---------------------------------------------------------------- subscriptions

  /** Subscription.transition; None stands for the transition error. */
  function Transit(s: Subscription, target: SubStatus, reason: string): Option<Subscription> {
    if target in SubFsm(s.status)
    then Some(s.(status := target, transitions := s.transitions + [Move(s.status, target, reason)]))
    else None
  }

  /** The effect of a paid invoice on the payer's subscription, if there is one. */
  function Paid(old_: Option<Subscription>, invoice: Invoice, now: int): Subscription
    requires invoice.planId in PLANS
  {
    var until := now + PLANS[invoice.planId].days * 86400;
    match old_
    case None =>
      var trial := invoice.planId == "trial";
      Subscription(invoice.userId, invoice.planId, if trial then Trial else Active, until,
                   if trial then until else 0, None, 0, [])
    case Some(s) =>
      var moved := if s.status == Active || s.status == Revoked then s
                   else Transit(s, Active, "payment_confirmed").value;
      moved.(planId := invoice.planId, expiresAt := until, dunning := 0)
  }

  /** The effect of a failed payment on a subscription. */
  function Unpaid(s: Subscription): Subscription {
    var counted := s.(dunning := s.dunning + 1);
    if s.status == Active then Transit(counted, PastDue, "payment_failed").value
    else if s.status == PastDue && counted.dunning >= DUNNING_THRESHOLD
    then Transit(counted, Suspended, "dunning_threshold_reached").value
    else counted
  }

  /** The effect of a refund on a subscription. */
  function RefundedTo(s: Subscription): Subscription {
    if s.status == Active then Transit(s, Suspended, "refund_issued").value else s
  }

  function FindSub(e: Engine, userId: string): Option<Subscription> {
    if userId in e.subs then Some(e.subs[userId]) else None
  }

  // ---------------------------------------------------------------- operations

  function Log(e: Engine, event: string, userId: string): Engine {
    e.(audit := e.audit + [AuditItem(event, userId)])
  }

  function Activate(e: Engine, invoice: Invoice, now: int): Engine
    requires invoice.planId in PLANS
  {
    e.(subs := e.subs[invoice.userId := Paid(FindSub(e, invoice.userId), invoice, now)],
       activated := e.activated + [invoice.invoiceId])
  }

  /** The invoice that an earlier call with the same key created. */
  function Existing(e: Engine, key: string): Option<string> {
    if key in e.idem && e.idem[key] in e.invoices then Some(e.idem[key]) else None
  }

  function NewInvoice(userId: string, planId: string, currency: Currency, now: nat, result: PaymentResult): Invoice
    requires planId in PLANS
  {
    Invoice(result.invoiceId, userId, planId,
            if currency == Irr then PLANS[planId].priceIrr else PLANS[planId].priceUsd,
            currency, result.status, None, IdemKey(userId, planId, now))
  }

  /** `result` is what the provider answers if it is asked for a new payment. */
  function Checkout(e: Engine, userId: string, planId: string, currency: Currency, now: nat, result: PaymentResult)
    : (Engine, Reply)
  {
    if planId !in PLANS then (e, UnknownPlan)
    else if Existing(e, IdemKey(userId, planId, now)).Some? then (e, Ok)
    else
      var invoice := NewInvoice(userId, planId, currency, now, result);
      var filed := Log(e.(invoices := e.invoices[invoice.invoiceId := invoice],
                          idem := e.idem[invoice.idemKey := invoice.invoiceId]), "CHECKOUT_CREATED", userId);
      (if result.status == Succeeded then Activate(filed, invoice, now) else filed, Ok)
  }

  predicate WellFiled(e: Engine) {
    forall id | id in e.invoices :: e.invoices[id].planId in PLANS
  }

  /** `outcome` is the status the provider reports when it is asked to confirm. */
  function Confirm(e: Engine, id: string, outcome: PaymentStatus, now: int): (Engine, Reply)
    requires WellFiled(e)
  {
    if id !in e.invoices then (e, NotFound)
    else if e.invoices[id].status == Succeeded then (e, Ok)
    else
      var user := e.invoices[id].userId;
      var invoice := e.invoices[id].(status := outcome,
                                     confirmedAt := if outcome == Succeeded then Some(now)
                                                    else e.invoices[id].confirmedAt);
      var settled := e.(invoices := e.invoices[id := invoice]);
      if outcome == Succeeded then (Log(Activate(settled, invoice, now), "PAYMENT_CONFIRMED", user), Ok)
      else if outcome == Failed && user in e.subs then
        (Log(settled.(subs := e.subs[user := Unpaid(e.subs[user])]), "PAYMENT_FAILED", user), Ok)
      else if outcome == Refunded && user in e.subs then
        (Log(settled.(subs := e.subs[user := RefundedTo(e.subs[user])]), "PAYMENT_REFUNDED", user), Ok)
      else (settled, Ok)
  }

  function AdminConfirm(e: Engine, id: string, now: int): (Engine, Reply)
    requires WellFiled(e)
  {
    if id !in e.invoices then (e, NotFound)
    else if e.invoices[id].status == Succeeded then (e, Ok)
    else
      var invoice := e.invoices[id].(status := Succeeded, confirmedAt := Some(now));
      (Log(Activate(e.(invoices := e.invoices[id := invoice]), invoice, now), "ADMIN_CONFIRMED", invoice.userId), Ok)
  }

  function Suspend(e: Engine, userId: string, reason: string): (Engine, Reply) {
    if userId !in e.subs then (e, NotFound)
    else match Transit(e.subs[userId], Suspended, reason)
         case None => (e, TransitionError)
         case Some(s) => (Log(e.(subs := e.subs[userId := s]), "SUBSCRIPTION_SUSPENDED", userId), Ok)
  }

  function RevokeSub(e: Engine, userId: string, reason: string): (Engine, Reply) {
    if userId !in e.subs then (e, NotFound)
    else
      var s := e.subs[userId];
      var pre := if s.status != Suspended && Suspended in SubFsm(s.status)
                 then Transit(s, Suspended, "pre-revoke").value else s;
      match Transit(pre, Revoked, reason)
      case None => (e.(subs := e.subs[userId := pre]), TransitionError)
      case Some(revoked) => (Log(e.(subs := e.subs[userId := revoked]), "SUBSCRIPTION_REVOKED", userId), Ok)
  }

  function Cancel(e: Engine, userId: string, reason: string, now: int): (Engine, Reply) {
    if userId !in e.subs then (e, NotFound)
    else match Transit(e.subs[userId], SubStatus.Cancelled, reason)
         case None => (e, TransitionError)
         case Some(s) =>
           (Log(e.(subs := e.subs[userId := s.(cancelledAt := Some(now))]), "SUBSCRIPTION_CANCELLED", userId), Ok)
  }

  // ---------------------------------------------------------------- invariants

  /** The recorded transitions lead from TRIAL or ACTIVE to the current status along the state machine. */
  predicate PathOk(s: Subscription) {
    var moves := s.transitions;
    && (if moves == [] then s.status else moves[0].source) in {Trial, Active}
    && (moves != [] ==> moves[|moves| - 1].target == s.status)
    && (forall i | 0 <= i < |moves| :: moves[i].target in SubFsm(moves[i].source))
    && (forall i | 0 < i < |moves| :: moves[i].source == moves[i - 1].target)
  }

  predicate DunningOk(s: Subscription) {
    && (s.status == Active ==> s.dunning == 0)
    && (s.status == PastDue ==> 1 <= s.dunning < DUNNING_THRESHOLD)
  }

  predicate SubOk(s: Subscription) {
    DunningOk(s) && PathOk(s) && s.status != Expired
  }

  predicate SubsOk(e: Engine) {
    forall u | u in e.subs :: e.subs[u].userId == u && SubOk(e.subs[u])
  }

  /** The idempotency map is a bijection between the keys in use and the invoices. */
  predicate Bijective(e: Engine) {
    && (forall k | k in e.idem :: e.idem[k] in e.invoices && e.invoices[e.idem[k]].idemKey == k)
    && (forall id | id in e.invoices ::
          e.invoices[id].idemKey in e.idem && e.idem[e.invoices[id].idemKey] == id)
  }

  ghost predicate KeysTrue(e: Engine) {
    forall id | id in e.invoices ::
      e.invoices[id].invoiceId == id && KeyNames(e.invoices[id].idemKey, e.invoices[id].userId, e.invoices[id].planId)
  }

  /** The key was built for this user and plan, in some hour. */
  ghost predicate KeyNames(key: string, userId: string, planId: string) {
    exists now: nat :: key == IdemKey(userId, planId, now)
  }

  /** An invoice was activated once if it has succeeded and never otherwise. */
  ghost predicate OnceEach(e: Engine) {
    forall id :: multiset(e.activated)[id] == if id in e.invoices && e.invoices[id].status == Succeeded then 1 else 0
  }

  ghost predicate InvoicesOk(e: Engine) {
    Bijective(e) && KeysTrue(e) && OnceEach(e)
  }

  ghost predicate Inv(e: Engine) {
    WellFiled(e) && SubsOk(e) && InvoicesOk(e)
  }

  // ---------------------------------------------------------------- runs

  datatype Op =
    | DoCheckout(userId: string, planId: string, currency: Currency, now: nat, result: PaymentResult)
    | DoConfirm(id: string, outcome: PaymentStatus, at: int)
    | DoAdminConfirm(id: string, at: int)
    | DoSuspend(userId: string, reason: string)
    | DoRevoke(userId: string, reason: string)
    | DoCancel(userId: string, reason: string, at: int)

  function Step(e: Engine, op: Op): (r: Engine)
    requires WellFiled(e)
    ensures WellFiled(r)
  {
    match op
    case DoCheckout(u, p, c, now, result) => Checkout(e, u, p, c, now, result).0
    case DoConfirm(id, outcome, at) => Confirm(e, id, outcome, at).0
    case DoAdminConfirm(id, at) => AdminConfirm(e, id, at).0
    case DoSuspend(u, reason) => Suspend(e, u, reason).0
    case DoRevoke(u, reason) => RevokeSub(e, u, reason).0
    case DoCancel(u, reason, at) => Cancel(e, u, reason, at).0
  }

  function Run(e: Engine, ops: seq<Op>): (r: Engine)
    requires WellFiled(e)
    ensures WellFiled(r)
    decreases |ops|
  {
    if ops == [] then e else Run(Step(e, ops[0]), ops[1..])
  }

  /** The provider never hands out an invoice id that is already in use. */
  predicate FreshStep(e: Engine, op: Op) {
    op.DoCheckout? && op.planId in PLANS && Existing(e, IdemKey(op.userId, op.planId, op.now)).None?
    ==> op.result.invoiceId !in e.invoices
  }

  predicate FreshRun(e: Engine, ops: seq<Op>)
    requires WellFiled(e)
    decreases |ops|
  {
    ops == [] || (FreshStep(e, ops[0]) && FreshRun(Step(e, ops[0]), ops[1..]))
  }

  // ---------------------------------------------------------------- one subscription

  /** A transition keeps the recorded path a path of the state machine. */
  lemma TransitKeepsPath(s: Subscription, target: SubStatus, reason: string)
    requires PathOk(s) && target in SubFsm(s.status)
    ensures PathOk(Transit(s, target, reason).value)
  {
  }

  lemma PaidOk(s: Option<Subscription>, invoice: Invoice, now: int)
    requires invoice.planId in PLANS && (s.Some? ==> SubOk(s.value))
    ensures SubOk(Paid(s, invoice, now))
  {
    if s.Some? && Active in SubFsm(s.value.status) {
      TransitKeepsPath(s.value, Active, "payment_confirmed");
    }
  }

  lemma UnpaidOk(s: Subscription)
    requires SubOk(s)
    ensures SubOk(Unpaid(s))
  {
    var counted := s.(dunning := s.dunning + 1);
    if s.status == Active {
      TransitKeepsPath(counted, PastDue, "payment_failed");
    } else if s.status == PastDue {
      TransitKeepsPath(counted, Suspended, "dunning_threshold_reached");
    }
  }

  lemma RefundedOk(s: Subscription)
    requires SubOk(s)
    ensures SubOk(RefundedTo(s))
  {
    if s.status == Active {
      TransitKeepsPath(s, Suspended, "refund_issued");
    }
  }

  /** Transitions other than to ACTIVE, PAST_DUE and EXPIRED need no bookkeeping of failures. */
  lemma TransitOk(s: Subscription, target: SubStatus, reason: string)
    requires SubOk(s) && target in SubFsm(s.status) && target in {Suspended, Revoked, SubStatus.Cancelled}
    ensures SubOk(Transit(s, target, reason).value)
  {
    TransitKeepsPath(s, target, reason);
  }

  // ---------------------------------------------------------------- the invariant over runs

  /** Replacing one user's subscription by a good one keeps all of them good. */
  lemma ReplaceSub(e: Engine, r: Engine, u: string, s: Subscription)
    requires SubsOk(e) && r.subs == e.subs[u := s] && s.userId == u && SubOk(s)
    ensures SubsOk(r)
  {
  }

  lemma PaymentKeepsSubs(e: Engine, r: Engine, invoice: Invoice, now: int)
    requires invoice.planId in PLANS && SubsOk(e)
    requires r.subs == e.subs[invoice.userId := Paid(FindSub(e, invoice.userId), invoice, now)]
    ensures SubsOk(r)
  {
    var s := FindSub(e, invoice.userId);
    PaidOk(s, invoice, now);
    assert Paid(s, invoice, now).userId == invoice.userId;
    ReplaceSub(e, r, invoice.userId, Paid(s, invoice, now));
  }

  lemma ConfirmKeepsSubs(e: Engine, id: string, outcome: PaymentStatus, at: int)
    requires WellFiled(e) && SubsOk(e)
    ensures SubsOk(Confirm(e, id, outcome, at).0)
  {
    var r := Confirm(e, id, outcome, at).0;
    if id in e.invoices && e.invoices[id].status != Succeeded {
      hide SubsOk;
      var u := e.invoices[id].userId;
      if outcome == Succeeded {
        PaymentKeepsSubs(e, r, e.invoices[id].(status := Succeeded, confirmedAt := Some(at)), at);
      } else if outcome in {Failed, PaymentStatus.Refunded} && u in e.subs {
        assert SubOk(e.subs[u]) && e.subs[u].userId == u by { UserOk(e, u); }
        UnpaidOk(e.subs[u]);
        RefundedOk(e.subs[u]);
        ReplaceSub(e, r, u, if outcome == Failed then Unpaid(e.subs[u]) else RefundedTo(e.subs[u]));
      } else {
        ReplaceNone(e, r);
      }
    }
  }

  lemma UserOk(e: Engine, u: string)
    requires SubsOk(e) && u in e.subs
    ensures e.subs[u].userId == u && SubOk(e.subs[u])
  {
  }

  lemma ReplaceNone(e: Engine, r: Engine)
    requires SubsOk(e) && r.subs == e.subs
    ensures SubsOk(r)
  {
  }

  lemma SuspendKeepsSubs(e: Engine, u: string, reason: string)
    requires SubsOk(e)
    ensures SubsOk(Suspend(e, u, reason).0)
  {
    if u in e.subs && Suspended in SubFsm(e.subs[u].status) {
      TransitOk(e.subs[u], Suspended, reason);
    }
  }

  lemma CancelKeepsSubs(e: Engine, u: string, reason: string, at: int)
    requires SubsOk(e)
    ensures SubsOk(Cancel(e, u, reason, at).0)
  {
    if u in e.subs && SubStatus.Cancelled in SubFsm(e.subs[u].status) {
      TransitOk(e.subs[u], SubStatus.Cancelled, reason);
      CancelledAtFree(Transit(e.subs[u], SubStatus.Cancelled, reason).value, at);
    }
  }

  lemma RevokeKeepsSubs(e: Engine, u: string, reason: string)
    requires SubsOk(e)
    ensures SubsOk(RevokeSub(e, u, reason).0)
  {
    if u in e.subs {
      UserOk(e, u);
      RevokeAllOrNothing(e, u, reason);
      var s := e.subs[u];
      if s.status in {Active, PastDue} {
        TransitOk(s, Suspended, "pre-revoke");
        TransitOk(Transit(s, Suspended, "pre-revoke").value, Revoked, reason);
        ReplaceSub(e, RevokeSub(e, u, reason).0, u, RevokeSub(e, u, reason).0.subs[u]);
      } else if s.status == Suspended {
        TransitOk(s, Revoked, reason);
        ReplaceSub(e, RevokeSub(e, u, reason).0, u, RevokeSub(e, u, reason).0.subs[u]);
      }
    }
  }

  lemma CancelledAtFree(s: Subscription, at: int)
    requires SubOk(s)
    ensures SubOk(s.(cancelledAt := Some(at)))
  {
  }

  /** Dunning, the state machine and the absence of EXPIRED survive every operation. */
  lemma StepKeepsSubs(e: Engine, op: Op)
    requires WellFiled(e) && SubsOk(e)
    ensures SubsOk(Step(e, op))
  {
    hide SubsOk;
    match op
    case DoCheckout(u, p, c, now, result) =>
      if p in PLANS && Existing(e, IdemKey(u, p, now)).None? && result.status == Succeeded {
        PaymentKeepsSubs(e, Step(e, op), NewInvoice(u, p, c, now, result), now);
      } else {
        ReplaceNone(e, Step(e, op));
      }
    case DoConfirm(id, outcome, at) => ConfirmKeepsSubs(e, id, outcome, at);
    case DoAdminConfirm(id, at) =>
      ConfirmKeepsSubs(e, id, Succeeded, at);
      ReplaceNone(Confirm(e, id, Succeeded, at).0, Step(e, op));
    case DoSuspend(u, reason) => SuspendKeepsSubs(e, u, reason);
    case DoRevoke(u, reason) => RevokeKeepsSubs(e, u, reason);
    case DoCancel(u, reason, at) => CancelKeepsSubs(e, u, reason, at);
  }

  /**
   Over every run: ACTIVE means no failure is counted, PAST_DUE means one or two are, no
   subscription is EXPIRED, and the recorded transitions are a path of the state machine.
   */
  lemma {:induction false} FsmOverRuns(e: Engine, ops: seq<Op>)
    requires WellFiled(e) && SubsOk(e)
    ensures SubsOk(Run(e, ops))
    decreases |ops|
  {
    if ops != [] {
      StepKeepsSubs(e, ops[0]);
      FsmOverRuns(Step(e, ops[0]), ops[1..]);
    }
  }

  /** Filing a new invoice under a new key keeps the pairing of keys and invoices. */
  lemma FilingKeepsPairs(e: Engine, r: Engine, invoice: Invoice)
    requires Bijective(e) && KeysTrue(e) && invoice.invoiceId !in e.invoices && invoice.idemKey !in e.idem
    requires KeyNames(invoice.idemKey, invoice.userId, invoice.planId)
    requires r.invoices == e.invoices[invoice.invoiceId := invoice]
    requires r.idem == e.idem[invoice.idemKey := invoice.invoiceId]
    ensures Bijective(r) && KeysTrue(r)
  {
  }

  /** Changing the status of an invoice keeps it. */
  lemma SettlingKeepsPairs(e: Engine, r: Engine, id: string, invoice: Invoice)
    requires Bijective(e) && KeysTrue(e) && id in e.invoices && r.idem == e.idem
    requires r.invoices == e.invoices[id := invoice]
    requires invoice == e.invoices[id].(status := invoice.status, confirmedAt := invoice.confirmedAt)
    ensures Bijective(r) && KeysTrue(r)
  {
  }

  /** An invoice that succeeds now, and had not before, is activated now. */
  lemma ActivatesOnce(e: Engine, r: Engine, id: string)
    requires OnceEach(e) && (id in e.invoices ==> e.invoices[id].status != Succeeded)
    requires id in r.invoices && r.invoices.Keys == e.invoices.Keys + {id}
    requires forall other | other in e.invoices && other != id :: r.invoices[other] == e.invoices[other]
    requires r.activated == if r.invoices[id].status == Succeeded then e.activated + [id] else e.activated
    ensures OnceEach(r)
  {
  }

  lemma NewKey(e: Engine, u: string, p: string, now: nat)
    requires InvoicesOk(e) && Existing(e, IdemKey(u, p, now)).None?
    ensures IdemKey(u, p, now) !in e.idem && KeyNames(IdemKey(u, p, now), u, p)
  {
  }

  lemma FilingKeepsInvoices(e: Engine, r: Engine, invoice: Invoice)
    requires InvoicesOk(e) && invoice.invoiceId !in e.invoices && invoice.idemKey !in e.idem
    requires KeyNames(invoice.idemKey, invoice.userId, invoice.planId)
    requires r.invoices == e.invoices[invoice.invoiceId := invoice]
    requires r.idem == e.idem[invoice.idemKey := invoice.invoiceId]
    requires r.activated == if invoice.status == Succeeded then e.activated + [invoice.invoiceId] else e.activated
    ensures InvoicesOk(r)
  {
    hide Bijective, KeysTrue, OnceEach, KeyNames;
    FilingKeepsPairs(e, r, invoice);
    ActivatesOnce(e, r, invoice.invoiceId);
  }

  lemma CheckoutKeepsInvoices(e: Engine, u: string, p: string, c: Currency, now: nat, result: PaymentResult)
    requires WellFiled(e) && InvoicesOk(e) && FreshStep(e, DoCheckout(u, p, c, now, result))
    ensures InvoicesOk(Checkout(e, u, p, c, now, result).0)
  {
    hide InvoicesOk, IdemKey, Paid;
    if p in PLANS && Existing(e, IdemKey(u, p, now)).None? {
      NewKey(e, u, p, now);
      var invoice := NewInvoice(u, p, c, now, result);
      var r := Checkout(e, u, p, c, now, result).0;
      FilingKeepsInvoices(e, r, invoice);
    }
  }

  lemma SettleKeepsInvoices(e: Engine, r: Engine, id: string)
    requires WellFiled(e) && InvoicesOk(e) && id in e.invoices && e.invoices[id].status != Succeeded
    requires id in r.invoices && r.idem == e.idem && r.invoices == e.invoices[id := r.invoices[id]]
    requires r.invoices[id] == e.invoices[id].(status := r.invoices[id].status,
                                               confirmedAt := r.invoices[id].confirmedAt)
    requires r.activated == if r.invoices[id].status == Succeeded then e.activated + [id] else e.activated
    ensures InvoicesOk(r)
  {
    hide Bijective, KeysTrue, OnceEach;
    SettlingKeepsPairs(e, r, id, r.invoices[id]);
    ActivatesOnce(e, r, id);
  }

  lemma ConfirmKeepsInvoices(e: Engine, id: string, outcome: PaymentStatus, at: int)
    requires WellFiled(e) && InvoicesOk(e)
    ensures InvoicesOk(Confirm(e, id, outcome, at).0)
    ensures InvoicesOk(AdminConfirm(e, id, at).0)
  {
    if id in e.invoices && e.invoices[id].status != Succeeded {
      assert e.invoices[id].invoiceId == id;
      hide InvoicesOk, Paid, Unpaid, RefundedTo;
      SettleKeepsInvoices(e, Confirm(e, id, outcome, at).0, id);
      SettleKeepsInvoices(e, AdminConfirm(e, id, at).0, id);
    }
  }

  lemma OthersKeepInvoices(e: Engine, op: Op)
    requires op.DoSuspend? || op.DoRevoke? || op.DoCancel?
    requires WellFiled(e)
    ensures Step(e, op).invoices == e.invoices && Step(e, op).idem == e.idem && Step(e, op).activated == e.activated
  {
  }

  lemma SameInvoices(e: Engine, r: Engine)
    requires InvoicesOk(e) && r.invoices == e.invoices && r.idem == e.idem && r.activated == e.activated
    ensures InvoicesOk(r)
  {
  }

  lemma StepKeepsInv(e: Engine, op: Op)
    requires Inv(e) && FreshStep(e, op)
    ensures Inv(Step(e, op))
  {
    hide SubsOk, InvoicesOk;
    StepKeepsSubs(e, op);
    match op
    case DoCheckout(u, p, c, now, result) => CheckoutKeepsInvoices(e, u, p, c, now, result);
    case DoConfirm(id, outcome, at) => ConfirmKeepsInvoices(e, id, outcome, at);
    case DoAdminConfirm(id, at) => ConfirmKeepsInvoices(e, id, Succeeded, at);
    case _ =>
      OthersKeepInvoices(e, op);
      SameInvoices(e, Step(e, op));
  }

  /** Over every run in which the provider repeats no invoice id, the whole invariant holds. */
  lemma {:induction false} InvOverRuns(e: Engine, ops: seq<Op>)
    requires Inv(e) && FreshRun(e, ops)
    ensures Inv(Run(e, ops))
    decreases |ops|
  {
    if ops != [] {
      StepKeepsInv(e, ops[0]);
      hide Inv, Step;
      InvOverRuns(Step(e, ops[0]), ops[1..]);
    }
  }

  lemma PlansHaveNoColon(p: string)
    requires p in PLANS
    ensures ':' !in p
  {
  }

  /** One invoice per user, plan and hour. */
  lemma OneInvoicePerHour(e: Engine, id: string, other: string, u: string, p: string, now: nat, later: nat)
    requires Inv(e)
    requires id in e.invoices && other in e.invoices && p in PLANS
    requires e.invoices[id].idemKey == IdemKey(u, p, now) && e.invoices[other].idemKey == IdemKey(u, p, later)
    requires now / 3600 == later / 3600
    ensures id == other
    ensures e.invoices[id].userId == u && e.invoices[id].planId == p
  {
    var invoice := e.invoices[id];
    var t: nat :| invoice.idemKey == IdemKey(invoice.userId, invoice.planId, t);
    PlansHaveNoColon(p);
    PlansHaveNoColon(invoice.planId);
    IdemKeyInjective(invoice.userId, invoice.planId, t, u, p, now);
  }

  /** A second checkout for the same user, plan and hour changes nothing, whoever pays in between. */
  lemma {:induction false} CheckoutIdempotent(e: Engine, u: string, p: string, c: Currency, now: nat,
                                              first: PaymentResult, ops: seq<Op>, later: nat,
                                              c': Currency, second: PaymentResult)
    requires Inv(e) && p in PLANS && now / 3600 == later / 3600
    requires FreshRun(e, [DoCheckout(u, p, c, now, first)] + ops)
    ensures var mid := Run(e, [DoCheckout(u, p, c, now, first)] + ops);
            Checkout(mid, u, p, c', later, second) == (mid, Ok)
  {
    var op := DoCheckout(u, p, c, now, first);
    assert ([op] + ops)[1..] == ops;
    StepKeepsInv(e, op);
    KeyStays(Step(e, op), ops, IdemKey(u, p, now));
  }

  lemma KeyStep(e: Engine, op: Op, key: string)
    requires WellFiled(e) && key in e.idem
    ensures key in Step(e, op).idem
  {
  }

  lemma {:induction false} KeyStays(e: Engine, ops: seq<Op>, key: string)
    requires Inv(e) && FreshRun(e, ops) && key in e.idem
    ensures Inv(Run(e, ops)) && key in Run(e, ops).idem
    decreases |ops|
  {
    if ops != [] {
      StepKeepsInv(e, ops[0]);
      KeyStep(e, ops[0], key);
      hide Step, Inv;
      KeyStays(Step(e, ops[0]), ops[1..], key);
    }
  }

  lemma RevokedMoves(s: Subscription)
    requires s.status == Revoked
    ensures forall target, reason :: Transit(s, target, reason).None?
    ensures Unpaid(s).status == Revoked && Unpaid(s).transitions == s.transitions && RefundedTo(s) == s
    ensures forall invoice: Invoice, now | invoice.planId in PLANS ::
              Paid(Some(s), invoice, now).status == Revoked && Paid(Some(s), invoice, now).transitions == s.transitions
  {
  }

  lemma RevokedStep(e: Engine, op: Op, u: string)
    requires WellFiled(e) && u in e.subs && e.subs[u].status == Revoked
    ensures u in Step(e, op).subs && Step(e, op).subs[u].status == Revoked
    ensures Step(e, op).subs[u].transitions == e.subs[u].transitions
  {
    RevokedMoves(e.subs[u]);
    hide WellFiled, Existing, IdemKey, Paid, Unpaid, RefundedTo, Transit, SubFsm;
    if op.DoRevoke? && op.userId in e.subs {
      RevokeAllOrNothing(e, op.userId, op.reason);
      hide RevokeSub;
    }
  }

  /** REVOKED is absorbing for subscriptions, whatever is paid, refunded or cancelled later. */
  lemma {:induction false} RevokedAbsorbing(e: Engine, ops: seq<Op>, u: string)
    requires WellFiled(e) && u in e.subs && e.subs[u].status == Revoked
    ensures u in Run(e, ops).subs && Run(e, ops).subs[u].status == Revoked
    ensures Run(e, ops).subs[u].transitions == e.subs[u].transitions
    decreases |ops|
  {
    if ops != [] {
      RevokedStep(e, ops[0], u);
      hide Step;
      RevokedAbsorbing(Step(e, ops[0]), ops[1..], u);
    }
  }

  /** Revocation either ends in REVOKED or changes nothing, and says which from the status alone. */
  lemma RevokeAllOrNothing(e: Engine, u: string, reason: string)
    requires u in e.subs
    ensures var (r, reply) := RevokeSub(e, u, reason);
            if e.subs[u].status in {Active, PastDue, Suspended}
            then reply == Ok && r.subs[u].status == Revoked
                 && r.subs == e.subs[u := r.subs[u]] && r.invoices == e.invoices
            else reply == TransitionError && r == e
  {
    assert e.subs[u := e.subs[u]] == e.subs;
  }

  /** `k` failure reports for an unpaid invoice, one after the other. */
  function FailTimes(e: Engine, id: string, k: nat, now: int): (r: Engine)
    requires WellFiled(e)
    ensures WellFiled(r)
  {
    if k == 0 then e else Confirm(FailTimes(e, id, k - 1, now), id, Failed, now).0
  }

  /** The subscriber `u` of the unpaid invoice `id` stands after `k` failures in a row. */
  predicate AfterFailures(e: Engine, id: string, u: string, k: nat) {
    && id in e.invoices && e.invoices[id].userId == u && e.invoices[id].status != Succeeded
    && u in e.subs && e.subs[u].dunning == k
    && e.subs[u].status == if k == 0 then Active else if k < DUNNING_THRESHOLD then PastDue else Suspended
  }

  lemma FailOnce(e: Engine, id: string, u: string, k: nat, now: int)
    requires WellFiled(e) && AfterFailures(e, id, u, k)
    ensures AfterFailures(Confirm(e, id, Failed, now).0, id, u, k + 1)
  {
    var r := Confirm(e, id, Failed, now).0;
    assert r.invoices == e.invoices[id := e.invoices[id].(status := Failed)];
    assert r.subs == e.subs[u := Unpaid(e.subs[u])];
  }

  /** From ACTIVE, one or two failures in a row give PAST_DUE and three or more SUSPENDED. */
  lemma {:induction false} ConsecutiveFailures(e: Engine, id: string, u: string, k: nat, now: int)
    requires WellFiled(e) && SubsOk(e) && id in e.invoices && e.invoices[id].status != Succeeded
    requires e.invoices[id].userId == u && u in e.subs && e.subs[u].status == Active
    ensures AfterFailures(FailTimes(e, id, k, now), id, u, k)
  {
    if k > 0 {
      hide AfterFailures, Confirm, SubsOk;
      ConsecutiveFailures(e, id, u, k - 1, now);
      FailOnce(FailTimes(e, id, k - 1, now), id, u, k - 1, now);
    }
  }

  /**
   A reported refund suspends the payer exactly when the invoice has not succeeded yet and the
   payer is active: the refund of a paid invoice is ignored.
   */
  lemma RefundSuspendsIff(e: Engine, id: string, at: int)
    requires WellFiled(e) && id in e.invoices && e.invoices[id].userId in e.subs
    requires e.subs[e.invoices[id].userId].status != Suspended
    ensures var u := e.invoices[id].userId;
            Confirm(e, id, Refunded, at).0.subs[u].status == Suspended
            <==> e.invoices[id].status != Succeeded && e.subs[u].status == Active
  {
  }

  // ---------------------------------------------------------------- repeated invoice ids

  /** An operation keeps the invariant exactly when the provider does not repeat an id in it. */
  lemma KeepsInvIffFresh(e: Engine, op: Op)
    requires Inv(e)
    ensures Inv(Step(e, op)) <==> FreshStep(e, op)
  {
    if FreshStep(e, op) {
      StepKeepsInv(e, op);
    } else {
      ReuseBreaksPairs(e, op);
    }
  }

  /** The overwritten invoice leaves its key behind, which then names an invoice filed under another key. */
  lemma ReuseBreaksPairs(e: Engine, op: Op)
    requires Inv(e) && !FreshStep(e, op)
    ensures !Bijective(Step(e, op))
  {
    var r := Step(e, op);
    var id := op.result.invoiceId;
    var old_, new_ := e.invoices[id].idemKey, IdemKey(op.userId, op.planId, op.now);
    NewKey(e, op.userId, op.planId, op.now);
    hide SubsOk, KeysTrue, OnceEach, IdemKey, Paid;
    assert old_ in e.idem && old_ != new_;
    assert r.invoices[id].idemKey == new_ && r.idem[old_] == id;
  }

  /** The invariant holds now and after every operation of the run. */
  ghost predicate InvThroughout(e: Engine, ops: seq<Op>)
    requires WellFiled(e)
    decreases |ops|
  {
    Inv(e) && (ops == [] || InvThroughout(Step(e, ops[0]), ops[1..]))
  }

  /** A run keeps the invariant throughout exactly when the provider repeats no id in it. */
  lemma {:induction false} FreshIffInvThroughout(e: Engine, ops: seq<Op>)
    requires Inv(e)
    ensures FreshRun(e, ops) <==> InvThroughout(e, ops)
    decreases |ops|
  {
    if ops != [] {
      KeepsInvIffFresh(e, ops[0]);
      hide Inv, Step, FreshStep;
      if FreshStep(e, ops[0]) {
        FreshIffInvThroughout(Step(e, ops[0]), ops[1..]);
      } else {
        assert !Inv(Step(e, ops[0]));
      }
    }
  }

  // ---------------------------------------------------------------- activation at most once

  predicate PaidAlready(e: Engine, id: string) {
    id in e.invoices && e.invoices[id].status == Succeeded
  }

  /** The operation is not a checkout that files a new invoice under the id of a paid one. */
  predicate SafeStep(e: Engine, op: Op) {
    op.DoCheckout? && op.planId in PLANS && Existing(e, IdemKey(op.userId, op.planId, op.now)).None?
    ==> !PaidAlready(e, op.result.invoiceId)
  }

  predicate SafeRun(e: Engine, ops: seq<Op>)
    requires WellFiled(e)
    decreases |ops|
  {
    ops == [] || (SafeStep(e, ops[0]) && SafeRun(Step(e, ops[0]), ops[1..]))
  }

  predicate OwnIds(e: Engine) {
    forall id | id in e.invoices :: e.invoices[id].invoiceId == id
  }

  lemma StepKeepsIds(e: Engine, op: Op)
    requires WellFiled(e) && OwnIds(e)
    ensures OwnIds(Step(e, op))
  {
    hide WellFiled, IdemKey, Paid;
  }

  /** What a checkout that files a new invoice does to invoices and activations. */
  lemma Filed(e: Engine, op: Op)
    requires WellFiled(e) && op.DoCheckout? && op.planId in PLANS
    requires Existing(e, IdemKey(op.userId, op.planId, op.now)).None?
    ensures var r, id := Step(e, op), op.result.invoiceId;
            && r.invoices == e.invoices[id := NewInvoice(op.userId, op.planId, op.currency, op.now, op.result)]
            && r.activated == if op.result.status == Succeeded then e.activated + [id] else e.activated
  {
    hide WellFiled, IdemKey, Paid;
  }

  /** What a confirmation of an unpaid invoice does to invoices and activations. */
  lemma Settled(e: Engine, op: Op)
    requires WellFiled(e) && OwnIds(e) && (op.DoConfirm? || op.DoAdminConfirm?)
    requires op.id in e.invoices && e.invoices[op.id].status != Succeeded
    ensures var r := Step(e, op);
            && op.id in r.invoices && r.invoices == e.invoices[op.id := r.invoices[op.id]]
            && r.activated == if r.invoices[op.id].status == Succeeded then e.activated + [op.id] else e.activated
  {
    hide WellFiled, IdemKey, Paid, Unpaid, RefundedTo;
  }

  /** Overwriting a paid invoice loses the success that accounts for its activation. */
  lemma OverwritingMiscounts(e: Engine, r: Engine, id: string)
    requires OnceEach(e) && PaidAlready(e, id) && id in r.invoices
    requires r.activated == if r.invoices[id].status == Succeeded then e.activated + [id] else e.activated
    ensures !OnceEach(r)
  {
    assert multiset(e.activated)[id] == 1;
    assert multiset(r.activated)[id] == if r.invoices[id].status == Succeeded then 2 else 1;
  }

  /** A confirmation of a missing or paid invoice and a checkout that files nothing do nothing. */
  lemma Idle(e: Engine, op: Op)
    requires WellFiled(e)
    requires match op
             case DoCheckout(u, p, _, now, _) => p !in PLANS || Existing(e, IdemKey(u, p, now)).Some?
             case DoConfirm(id, _, _) => id !in e.invoices || e.invoices[id].status == Succeeded
             case DoAdminConfirm(id, _) => id !in e.invoices || e.invoices[id].status == Succeeded
             case _ => false
    ensures Step(e, op) == e
  {
    hide WellFiled, IdemKey;
  }

  /**
   An operation keeps activations and successes in step exactly when it does not file a new
   invoice under the id of a paid one, whatever status the provider reports with it.
   */
  lemma OnceEachIff(e: Engine, op: Op)
    requires WellFiled(e) && OwnIds(e) && OnceEach(e)
    ensures OnceEach(Step(e, op)) <==> SafeStep(e, op)
  {
    hide Step, OnceEach, WellFiled, IdemKey, OwnIds, Existing;
    var r := Step(e, op);
    if op.DoCheckout? {
      if op.planId !in PLANS || Existing(e, IdemKey(op.userId, op.planId, op.now)).Some? {
        Idle(e, op);
      } else {
        Filed(e, op);
        if PaidAlready(e, op.result.invoiceId) {
          OverwritingMiscounts(e, r, op.result.invoiceId);
        } else {
          ActivatesOnce(e, r, op.result.invoiceId);
        }
      }
    } else if op.DoConfirm? || op.DoAdminConfirm? {
      if op.id !in e.invoices || e.invoices[op.id].status == Succeeded {
        Idle(e, op);
      } else {
        Settled(e, op);
        ActivatesOnce(e, r, op.id);
      }
    } else {
      OthersKeepInvoices(e, op);
      SameCounts(e, r);
    }
  }

  lemma SameCounts(e: Engine, r: Engine)
    requires OnceEach(e) && r.invoices == e.invoices && r.activated == e.activated
    ensures OnceEach(r)
  {
  }

  /** Activations and successes are in step now and after every operation of the run. */
  ghost predicate OnceThroughout(e: Engine, ops: seq<Op>)
    requires WellFiled(e)
    decreases |ops|
  {
    OnceEach(e) && (ops == [] || OnceThroughout(Step(e, ops[0]), ops[1..]))
  }

  /**
   Over every interleaving of checkouts, webhook and admin confirmations and status changes:
   each invoice is activated once if it has succeeded and never otherwise, throughout the run,
   exactly when no checkout files a new invoice under the id of a paid one.
   */
  lemma {:induction false} ExactlyOnce(e: Engine, ops: seq<Op>)
    requires WellFiled(e) && OwnIds(e) && OnceEach(e)
    ensures OnceThroughout(e, ops) <==> SafeRun(e, ops)
    ensures SafeRun(e, ops) ==> OnceEach(Run(e, ops)) && forall id :: multiset(Run(e, ops).activated)[id] <= 1
    decreases |ops|
  {
    if ops != [] {
      OnceEachIff(e, ops[0]);
      StepKeepsIds(e, ops[0]);
      var r := Step(e, ops[0]);
      hide OnceEach, OwnIds, Step, SafeStep;
      if SafeStep(e, ops[0]) {
        ExactlyOnce(r, ops[1..]);
      } else {
        assert !OnceEach(r);
      }
    }
  }

  /** Whatever happens to a new engine: the subscriptions are sound, and the two provider conditions give the rest. */
  lemma FromEmpty(ops: seq<Op>)
    ensures WellFiled(EMPTY) && SubsOk(Run(EMPTY, ops))
    ensures FreshRun(EMPTY, ops) <==> InvThroughout(EMPTY, ops)
    ensures SafeRun(EMPTY, ops) <==> OnceThroughout(EMPTY, ops)
    ensures FreshRun(EMPTY, ops) ==> Inv(Run(EMPTY, ops))
  {
    FsmOverRuns(EMPTY, ops);
    FreshIffInvThroughout(EMPTY, ops);
    ExactlyOnce(EMPTY, ops);
    if FreshRun(EMPTY, ops) {
      InvOverRuns(EMPTY, ops);
    }
  }

  lemma SucceededStep(e: Engine, op: Op, id: string)
    requires WellFiled(e) && SafeStep(e, op) && PaidAlready(e, id)
    ensures id in Step(e, op).invoices && Step(e, op).invoices[id] == e.invoices[id]
  {
    hide WellFiled, IdemKey, Paid;
  }

  /** SUCCEEDED is absorbing for invoices, as long as no new invoice is filed under the id of a paid one. */
  lemma {:induction false} SucceededAbsorbing(e: Engine, ops: seq<Op>, id: string)
    requires WellFiled(e) && SafeRun(e, ops) && PaidAlready(e, id)
    ensures id in Run(e, ops).invoices && Run(e, ops).invoices[id] == e.invoices[id]
    decreases |ops|
  {
    if ops != [] {
      SucceededStep(e, ops[0], id);
      hide Step, SafeStep;
      SucceededAbsorbing(Step(e, ops[0]), ops[1..], id);
    }
  }

  /** Checkout followed by a confirmation of the invoice it filed. */
  function CheckoutConfirmed(e: Engine, u: string, p: string, c: Currency, now: nat, result: PaymentResult, at: int)
    : Engine
    requires WellFiled(e)
  {
    Run(e, [DoCheckout(u, p, c, now, result), DoConfirm(result.invoiceId, Succeeded, at)])
  }

  lemma FiledThenConfirmed(e: Engine, u: string, p: string, c: Currency, now: nat, result: PaymentResult, at: int)
    requires WellFiled(e) && p in PLANS && Existing(e, IdemKey(u, p, now)).None?
    ensures CheckoutConfirmed(e, u, p, c, now, result, at).activated == e.activated + [result.invoiceId]
  {
    var id := result.invoiceId;
    var first, second := DoCheckout(u, p, c, now, result), DoConfirm(id, Succeeded, at);
    assert [first, second][1..] == [second] && [second][1..] == [];
    hide IdemKey, Paid;
    var mid := Step(e, first);
    assert mid.activated == if result.status == Succeeded then e.activated + [id] else e.activated;
    assert mid.invoices[id].status == result.status && mid.invoices[id].invoiceId == id;
    assert Step(mid, second).activated == e.activated + [id];
    assert CheckoutConfirmed(e, u, p, c, now, result, at) == Run(mid, [second]) == Step(mid, second);
  }

  /**
   A checkout that files a new invoice, followed by a confirmation of that invoice, activates
   some invoice twice exactly when the provider repeated the id of a paid one, whatever status it
   reported with it.
   */
  lemma ActivatesTwiceIff(e: Engine, u: string, p: string, c: Currency, now: nat, result: PaymentResult, at: int)
    requires WellFiled(e) && OnceEach(e) && p in PLANS && Existing(e, IdemKey(u, p, now)).None?
    ensures var r := CheckoutConfirmed(e, u, p, c, now, result, at);
            (exists id :: multiset(r.activated)[id] >= 2) <==> PaidAlready(e, result.invoiceId)
  {
    hide IdemKey, CheckoutConfirmed;
    FiledThenConfirmed(e, u, p, c, now, result, at);
    var id := result.invoiceId;
    var r := CheckoutConfirmed(e, u, p, c, now, result, at);
    assert multiset(e.activated)[id] == if PaidAlready(e, id) then 1 else 0;
    assert multiset(r.activated)[id] == multiset(e.activated)[id] + 1;
    forall x | x != id
      ensures multiset(r.activated)[x] == multiset(e.activated)[x] <= 1
    {
    }
  }

  lemma OtherPlanOtherKey(u: string, p: string, q: string, now: nat)
    requires p in PLANS && q in PLANS && p != q
    ensures IdemKey(u, p, now) != IdemKey(u, q, now)
  {
    PlansHaveNoColon(p);
    PlansHaveNoColon(q);
    if IdemKey(u, p, now) == IdemKey(u, q, now) {
      IdemKeyInjective(u, p, now, u, q, now);
    }
  }

  /** Paying a basic plan, then a pro plan for which the provider repeats the id as pending, then a confirmation. */
  lemma TwiceReachable(u: string, c: Currency)
    ensures var ops := [DoCheckout(u, "basic", c, 0, PaymentResult("x", Succeeded)),
                        DoCheckout(u, "pro", c, 0, PaymentResult("x", Pending)),
                        DoConfirm("x", Succeeded, 0)];
            Run(EMPTY, ops).activated == ["x", "x"]
  {
    var first := DoCheckout(u, "basic", c, 0, PaymentResult("x", Succeeded));
    var second := DoCheckout(u, "pro", c, 0, PaymentResult("x", Pending));
    var third := DoConfirm("x", Succeeded, 0);
    var ops := [first, second, third];
    assert ops[1..] == [second, third];
    OtherPlanOtherKey(u, "basic", "pro", 0);
    hide IdemKey, Paid;
    var paid := Step(EMPTY, first);
    assert paid.activated == ["x"] && paid.idem.Keys == {IdemKey(u, "basic", 0)};
    assert Run(EMPTY, ops) == Run(paid, [second, third]);
    hide Step, Run;
    FiledThenConfirmed(paid, u, "pro", c, 0, PaymentResult("x", Pending), 0);
  }

  // ---------------------------------------------------------------- the engine itself

  class BillingEngine {
    var invoices: map<string, Invoice>
    var subscriptions: map<string, Subscription>
    var idempotency: map<string, string>
    var audit: seq<AuditItem>
    /** The invoices for which the activation ran. */
    ghost var activated: seq<string>

    ghost function Value(): Engine
      reads this
    {
      Engine(invoices, subscriptions, idempotency, audit, activated)
    }

    constructor ()
      ensures Value() == EMPTY
    {
      invoices, subscriptions, idempotency, audit, activated := map[], map[], map[], [], [];
    }

    method AuditLog(event: string, userId: string)
      modifies this`audit
      ensures audit == old(audit) + [AuditItem(event, userId)]
    {
      audit := audit + [AuditItem(event, userId)];
    }

    method CheckoutPlan(userId: string, planId: string, currency: Currency, now: nat, result: PaymentResult)
      returns (reply: Reply, invoice: Option<Invoice>)
      requires forall id | id in invoices :: invoices[id].invoiceId == id
      modifies this
      ensures (Value(), reply) == Checkout(old(Value()), userId, planId, currency, now, result)
      ensures reply == Ok <==> planId in PLANS
      ensures reply == Ok ==>
                && invoice.Some? && invoice.value.invoiceId in invoices
                && IdemKey(userId, planId, now) in idempotency
                && invoices[idempotency[IdemKey(userId, planId, now)]] == invoice.value
    {
      if planId !in PLANS {
        return UnknownPlan, None;
      }
      var key := IdemKey(userId, planId, now);
      if key in idempotency {
        var existing := idempotency[key];
        if existing in invoices {
          return Ok, Some(invoices[existing]);
        }
      }
      var amount := if currency == Irr then PLANS[planId].priceIrr else PLANS[planId].priceUsd;
      var created := Invoice(result.invoiceId, userId, planId, amount, currency, result.status, None, key);
      invoices := invoices[result.invoiceId := created];
      idempotency := idempotency[key := result.invoiceId];
      AuditLog("CHECKOUT_CREATED", userId);
      if result.status == Succeeded {
        ActivateInvoice(created, now);
      }
      return Ok, Some(created);
    }

    method ConfirmFromWebhook(id: string, outcome: PaymentStatus, now: int) returns (reply: Reply)
      requires WellFiled(Value())
      modifies this
      ensures (Value(), reply) == Confirm(old(Value()), id, outcome, now)
    {
      if id !in invoices {
        return NotFound;
      }
      var invoice := invoices[id];
      if invoice.status == Succeeded {
        return Ok;
      }
      invoice := invoice.(status := outcome);
      if outcome == Succeeded {
        invoice := invoice.(confirmedAt := Some(now));
      }
      invoices := invoices[id := invoice];
      if outcome == Succeeded {
        ActivateInvoice(invoice, now);
        AuditLog("PAYMENT_CONFIRMED", invoice.userId);
      } else if outcome == Failed {
        HandlePaymentFailure(invoice);
      } else if outcome == Refunded {
        HandleRefund(invoice);
      }
      return Ok;
    }

    method AdminConfirmInvoice(id: string, now: int) returns (reply: Reply)
      requires WellFiled(Value())
      modifies this
      ensures (Value(), reply) == AdminConfirm(old(Value()), id, now)
    {
      if id !in invoices {
        return NotFound;
      }
      var invoice := invoices[id];
      if invoice.status == Succeeded {
        return Ok;
      }
      invoice := invoice.(status := Succeeded, confirmedAt := Some(now));
      invoices := invoices[id := invoice];
      ActivateInvoice(invoice, now);
      AuditLog("ADMIN_CONFIRMED", invoice.userId);
      return Ok;
    }

    method SuspendUser(userId: string, reason: string) returns (reply: Reply)
      modifies this
      ensures (Value(), reply) == Suspend(old(Value()), userId, reason)
    {
      if userId !in subscriptions {
        return NotFound;
      }
      var moved := Transit(subscriptions[userId], Suspended, reason);
      if moved.None? {
        return TransitionError;
      }
      subscriptions := subscriptions[userId := moved.value];
      AuditLog("SUBSCRIPTION_SUSPENDED", userId);
      return Ok;
    }

    method RevokeUser(userId: string, reason: string) returns (reply: Reply)
      modifies this
      ensures (Value(), reply) == RevokeSub(old(Value()), userId, reason)
    {
      if userId !in subscriptions {
        return NotFound;
      }
      var sub := subscriptions[userId];
      assert subscriptions[userId := sub] == subscriptions;
      if sub.status != Suspended && Suspended in SubFsm(sub.status) {
        sub := Transit(sub, Suspended, "pre-revoke").value;
        subscriptions := subscriptions[userId := sub];
      }
      var moved := Transit(sub, Revoked, reason);
      if moved.None? {
        return TransitionError;
      }
      subscriptions := subscriptions[userId := moved.value];
      assert subscriptions == old(subscriptions)[userId := moved.value];
      AuditLog("SUBSCRIPTION_REVOKED", userId);
      return Ok;
    }

    method CancelUser(userId: string, reason: string, now: int) returns (reply: Reply)
      modifies this
      ensures (Value(), reply) == Cancel(old(Value()), userId, reason, now)
    {
      if userId !in subscriptions {
        return NotFound;
      }
      var moved := Transit(subscriptions[userId], SubStatus.Cancelled, reason);
      if moved.None? {
        return TransitionError;
      }
      subscriptions := subscriptions[userId := moved.value.(cancelledAt := Some(now))];
      AuditLog("SUBSCRIPTION_CANCELLED", userId);
      return Ok;
    }

    method ActivateInvoice(invoice: Invoice, now: int)
      requires invoice.planId in PLANS
      modifies this`subscriptions, this`activated
      ensures Value() == Activate(old(Value()), invoice, now)
    {
      var user := invoice.userId;
      var until := now + PLANS[invoice.planId].days * 86400;
      if user !in subscriptions {
        var trial := invoice.planId == "trial";
        var sub := Subscription(user, invoice.planId, if trial then Trial else Active, until,
                                if trial then until else 0, None, 0, []);
        subscriptions := subscriptions[user := sub];
      } else {
        var sub := subscriptions[user];
        if sub.status in {Trial, PastDue, Expired, SubStatus.Cancelled, Suspended} && Active in SubFsm(sub.status) {
          sub := Transit(sub, Active, "payment_confirmed").value;
        }
        subscriptions := subscriptions[user := sub.(planId := invoice.planId, expiresAt := until, dunning := 0)];
      }
      activated := activated + [invoice.invoiceId];
    }

    method HandlePaymentFailure(invoice: Invoice)
      modifies this`subscriptions, this`audit
      ensures var u, e := invoice.userId, old(Value());
              Value() == if u in e.subs then Log(e.(subs := e.subs[u := Unpaid(e.subs[u])]), "PAYMENT_FAILED", u) else e
    {
      var user := invoice.userId;
      if user !in subscriptions {
        return;
      }
      var sub := subscriptions[user];
      sub := sub.(dunning := sub.dunning + 1);
      AuditLog("PAYMENT_FAILED", user);
      if sub.status == Active {
        sub := Transit(sub, PastDue, "payment_failed").value;
      } else if sub.status == PastDue {
        if sub.dunning >= DUNNING_THRESHOLD {
          sub := Transit(sub, Suspended, "dunning_threshold_reached").value;
        }
      }
      subscriptions := subscriptions[user := sub];
    }

    method HandleRefund(invoice: Invoice)
      modifies this`subscriptions, this`audit
      ensures var u, e := invoice.userId, old(Value());
              Value() == if u in e.subs
                         then Log(e.(subs := e.subs[u := RefundedTo(e.subs[u])]), "PAYMENT_REFUNDED", u) else e
    {
      var user := invoice.userId;
      if user !in subscriptions {
        return;
      }
      var sub := subscriptions[user];
      AuditLog("PAYMENT_REFUNDED", user);
      if sub.status == Active && Suspended in SubFsm(sub.status) {
        sub := Transit(sub, Suspended, "refund_issued").value;
      }
      subscriptions := subscriptions[user := sub];
    }
  }
}
