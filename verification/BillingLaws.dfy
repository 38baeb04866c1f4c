/**
 What the operations of the billing engine do for the payer, said in statuses, counts, moves and
 dates alone.
 */
module BillingLaws {
  import opened Options
  import opened IdempotencyKeys
  import opened Billing

  // ---------------------------------------------------------------- payments

  /**
   `r` is `e` after a payment of the invoice: the payer is ACTIVE, unless REVOKED for good or on a
   first trial, on the plan paid for until its days have passed, and nothing is held against them.
   Nobody else is affected.
   */
  predicate PaidUp(e: Engine, r: Engine, invoice: Invoice, now: int) {
    var u, until := invoice.userId, now + 86400 * (if invoice.planId == "trial" then 14
                                                   else if invoice.planId == "annual" then 365 else 30);
    && u in r.subs && r.subs == e.subs[u := r.subs[u]]
    && r.subs[u].planId == invoice.planId && r.subs[u].expiresAt == until && r.subs[u].dunning == 0
    && if u !in e.subs then
         && r.subs[u].userId == u && r.subs[u].transitions == [] && r.subs[u].cancelledAt == None
         && r.subs[u].status == (if invoice.planId == "trial" then Trial else Active)
         && r.subs[u].trialEndsAt == (if invoice.planId == "trial" then until else 0)
       else
         var was := e.subs[u];
         && r.subs[u].userId == was.userId && r.subs[u].cancelledAt == was.cancelledAt
         && r.subs[u].trialEndsAt == was.trialEndsAt
         && r.subs[u].status == (if was.status == Revoked then Revoked else Active)
         && r.subs[u].transitions
            == was.transitions + (if was.status == Revoked || was.status == Active then []
                                  else [Move(was.status, Active, "payment_confirmed")])
  }

  /** A confirmed payment of an unpaid invoice settles it and pays up, whoever confirms. */
  lemma ConfirmationPays(e: Engine, id: string, now: int)
    requires WellFiled(e) && id in e.invoices && e.invoices[id].status != Succeeded
    ensures var r := Confirm(e, id, Succeeded, now).0;
            && PaidUp(e, r, e.invoices[id], now)
            && r.invoices == e.invoices[id := e.invoices[id].(status := Succeeded, confirmedAt := Some(now))]
            && r.idem == e.idem && r.audit == e.audit + [AuditItem("PAYMENT_CONFIRMED", e.invoices[id].userId)]
    ensures var r := AdminConfirm(e, id, now).0;
            && PaidUp(e, r, e.invoices[id], now)
            && r.invoices == e.invoices[id := e.invoices[id].(status := Succeeded, confirmedAt := Some(now))]
            && r.idem == e.idem && r.audit == e.audit + [AuditItem("ADMIN_CONFIRMED", e.invoices[id].userId)]
  {
    PaymentPaysUp(e, e.invoices[id], now);
    hide Paid, PaidUp;
    var s := Paid(FindSub(e, e.invoices[id].userId), e.invoices[id], now);
    var subscribed := e.(subs := e.subs[e.invoices[id].userId := s]);
    var paid := e.invoices[id].(status := Succeeded, confirmedAt := Some(now));
    SamePayment(FindSub(e, e.invoices[id].userId), e.invoices[id], paid, now);
    SamePaidUp(e, subscribed, Confirm(e, id, Succeeded, now).0, e.invoices[id], now);
    SamePaidUp(e, subscribed, AdminConfirm(e, id, now).0, e.invoices[id], now);
  }

  lemma PaymentPaysUp(e: Engine, invoice: Invoice, now: int)
    requires invoice.planId in PLANS
    ensures PaidUp(e, e.(subs := e.subs[invoice.userId := Paid(FindSub(e, invoice.userId), invoice, now)]),
                   invoice, now)
  {
    var s := FindSub(e, invoice.userId);
    assert invoice.planId in {"trial", "basic", "pro", "vip", "annual"};
    assert s.Some? ==> s.value.transitions + [] == s.value.transitions;
  }

  lemma SamePayment(s: Option<Subscription>, a: Invoice, b: Invoice, now: int)
    requires a.planId in PLANS && a.planId == b.planId && a.userId == b.userId
    ensures Paid(s, a, now) == Paid(s, b, now)
  {
  }

  lemma SamePaidUp(e: Engine, a: Engine, b: Engine, invoice: Invoice, now: int)
    requires PaidUp(e, a, invoice, now) && b.subs == a.subs
    ensures PaidUp(e, b, invoice, now)
  {
  }

  /**
   A checkout under a new key files one invoice, for the plan's price in the currency asked for,
   and pays up exactly when the provider reports success at once.
   */
  lemma CheckoutFiles(e: Engine, u: string, p: string, c: Currency, now: nat, result: PaymentResult)
    requires p in PLANS && Existing(e, IdemKey(u, p, now)).None?
    ensures var r := Checkout(e, u, p, c, now, result).0;
            var key := IdemKey(u, p, now);
            && result.invoiceId in r.invoices
            && r.invoices == e.invoices[result.invoiceId := r.invoices[result.invoiceId]]
            && r.idem == e.idem[key := result.invoiceId]
            && r.audit == e.audit + [AuditItem("CHECKOUT_CREATED", u)]
            && var filed := r.invoices[result.invoiceId];
            && filed.invoiceId == result.invoiceId && filed.userId == u && filed.planId == p && filed.currency == c
            && filed.status == result.status && filed.confirmedAt == None && filed.idemKey == key
            && (c == Irr ==> filed.amount == PLANS[p].priceIrr)
            && (c in {Usd, Eur} ==> filed.amount == PLANS[p].priceUsd)
            && (if result.status == Succeeded then PaidUp(e, r, filed, now) else r.subs == e.subs)
  {
    hide IdemKey, Paid, PaidUp;
    var r := Checkout(e, u, p, c, now, result).0;
    var filed := r.invoices[result.invoiceId];
    if result.status == Succeeded {
      PaymentPaysUp(e, filed, now);
      SamePaidUp(e, e.(subs := e.subs[u := Paid(FindSub(e, u), filed, now)]), r, filed, now);
    }
  }

  /** After any number of failures in a row, one confirmed payment restores an ACTIVE payer in full. */
  lemma PaymentRestores(e: Engine, id: string, u: string, k: nat, now: int, at: int)
    requires WellFiled(e) && SubsOk(e) && id in e.invoices && e.invoices[id].status != Succeeded
    requires e.invoices[id].userId == u && u in e.subs && e.subs[u].status == Active
    ensures var r := Confirm(FailTimes(e, id, k, now), id, Succeeded, at).0;
            && u in r.subs && r.subs[u].status == Active && r.subs[u].dunning == 0
            && r.subs[u].planId == e.invoices[id].planId && PathOk(r.subs[u])
  {
    var failed := FailTimes(e, id, k, now);
    ConsecutiveFailures(e, id, u, k, now);
    FailuresKeep(e, id, k, now);
    ConfirmationPays(failed, id, at);
    ConfirmKeepsSubs(failed, id, Succeeded, at);
    UserOk(Confirm(failed, id, Succeeded, at).0, u);
    hide Confirm, FailTimes, SubsOk, Paid;
  }

  lemma {:induction false} FailuresKeep(e: Engine, id: string, k: nat, now: int)
    requires WellFiled(e) && SubsOk(e) && id in e.invoices && e.invoices[id].status != Succeeded
    ensures var r := FailTimes(e, id, k, now);
            && SubsOk(r) && id in r.invoices && r.invoices[id].status != Succeeded
            && r.invoices[id].planId == e.invoices[id].planId
  {
    if k > 0 {
      hide SubsOk, Confirm;
      FailuresKeep(e, id, k - 1, now);
      FailureMeans(FailTimes(e, id, k - 1, now), id, now);
      ConfirmKeepsSubs(FailTimes(e, id, k - 1, now), id, Failed, now);
    }
  }

  // ---------------------------------------------------------------- other outcomes

  /**
   A reported failure counts one against the payer, moves an ACTIVE payer to PAST_DUE and, at the
   third, a PAST_DUE payer to SUSPENDED. It changes nothing else about anybody.
   */
  lemma FailureMeans(e: Engine, id: string, now: int)
    requires WellFiled(e) && id in e.invoices && e.invoices[id].status != Succeeded
    ensures var r, u := Confirm(e, id, Failed, now).0, e.invoices[id].userId;
            && r.invoices == e.invoices[id := e.invoices[id].(status := Failed)] && r.idem == e.idem
            && if u !in e.subs then r.subs == e.subs && r.audit == e.audit
               else
                 var s := e.subs[u];
                 var next := if s.status == Active then PastDue
                             else if s.status == PastDue && s.dunning >= 2 then Suspended else s.status;
                 && r.audit == e.audit + [AuditItem("PAYMENT_FAILED", u)]
                 && u in r.subs && r.subs == e.subs[u := r.subs[u]]
                 && r.subs[u] == s.(dunning := s.dunning + 1, status := next, transitions := r.subs[u].transitions)
                 && (next == s.status ==> r.subs[u].transitions == s.transitions)
                 && (next != s.status ==> |r.subs[u].transitions| == |s.transitions| + 1
                                          && r.subs[u].transitions[..|s.transitions|] == s.transitions
                                          && r.subs[u].transitions[|s.transitions|].source == s.status
                                          && r.subs[u].transitions[|s.transitions|].target == next)
  {
    hide WellFiled;
  }

  /** A reported refund of an unpaid invoice suspends an ACTIVE payer and changes nothing else about anybody. */
  lemma RefundMeans(e: Engine, id: string, now: int)
    requires WellFiled(e) && id in e.invoices && e.invoices[id].status != Succeeded
    ensures var r, u := Confirm(e, id, PaymentStatus.Refunded, now).0, e.invoices[id].userId;
            && r.invoices == e.invoices[id := e.invoices[id].(status := PaymentStatus.Refunded)] && r.idem == e.idem
            && r.audit == e.audit + (if u in e.subs then [AuditItem("PAYMENT_REFUNDED", u)] else [])
            && if u in e.subs && e.subs[u].status == Active
               then r.subs == e.subs[u := e.subs[u].(status := Suspended,
                      transitions := e.subs[u].transitions + [Move(Active, Suspended, "refund_issued")])]
               else r.subs == e.subs
  {
    hide WellFiled;
    assert e.audit + [] == e.audit;
    assert e.invoices[id].userId in e.subs ==> e.subs[e.invoices[id].userId := e.subs[e.invoices[id].userId]] == e.subs;
  }

  /** Every other report on an unpaid invoice only notes its status; on a paid or unknown one nothing happens. */
  lemma OtherReports(e: Engine, id: string, outcome: PaymentStatus, now: int)
    requires WellFiled(e)
    ensures id !in e.invoices ==> Confirm(e, id, outcome, now) == (e, NotFound) == AdminConfirm(e, id, now)
    ensures PaidAlready(e, id) ==> Confirm(e, id, outcome, now) == (e, Ok) == AdminConfirm(e, id, now)
    ensures id in e.invoices && !PaidAlready(e, id) && outcome in {Pending, PaymentStatus.Cancelled} ==>
              Confirm(e, id, outcome, now) == (e.(invoices := e.invoices[id := e.invoices[id].(status := outcome)]), Ok)
    ensures id in e.invoices ==> Confirm(e, id, outcome, now).1 == Ok == AdminConfirm(e, id, now).1
  {
    hide WellFiled, Paid;
  }

  // ---------------------------------------------------------------- the administrator's operations

  /** Suspension takes exactly ACTIVE and PAST_DUE payers to SUSPENDED and leaves everybody else alone. */
  lemma SuspendIff(e: Engine, u: string, reason: string)
    ensures Suspend(e, u, reason)
            == if u !in e.subs then (e, NotFound)
               else if e.subs[u].status in {Active, PastDue} then
                 (e.(subs := e.subs[u := e.subs[u].(status := Suspended,
                       transitions := e.subs[u].transitions + [Move(e.subs[u].status, Suspended, reason)])],
                     audit := e.audit + [AuditItem("SUBSCRIPTION_SUSPENDED", u)]), Ok)
               else (e, TransitionError)
  {
  }

  /** Cancellation is refused exactly to CANCELLED, EXPIRED and REVOKED payers. */
  lemma CancelIff(e: Engine, u: string, reason: string, now: int)
    ensures Cancel(e, u, reason, now)
            == if u !in e.subs then (e, NotFound)
               else if e.subs[u].status in {SubStatus.Cancelled, Expired, Revoked} then (e, TransitionError)
               else
                 (e.(subs := e.subs[u := e.subs[u].(status := SubStatus.Cancelled, cancelledAt := Some(now),
                       transitions := e.subs[u].transitions + [Move(e.subs[u].status, SubStatus.Cancelled, reason)])],
                     audit := e.audit + [AuditItem("SUBSCRIPTION_CANCELLED", u)]), Ok)
  {
  }

  /** Revocation goes by way of SUSPENDED and records both moves. */
  lemma RevokeRecords(e: Engine, u: string, reason: string)
    requires u in e.subs && e.subs[u].status in {Active, PastDue, Suspended}
    ensures var (r, reply) := RevokeSub(e, u, reason);
            var was := e.subs[u];
            && reply == Ok && r.audit == e.audit + [AuditItem("SUBSCRIPTION_REVOKED", u)]
            && r.subs == e.subs[u := was.(status := Revoked, transitions := was.transitions
                 + (if was.status == Suspended then [] else [Move(was.status, Suspended, "pre-revoke")])
                 + [Move(Suspended, Revoked, reason)])]
  {
    assert e.subs[u].transitions + [] == e.subs[u].transitions;
  }

  /** From where each status can be entered. */
  lemma EnteredFrom(s: Subscription, target: SubStatus, reason: string)
    ensures Transit(s, target, reason).Some? <==>
              match target
              case Trial => false
              case Active => s.status !in {Active, Revoked}
              case PastDue => s.status == Active
              case Suspended => s.status in {Active, PastDue}
              case Expired => s.status in {Trial, Active, PastDue}
              case Cancelled => s.status in {Trial, Active, PastDue, Suspended}
              case Revoked => s.status == Suspended
  {
  }
}
