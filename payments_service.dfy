/**
 * The owner's verdict on a submitted UPI payment: confirm or reject, each
 * updating the payment row and the order row together, with two audit
 * rows and one customer notification; and the verification queue's
 * paging clamps.
 */
module PaymentsService {
  import opened Wrappers
  import opened Db
  import opened Errors
  import opened Query
  import opened Tx
  import AuditService
  import OrdersRepo
  import PaymentsRepo
  import OrdersService
  import Placeholders

  const PaymentMissing := ThrowLegacy(Conflict, 409, "Payment record missing for order")
  const ConfirmNeedsSubmittedPayment := ThrowLegacy(Conflict, 409, "Only SUBMITTED payments can be confirmed")
  const ConfirmNeedsSubmittedOrder := ThrowLegacy(Conflict, 409, "Order must be PAYMENT_SUBMITTED to confirm")
  const RejectNeedsSubmittedPayment := ThrowLegacy(Conflict, 409, "Only SUBMITTED payments can be rejected")

  /** The order and payment a verdict reads and returns. */
  datatype Pair = Pair(order: Order, payment: Payment)

  /** `guardForAction(orderId)`: the order must exist (else NOT FOUND) and have its payment row (else CONFLICT). */
  function GuardForAction(s: Snapshot, orderId: Id): (r: Result<Pair>)
    ensures orderId !in s.orders ==> r == Err(OrdersService.OrderNotFound)
    ensures orderId in s.orders && orderId !in s.payments ==> r == Err(PaymentMissing)
    ensures r.Ok? <==> orderId in s.orders && orderId in s.payments
    ensures r.Ok? ==> r.value == Pair(s.orders[orderId], s.payments[orderId])
  {
    if orderId !in s.orders then Err(OrdersService.OrderNotFound)
    else if orderId !in s.payments then Err(PaymentMissing)
    else Ok(Pair(s.orders[orderId], s.payments[orderId]))
  }

  /** The confirm body: `utr` and `notes`. */
  datatype ConfirmBody = ConfirmBody(utr: Option<string>, notes: Option<string>)

  /** `body.utr ?? payment.reference_text ?? null`. */
  function ConfirmedReference(utr: Option<string>, previous: Option<string>): (r: Option<string>)
    ensures utr.Some? ==> r == utr
    ensures utr.None? ==> r == previous
  {
    if utr.Some? then utr else previous
  }

  /** The tables after the verdict's transaction body and the pair it returns. */
  function Apply(s: Snapshot, orderId: Id, pair: Pair, verdict: PaymentStatus, extras: PaymentsRepo.Extras,
                 status: OrderStatus, action: string, templateKey: string, payload: Payload, actor: Id, now: Time)
    : (Snapshot, Pair)
    requires PaymentsRepo.IsVerdict(verdict)
  {
    var payments := PaymentsRepo.WithVerdict(s.payments, orderId, verdict, extras, now);
    var orders := OrdersRepo.WithStatuses(s.orders, orderId, OrdersRepo.StatusFields(Some(verdict), Some(status)), now);
    var after := Pair(if orderId in orders then orders[orderId] else pair.order,
                      if orderId in payments then payments[orderId] else pair.payment);
    var audit := s.audit
      + [AuditService.Entry(actor, "payment", pair.payment.id, action,
                            Some(JPayment(orderId, pair.payment)), Some(JPayment(orderId, after.payment)), now)]
      + [AuditService.Entry(actor, "order", orderId, action,
                            Some(JOrder(orderId, pair.order)), Some(JOrder(orderId, after.order)), now)];
    var outbox := s.outbox + [OrdersRepo.NewNotification(templateKey, OrdersService.Recipient(pair.order), payload, now)];
    (s.(orders := orders, payments := payments, audit := audit, outbox := outbox), after)
  }

  /**
   * `confirm(orderId, body, actor)`: after the guard, the payment must be
   * SUBMITTED and the order PAYMENT_SUBMITTED, else CONFLICT with nothing
   * written. Then, in one transaction, the payment becomes CONFIRMED,
   * verified now by the actor, with reference `utr ?? previous`; the order
   * becomes PAYMENT_CONFIRMED / CONFIRMED; a payment audit row and an
   * order audit row (both CONFIRM_PAYMENT) and one `payment_confirmed`
   * notification are appended. The notes are never stored.
   */
  function ConfirmOutcome(s: Snapshot, orderId: Id, body: ConfirmBody, actor: Id, now: Time): Outcome<Pair>
  {
    var guard := GuardForAction(s, orderId);
    if guard.Err? then Refused(s, guard.thrown)
    else
      var pair := guard.value;
      if pair.payment.status != PaySubmitted then Refused(s, ConfirmNeedsSubmittedPayment)
      else if pair.order.status != PaymentSubmitted then Refused(s, ConfirmNeedsSubmittedOrder)
      else
        var extras := PaymentsRepo.Extras(Some(now), Defined(Some(actor)), Undefined,
                                          Defined(ConfirmedReference(body.utr, pair.payment.referenceText)));
        var applied := Apply(s, orderId, pair, PayConfirmed, extras, PaymentConfirmed, "CONFIRM_PAYMENT",
                             "payment_confirmed", OrderRef(pair.order.orderNumber), actor, now);
        WithTx(s, applied.0, Ok(applied.1))
  }

  /**
   * `reject(orderId, reason, actor)`: after the guard, only the payment
   * must be SUBMITTED (the order's status is not checked). Then, in one
   * transaction, the payment becomes REJECTED with the reason; the order
   * becomes PAYMENT_SUBMITTED / REJECTED, whatever its status was; two
   * REJECT_PAYMENT audit rows and one `payment_rejected` notification
   * carrying the reason are appended.
   */
  function RejectOutcome(s: Snapshot, orderId: Id, reason: string, actor: Id, now: Time): Outcome<Pair>
  {
    var guard := GuardForAction(s, orderId);
    if guard.Err? then Refused(s, guard.thrown)
    else
      var pair := guard.value;
      if pair.payment.status != PaySubmitted then Refused(s, RejectNeedsSubmittedPayment)
      else
        var extras := PaymentsRepo.Extras(None, Undefined, Defined(reason), Undefined);
        var applied := Apply(s, orderId, pair, PayRejected, extras, PaymentSubmitted, "REJECT_PAYMENT",
                             "payment_rejected", OrderRefWithReason(pair.order.orderNumber, Some(reason)), actor, now);
        WithTx(s, applied.0, Ok(applied.1))
  }

  /** What the verdict's transaction body leaves, for an order that has its payment row. */
  lemma ApplyEffects(s: Snapshot, orderId: Id, pair: Pair, verdict: PaymentStatus, extras: PaymentsRepo.Extras,
                     status: OrderStatus, action: string, templateKey: string, payload: Payload, actor: Id, now: Time)
    requires PaymentsRepo.IsVerdict(verdict)
    requires orderId in s.orders && orderId in s.payments
    ensures var applied := Apply(s, orderId, pair, verdict, extras, status, action, templateKey, payload, actor, now);
      var t := applied.0;
      && t.orders.Keys == s.orders.Keys && t.payments.Keys == s.payments.Keys
      && t.payments == PaymentsRepo.WithVerdict(s.payments, orderId, verdict, extras, now)
      && applied.1 == Pair(t.orders[orderId], t.payments[orderId])
      && t.orders[orderId].status == status && t.orders[orderId].paymentStatus == verdict
      && t.items == s.items && t.shipments == s.shipments
      && t.audit == s.audit
         + [AuditService.Entry(actor, "payment", pair.payment.id, action,
                               Some(JPayment(orderId, pair.payment)), Some(JPayment(orderId, t.payments[orderId])), now)]
         + [AuditService.Entry(actor, "order", orderId, action,
                               Some(JOrder(orderId, pair.order)), Some(JOrder(orderId, t.orders[orderId])), now)]
      && t.outbox == s.outbox + [OrdersRepo.NewNotification(templateKey, OrdersService.Recipient(pair.order), payload, now)]
  {
  }

  /** What `confirm` promises, from every starting state. */
  lemma ConfirmSpec(s: Snapshot, orderId: Id, body: ConfirmBody, actor: Id, now: Time)
    ensures var o := ConfirmOutcome(s, orderId, body, actor, now);
      o.state.orders.Keys == s.orders.Keys && o.state.payments.Keys == s.payments.Keys
    ensures var o := ConfirmOutcome(s, orderId, body, actor, now);
      o.result.Err? ==> o.state == s && o.journal == []
    ensures var o := ConfirmOutcome(s, orderId, body, actor, now);
      o.result.Ok? <==>
      && orderId in s.orders && orderId in s.payments
      && s.payments[orderId].status == PaySubmitted && s.orders[orderId].status == PaymentSubmitted
    ensures var o := ConfirmOutcome(s, orderId, body, actor, now);
      o.result.Ok? ==>
      var p, q := s.payments[orderId], o.state.payments[orderId];
      var ord := o.state.orders[orderId];
      && o.journal == [BeginStmt, CommitStmt]
      && o.result.value == Pair(ord, q)
      && q.status == PayConfirmed && q.verifiedAt == Some(now) && q.verifiedBy == Some(actor)
      && q.referenceText == ConfirmedReference(body.utr, p.referenceText)
      && q.rejectionReason == p.rejectionReason && q.id == p.id
      && ord.status == PaymentConfirmed && ord.paymentStatus == PayConfirmed
      && o.state.items == s.items && o.state.shipments == s.shipments
      && o.state.audit == s.audit
         + [AuditService.Entry(actor, "payment", p.id, "CONFIRM_PAYMENT", Some(JPayment(orderId, p)), Some(JPayment(orderId, q)), now)]
         + [AuditService.Entry(actor, "order", orderId, "CONFIRM_PAYMENT", Some(JOrder(orderId, s.orders[orderId])), Some(JOrder(orderId, ord)), now)]
      && o.state.outbox == s.outbox + [OrdersRepo.NewNotification("payment_confirmed", OrdersService.Recipient(s.orders[orderId]),
                                                                   OrderRef(s.orders[orderId].orderNumber), now)]
  {
    var guard := GuardForAction(s, orderId);
    if guard.Ok? && guard.value.payment.status == PaySubmitted && guard.value.order.status == PaymentSubmitted {
      var extras := PaymentsRepo.Extras(Some(now), Defined(Some(actor)), Undefined,
                                        Defined(ConfirmedReference(body.utr, guard.value.payment.referenceText)));
      ApplyEffects(s, orderId, guard.value, PayConfirmed, extras, PaymentConfirmed, "CONFIRM_PAYMENT",
                   "payment_confirmed", OrderRef(guard.value.order.orderNumber), actor, now);
    }
  }

  /** What `reject` promises, from every starting state. */
  lemma RejectSpec(s: Snapshot, orderId: Id, reason: string, actor: Id, now: Time)
    ensures var o := RejectOutcome(s, orderId, reason, actor, now);
      o.state.orders.Keys == s.orders.Keys && o.state.payments.Keys == s.payments.Keys
    ensures var o := RejectOutcome(s, orderId, reason, actor, now);
      o.result.Err? ==> o.state == s && o.journal == []
    ensures var o := RejectOutcome(s, orderId, reason, actor, now);
      o.result.Ok? <==>
      orderId in s.orders && orderId in s.payments && s.payments[orderId].status == PaySubmitted
    ensures var o := RejectOutcome(s, orderId, reason, actor, now);
      o.result.Ok? ==>
      var p, q := s.payments[orderId], o.state.payments[orderId];
      var ord := o.state.orders[orderId];
      && o.journal == [BeginStmt, CommitStmt]
      && o.result.value == Pair(ord, q)
      && q.status == PayRejected && q.rejectionReason == Some(reason)
      && q.verifiedAt == p.verifiedAt && q.verifiedBy == p.verifiedBy && q.referenceText == p.referenceText
      && ord.status == PaymentSubmitted && ord.paymentStatus == PayRejected
      && o.state.items == s.items && o.state.shipments == s.shipments
      && o.state.audit == s.audit
         + [AuditService.Entry(actor, "payment", p.id, "REJECT_PAYMENT", Some(JPayment(orderId, p)), Some(JPayment(orderId, q)), now)]
         + [AuditService.Entry(actor, "order", orderId, "REJECT_PAYMENT", Some(JOrder(orderId, s.orders[orderId])), Some(JOrder(orderId, ord)), now)]
      && o.state.outbox == s.outbox + [OrdersRepo.NewNotification("payment_rejected", OrdersService.Recipient(s.orders[orderId]),
                                                                   OrderRefWithReason(s.orders[orderId].orderNumber, Some(reason)), now)]
  {
    var guard := GuardForAction(s, orderId);
    if guard.Ok? && guard.value.payment.status == PaySubmitted {
      var extras := PaymentsRepo.Extras(None, Undefined, Defined(reason), Undefined);
      ApplyEffects(s, orderId, guard.value, PayRejected, extras, PaymentSubmitted, "REJECT_PAYMENT",
                   "payment_rejected", OrderRefWithReason(guard.value.order.orderNumber, Some(reason)), actor, now);
    }
  }

  /**
   * The transaction body shared by `confirm` and `reject`: the payment
   * verdict, the order's two statuses, the payment audit row, the order
   * audit row and the notification, in that order.
   */
  method ApplyVerdict(db: Database, orderId: Id, pair: Pair, verdict: PaymentStatus, extras: PaymentsRepo.Extras,
                      status: OrderStatus, action: string, templateKey: string, payload: Payload, actor: Id, now: Time)
    returns (after: Pair)
    requires PaymentsRepo.IsVerdict(verdict)
    requires orderId in db.orders && orderId in db.payments
    modifies db`orders, db`payments, db`audit, db`outbox
    ensures var applied := Apply(old(db.View()), orderId, pair, verdict, extras, status, action, templateKey, payload, actor, now);
      db.View() == applied.0 && after == applied.1
  {
    var updatedPay := PaymentsRepo.UpdateStatusTx(db, orderId, verdict, extras, now);
    var updatedOrder := OrdersRepo.UpdateStatusesTx(db, orderId, OrdersRepo.StatusFields(Some(verdict), Some(status)), now);
    AuditService.Append(db, actor, "payment", pair.payment.id, action,
                        Some(JPayment(orderId, pair.payment)), Some(JPayment(orderId, updatedPay.value)), now);
    AuditService.Append(db, actor, "order", orderId, action,
                        Some(JOrder(orderId, pair.order)), Some(JOrder(orderId, updatedOrder.value)), now);
    OrdersRepo.EnqueueNotificationTx(db, templateKey, OrdersService.Recipient(pair.order), payload, now);
    after := Pair(updatedOrder.value, updatedPay.value);
  }

  /** BEGIN, the verdict's transaction body, COMMIT. */
  method VerdictTx(db: Database, orderId: Id, pair: Pair, verdict: PaymentStatus, extras: PaymentsRepo.Extras,
                   status: OrderStatus, action: string, templateKey: string, payload: Payload, actor: Id, now: Time)
    returns (after: Pair)
    requires PaymentsRepo.IsVerdict(verdict)
    requires orderId in db.orders && orderId in db.payments
    modifies db`orders, db`payments, db`audit, db`outbox, db`journal, db`savepoint
    ensures var applied := Apply(old(db.View()), orderId, pair, verdict, extras, status, action, templateKey, payload, actor, now);
      db.View() == applied.0 && after == applied.1 && db.journal == old(db.journal) + [BeginStmt, CommitStmt]
  {
    Begin(db);
    after := ApplyVerdict(db, orderId, pair, verdict, extras, status, action, templateKey, payload, actor, now);
    Commit(db);
  }

  /** The transaction of `confirm`, step by step on the shared client. */
  method Confirm(db: Database, orderId: Id, body: ConfirmBody, actor: Id, now: Time) returns (r: Result<Pair>)
    modifies db`orders, db`payments, db`audit, db`outbox, db`journal, db`savepoint
    ensures var o := ConfirmOutcome(old(db.View()), orderId, body, actor, now);
      db.View() == o.state && r == o.result && db.journal == old(db.journal) + o.journal
  {
    var order := OrdersRepo.GetById(db, orderId);
    if order.None? {
      return Err(OrdersService.OrderNotFound);
    }
    var payment := PaymentsRepo.GetByOrderId(db, orderId);
    if payment.None? {
      return Err(PaymentMissing);
    }
    if payment.value.status != PaySubmitted {
      return Err(ConfirmNeedsSubmittedPayment);
    }
    if order.value.status != PaymentSubmitted {
      return Err(ConfirmNeedsSubmittedOrder);
    }
    var extras := PaymentsRepo.Extras(Some(now), Defined(Some(actor)), Undefined,
                                      Defined(ConfirmedReference(body.utr, payment.value.referenceText)));
    var after := VerdictTx(db, orderId, Pair(order.value, payment.value), PayConfirmed, extras, PaymentConfirmed,
                              "CONFIRM_PAYMENT", "payment_confirmed", OrderRef(order.value.orderNumber), actor, now);
    r := Ok(after);
  }

  /** The transaction of `reject`, step by step on the shared client. */
  method Reject(db: Database, orderId: Id, reason: string, actor: Id, now: Time) returns (r: Result<Pair>)
    modifies db`orders, db`payments, db`audit, db`outbox, db`journal, db`savepoint
    ensures var o := RejectOutcome(old(db.View()), orderId, reason, actor, now);
      db.View() == o.state && r == o.result && db.journal == old(db.journal) + o.journal
  {
    var order := OrdersRepo.GetById(db, orderId);
    if order.None? {
      return Err(OrdersService.OrderNotFound);
    }
    var payment := PaymentsRepo.GetByOrderId(db, orderId);
    if payment.None? {
      return Err(PaymentMissing);
    }
    if payment.value.status != PaySubmitted {
      return Err(RejectNeedsSubmittedPayment);
    }
    var extras := PaymentsRepo.Extras(None, Undefined, Defined(reason), Undefined);
    var after := VerdictTx(db, orderId, Pair(order.value, payment.value), PayRejected, extras, PaymentSubmitted,
                              "REJECT_PAYMENT", "payment_rejected", OrderRefWithReason(order.value.orderNumber, Some(reason)), actor, now);
    r := Ok(after);
  }

  /** A second confirm finds the payment CONFIRMED and is refused with nothing written. */
  lemma {:induction false} SecondConfirmRefused(s: Snapshot, orderId: Id, body: ConfirmBody, actor: Id, t1: Time, t2: Time)
    requires ConfirmOutcome(s, orderId, body, actor, t1).result.Ok?
    ensures var s1 := ConfirmOutcome(s, orderId, body, actor, t1).state;
      var o := ConfirmOutcome(s1, orderId, body, actor, t2);
      o.result == Err(ConfirmNeedsSubmittedPayment) && o.state == s1
  {
    ConfirmSpec(s, orderId, body, actor, t1);
    var s1 := ConfirmOutcome(s, orderId, body, actor, t1).state;
    assert GuardForAction(s1, orderId).value.payment.status == PayConfirmed;
  }

  /** The notes of the confirm body change nothing: confirming with any notes gives the same outcome. */
  lemma NotesNeverStored(s: Snapshot, orderId: Id, utr: Option<string>, n1: Option<string>, n2: Option<string>, actor: Id, now: Time)
    ensures ConfirmOutcome(s, orderId, ConfirmBody(utr, n1), actor, now) == ConfirmOutcome(s, orderId, ConfirmBody(utr, n2), actor, now)
  {
  }

  /**
   * A cancelled order whose payment is still SUBMITTED can be rejected,
   * and the rejection brings it back to PAYMENT_SUBMITTED.
   */
  lemma {:induction false} RejectRevivesCancelled(s: Snapshot, orderId: Id, reason: string, actor: Id, now: Time)
    requires orderId in s.orders && s.orders[orderId].status == Cancelled
    requires orderId in s.payments && s.payments[orderId].status == PaySubmitted
    ensures var o := RejectOutcome(s, orderId, reason, actor, now);
      && o.result.Ok? && orderId in o.state.orders && o.state.orders[orderId].status == PaymentSubmitted
      && o.state.orders[orderId].userId == s.orders[orderId].userId
      && orderId in o.state.payments && o.state.payments[orderId].status == PayRejected
  {
  }

  /** What the payments listing endpoint passes on, before the clamps. */
  datatype ListParams = ListParams(
    status: Option<OneOrMany>, from: Option<string>, to: Option<string>, q: Option<string>,
    page: Option<int>, limit: Option<int>, sort: Option<string>)

  /** `list(params)`: the repository listing with the page and limit clamped as for orders. */
  method List(params: ListParams) returns (plan: PaymentsRepo.ListPlan)
    ensures plan.page >= 1 && 1 <= plan.pageSize <= 100
    ensures plan.page == OrdersService.ListPage(params.page) && plan.pageSize == OrdersService.ListLimit(params.limit)
    ensures plan.listParams == plan.countParams + [VInt(plan.pageSize), VInt(Offset(plan.page, plan.pageSize))]
    ensures Placeholders.Decode(plan.where, plan.countParams) ==
      PaymentsRepo.Wanted(PaymentsRepo.ListArgs(params.status, params.from, params.to, params.q,
                                                plan.page, plan.pageSize, params.sort))
  {
    var args := PaymentsRepo.ListArgs(params.status, params.from, params.to, params.q,
                                      OrdersService.ListPage(params.page), OrdersService.ListLimit(params.limit), params.sort);
    plan := PaymentsRepo.BuildList(args);
  }
}
