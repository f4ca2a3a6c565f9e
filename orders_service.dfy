/**
 * The owner's manual order transitions (pack and cancel), the order
 * timeline shown on the detail screen, and the listing's paging clamps.
 */
module OrdersService {
  import opened Wrappers
  import opened Db
  import opened Errors
  import opened Query
  import opened Tx
  import AuditService
  import OrdersRepo
  import Placeholders

  /** The only manual targets are PACKED and CANCELLED. */
  predicate IsManualTarget(next: OrderStatus) {
    next == Packed || next == Cancelled
  }

  /**
   * The guard of `updateStatus`: PACKED only from PAYMENT_CONFIRMED,
   * CANCELLED from anything but SHIPPED, DELIVERED and CANCELLED (so also
   * from PAYMENT_CONFIRMED and PACKED), any other target is a bad request.
   */
  function ManualGuard(current: OrderStatus, next: OrderStatus): (r: Option<Thrown>)
    ensures next == Packed ==> (r.None? <==> current == PaymentConfirmed)
    ensures next == Cancelled ==> (r.None? <==> current != Shipped && current != Delivered && current != Cancelled)
    ensures IsManualTarget(next) && r.Some? ==> r.value.AppErr? && r.value.error.code == Conflict && r.value.error.status == 409
    ensures !IsManualTarget(next) ==> r.Some? && r.value.AppErr? && r.value.error.code == BadRequest && r.value.error.status == 400
  {
    if next == Packed then
      if current != PaymentConfirmed then Some(ThrowLegacy(Conflict, 409, "Order must be PAYMENT_CONFIRMED to pack"))
      else None
    else if next == Cancelled then
      if current == Shipped || current == Delivered || current == Cancelled then
        Some(ThrowLegacy(Conflict, 409, "Cannot cancel shipped/delivered/cancelled order"))
      else None
    else Some(ThrowLegacy(BadRequest, 400, "Unsupported manual status transition"))
  }

  const OrderNotFound := ThrowLegacy(NotFound, 404, "Order not found")

  /** The audit action of a manual transition. */
  function ManualAction(next: OrderStatus): string {
    if next == Packed then "PACK" else "CANCEL"
  }

  /** The outbox template and payload of a manual transition; a cancel carries the reason or null. */
  function ManualNotice(next: OrderStatus, orderNumber: string, reason: Option<string>): (string, Payload) {
    if next == Packed then ("order_packed", OrderRef(orderNumber))
    else ("order_cancelled", OrderRefWithReason(orderNumber, reason))
  }

  /** `to_address: current.ship_phone ?? ""`. */
  function Recipient(o: Order): string {
    o.shipTo.phone.GetOr("")
  }

  /**
   * `updateStatus(orderId, next, actor, reason)`: a missing order is NOT
   * FOUND and a refused transition CONFLICT or BAD REQUEST, both before
   * the transaction opens and so with nothing written; otherwise, in one
   * transaction, the order takes the new status, one audit row (PACK or
   * CANCEL, before = the row read by the guard, after = the updated row)
   * and one outbox row are appended, and the updated order is returned.
   */
  function UpdateStatusOutcome(s: Snapshot, orderId: Id, next: OrderStatus, actor: Id, reason: Option<string>, now: Time)
    : (o: Outcome<Order>)
    ensures o.result.Err? ==> o.state == s && o.journal == []
    ensures orderId !in s.orders ==> o.result == Err(OrderNotFound)
    ensures o.result.Ok? <==> orderId in s.orders && ManualGuard(s.orders[orderId].status, next).None?
    ensures o.result.Ok? ==>
      var cur := s.orders[orderId];
      var after := o.result.value;
      && o.journal == [BeginStmt, CommitStmt]
      && o.state.orders == OrdersRepo.WithStatus(s.orders, orderId, next, now)
      && after == o.state.orders[orderId] && after.status == next && after.paymentStatus == cur.paymentStatus
      && o.state.items == s.items && o.state.payments == s.payments && o.state.shipments == s.shipments
      && o.state.audit == s.audit + [AuditService.Entry(actor, "order", orderId, ManualAction(next),
                                                        Some(JOrder(orderId, cur)), Some(JOrder(orderId, after)), now)]
      && o.state.outbox == s.outbox + [OrdersRepo.NewNotification(ManualNotice(next, cur.orderNumber, reason).0,
                                                                  Recipient(cur), ManualNotice(next, cur.orderNumber, reason).1, now)]
  {
    if orderId !in s.orders then Refused(s, OrderNotFound)
    else
      var cur := s.orders[orderId];
      var guard := ManualGuard(cur.status, next);
      if guard.Some? then Refused(s, guard.value)
      else
        var orders := OrdersRepo.WithStatus(s.orders, orderId, next, now);
        var after := orders[orderId];
        var notice := ManualNotice(next, cur.orderNumber, reason);
        var audit := s.audit + [AuditService.Entry(actor, "order", orderId, ManualAction(next),
                                                   Some(JOrder(orderId, cur)), Some(JOrder(orderId, after)), now)];
        var outbox := s.outbox + [OrdersRepo.NewNotification(notice.0, Recipient(cur), notice.1, now)];
        WithTx(s, s.(orders := orders, audit := audit, outbox := outbox), Ok(after))
  }

  /** The transaction of `updateStatus`, step by step on the shared client. */
  method UpdateStatus(db: Database, orderId: Id, next: OrderStatus, actor: Id, reason: Option<string>, now: Time)
    returns (r: Result<Order>)
    modifies db`orders, db`audit, db`outbox, db`journal, db`savepoint
    ensures var o := UpdateStatusOutcome(old(db.View()), orderId, next, actor, reason, now);
      db.View() == o.state && r == o.result && db.journal == old(db.journal) + o.journal
  {
    var current := OrdersRepo.GetById(db, orderId);
    if current.None? {
      return Err(OrderNotFound);
    }
    var guard := ManualGuard(current.value.status, next);
    if guard.Some? {
      return Err(guard.value);
    }
    var after := ManualTx(db, orderId, current.value, next, actor, reason, now);
    r := Ok(after);
  }

  /** The transaction of a manual transition: BEGIN, the status, the audit row, the outbox row, COMMIT. */
  method ManualTx(db: Database, orderId: Id, current: Order, next: OrderStatus, actor: Id, reason: Option<string>, now: Time)
    returns (after: Order)
    requires orderId in db.orders
    modifies db`orders, db`audit, db`outbox, db`journal, db`savepoint
    ensures db.orders == OrdersRepo.WithStatus(old(db.orders), orderId, next, now)
    ensures orderId in db.orders && after == db.orders[orderId]
    ensures db.audit == old(db.audit) + [AuditService.Entry(actor, "order", orderId, ManualAction(next),
                                                            Some(JOrder(orderId, current)), Some(JOrder(orderId, after)), now)]
    ensures db.outbox == old(db.outbox) + [OrdersRepo.NewNotification(ManualNotice(next, current.orderNumber, reason).0,
                                                                       Recipient(current), ManualNotice(next, current.orderNumber, reason).1, now)]
    ensures db.journal == old(db.journal) + [BeginStmt, CommitStmt]
  {
    Begin(db);
    var updated := OrdersRepo.UpdateStatusTx(db, orderId, next, now);
    after := updated.value;
    AuditService.Append(db, actor, "order", orderId, ManualAction(next),
                        Some(JOrder(orderId, current)), Some(JOrder(orderId, after)), now);
    var notice := ManualNotice(next, current.orderNumber, reason);
    OrdersRepo.EnqueueNotificationTx(db, notice.0, Recipient(current), notice.1, now);
    Commit(db);
  }

  /** Cancel never touches the payment status, whatever the order's state. */
  lemma CancelKeepsPaymentStatus(s: Snapshot, orderId: Id, actor: Id, reason: Option<string>, now: Time)
    requires orderId in s.orders
    ensures var o := UpdateStatusOutcome(s, orderId, Cancelled, actor, reason, now);
      o.state.orders[orderId].paymentStatus == s.orders[orderId].paymentStatus
  {
  }

  /** Packing twice: the second call finds PACKED, not PAYMENT_CONFIRMED, and is refused with nothing written. */
  lemma {:induction false} SecondPackRefused(s: Snapshot, orderId: Id, actor: Id, t1: Time, t2: Time)
    requires UpdateStatusOutcome(s, orderId, Packed, actor, None, t1).result.Ok?
    ensures var s1 := UpdateStatusOutcome(s, orderId, Packed, actor, None, t1).state;
      var o := UpdateStatusOutcome(s1, orderId, Packed, actor, None, t2);
      o.result.Err? && o.result.thrown.error.code == Conflict && o.state == s1
  {
    var s1 := UpdateStatusOutcome(s, orderId, Packed, actor, None, t1).state;
    assert s1.orders[orderId].status == Packed;
  }

  /** The timeline's codes are the order statuses, ranked in lifecycle order. */
  function Rank(code: OrderStatus): nat {
    match code
    case Placed => 0
    case PaymentSubmitted => 1
    case PaymentConfirmed => 2
    case Packed => 3
    case Shipped => 4
    case Delivered => 5
    case Cancelled => 6
  }

  datatype Entry = Entry(code: OrderStatus, at: Time)

  /** The timeline lists an entry with code `c`. */
  predicate Lists(t: seq<Entry>, c: OrderStatus)
    decreases |t|
  {
    t != [] && (t[|t| - 1].code == c || Lists(t[..|t| - 1], c))
  }

  /** Codes strictly ascend in lifecycle order. */
  predicate Ascending(t: seq<Entry>)
    decreases |t|
  {
    |t| < 2 || (Rank(t[|t| - 2].code) < Rank(t[|t| - 1].code) && Ascending(t[..|t| - 1]))
  }

  /** The last code, if any, ranks below `k`. */
  predicate Below(t: seq<Entry>, k: nat) {
    t == [] || Rank(t[|t| - 1].code) < k
  }

  /** Ascending step by step means ascending between any two entries. */
  lemma {:induction false} AscendingPairwise(t: seq<Entry>)
    requires Ascending(t)
    ensures forall i, j :: 0 <= i < j < |t| ==> Rank(t[i].code) < Rank(t[j].code)
    decreases |t|
  {
    if |t| >= 2 {
      var init := t[..|t| - 1];
      AscendingPairwise(init);
      forall i, j | 0 <= i < j < |t|
        ensures Rank(t[i].code) < Rank(t[j].code)
      {
        if j < |t| - 1 {
          assert t[i] == init[i] && t[j] == init[j];
        } else if i < |t| - 2 {
          assert t[i] == init[i] && t[|t| - 2] == init[|t| - 2];
        }
      }
    }
  }

  /** `if (cond) t.push(e)`, for an entry ranked after everything already there. */
  function PushIf(t: seq<Entry>, cond: bool, e: Entry): (r: seq<Entry>)
    requires Ascending(t) && Below(t, Rank(e.code))
    ensures Ascending(r) && Below(r, Rank(e.code) + 1)
    ensures |t| > 0 ==> |r| > 0 && r[0] == t[0]
  {
    if cond then
      assert (t + [e])[..|t|] == t;
      t + [e]
    else t
  }

  lemma PushIfLists(t: seq<Entry>, cond: bool, e: Entry, c: OrderStatus)
    requires Ascending(t) && Below(t, Rank(e.code))
    ensures Lists(PushIf(t, cond, e), c) == (Lists(t, c) || (cond && e.code == c))
  {
    if cond {
      assert (t + [e])[..|t|] == t;
    }
  }

  /** The payment milestones: submitted when there is a submission time, confirmed when verified and CONFIRMED. */
  function PaymentSteps(t: seq<Entry>, payment: Option<Payment>): (r: seq<Entry>)
    requires Ascending(t) && Below(t, Rank(PaymentSubmitted))
    ensures Ascending(r) && Below(r, Rank(PaymentConfirmed) + 1)
    ensures |t| > 0 ==> |r| > 0 && r[0] == t[0]
  {
    match payment
    case None => t
    case Some(p) =>
      var t1 := PushIf(t, p.submittedAt.Some?, Entry(PaymentSubmitted, p.submittedAt.GetOr(0)));
      PushIf(t1, p.verifiedAt.Some? && p.status == PayConfirmed, Entry(PaymentConfirmed, p.verifiedAt.GetOr(0)))
  }

  lemma PaymentStepsLists(t: seq<Entry>, payment: Option<Payment>, c: OrderStatus)
    requires Ascending(t) && Below(t, Rank(PaymentSubmitted))
    ensures Lists(PaymentSteps(t, payment), c) ==
      (|| Lists(t, c)
       || (c == PaymentSubmitted && payment.Some? && payment.value.submittedAt.Some?)
       || (c == PaymentConfirmed && payment.Some? && payment.value.verifiedAt.Some? && payment.value.status == PayConfirmed))
  {
    if payment.Some? {
      var p := payment.value;
      var t1 := PushIf(t, p.submittedAt.Some?, Entry(PaymentSubmitted, p.submittedAt.GetOr(0)));
      PushIfLists(t, p.submittedAt.Some?, Entry(PaymentSubmitted, p.submittedAt.GetOr(0)), c);
      PushIfLists(t1, p.verifiedAt.Some? && p.status == PayConfirmed, Entry(PaymentConfirmed, p.verifiedAt.GetOr(0)), c);
    }
  }

  /** The shipment milestones: shipped and delivered when their times are set. */
  function ShipmentSteps(t: seq<Entry>, shipment: Option<Shipment>): (r: seq<Entry>)
    requires Ascending(t) && Below(t, Rank(Shipped))
    ensures Ascending(r) && Below(r, Rank(Delivered) + 1)
    ensures |t| > 0 ==> |r| > 0 && r[0] == t[0]
  {
    match shipment
    case None => t
    case Some(sh) =>
      var t1 := PushIf(t, sh.shippedAt.Some?, Entry(Shipped, sh.shippedAt.GetOr(0)));
      PushIf(t1, sh.deliveredAt.Some?, Entry(Delivered, sh.deliveredAt.GetOr(0)))
  }

  lemma ShipmentStepsLists(t: seq<Entry>, shipment: Option<Shipment>, c: OrderStatus)
    requires Ascending(t) && Below(t, Rank(Shipped))
    ensures Lists(ShipmentSteps(t, shipment), c) ==
      (|| Lists(t, c)
       || (c == Shipped && shipment.Some? && shipment.value.shippedAt.Some?)
       || (c == Delivered && shipment.Some? && shipment.value.deliveredAt.Some?))
  {
    if shipment.Some? {
      var sh := shipment.value;
      var t1 := PushIf(t, sh.shippedAt.Some?, Entry(Shipped, sh.shippedAt.GetOr(0)));
      PushIfLists(t, sh.shippedAt.Some?, Entry(Shipped, sh.shippedAt.GetOr(0)), c);
      PushIfLists(t1, sh.deliveredAt.Some?, Entry(Delivered, sh.deliveredAt.GetOr(0)), c);
    }
  }

  /**
   * `buildTimeline(order, payment, shipment)`: PLACED at creation, then
   * each later milestone whose evidence is present, in lifecycle order.
   */
  function Timeline(order: Order, payment: Option<Payment>, shipment: Option<Shipment>): (t: seq<Entry>)
    ensures |t| > 0 && t[0] == Entry(Placed, order.createdAt)
    ensures Ascending(t)
  {
    var t5 := ShipmentSteps(EarlySteps(order, payment), shipment);
    PushIf(t5, order.status == Cancelled, Entry(Cancelled, order.updatedAt))
  }

  /** The timeline up to PACKED: PLACED, the payment milestones, then PACKED when the order is. */
  function EarlySteps(order: Order, payment: Option<Payment>): (t: seq<Entry>)
    ensures |t| > 0 && t[0] == Entry(Placed, order.createdAt)
    ensures Ascending(t) && Below(t, Rank(Shipped))
  {
    var t2 := PaymentSteps([Entry(Placed, order.createdAt)], payment);
    PushIf(t2, order.status == Packed, Entry(Packed, order.updatedAt))
  }

  /** The early steps list PLACED, each payment milestone with its evidence, and PACKED when the order is. */
  lemma EarlyStepsLists(order: Order, payment: Option<Payment>, c: OrderStatus)
    ensures Lists(EarlySteps(order, payment), c) ==
      (|| c == Placed
       || (c == PaymentSubmitted && payment.Some? && payment.value.submittedAt.Some?)
       || (c == PaymentConfirmed && payment.Some? && payment.value.verifiedAt.Some? && payment.value.status == PayConfirmed)
       || (c == Packed && order.status == Packed))
  {
    var t0 := [Entry(Placed, order.createdAt)];
    assert Lists(t0, c) <==> c == Placed by { assert t0[..0] == []; }
    var t2 := PaymentSteps(t0, payment);
    PaymentStepsLists(t0, payment, c);
    PushIfLists(t2, order.status == Packed, Entry(Packed, order.updatedAt), c);
  }

  /** Whether the timeline lists code `c`: PLACED always, each later code exactly when its evidence is present. */
  predicate Evidence(order: Order, payment: Option<Payment>, shipment: Option<Shipment>, c: OrderStatus) {
    match c
    case Placed => true
    case PaymentSubmitted => payment.Some? && payment.value.submittedAt.Some?
    case PaymentConfirmed => payment.Some? && payment.value.verifiedAt.Some? && payment.value.status == PayConfirmed
    case Packed => order.status == Packed
    case Shipped => shipment.Some? && shipment.value.shippedAt.Some?
    case Delivered => shipment.Some? && shipment.value.deliveredAt.Some?
    case Cancelled => order.status == Cancelled
  }

  /**
   * The timeline lists a code exactly when its evidence is present.
   * PAYMENT_CONFIRMED needs a verification time and a CONFIRMED payment;
   * PACKED and CANCELLED come from the order's current status, so PACKED
   * is gone once the order moves on.
   */
  lemma TimelineLists(order: Order, payment: Option<Payment>, shipment: Option<Shipment>, c: OrderStatus)
    ensures Lists(Timeline(order, payment, shipment), c) <==> Evidence(order, payment, shipment, c)
  {
    TimelineListsStepwise(order, payment, shipment, c);
  }

  /** What the timeline lists, push by push. */
  lemma TimelineListsStepwise(order: Order, payment: Option<Payment>, shipment: Option<Shipment>, c: OrderStatus)
    ensures Lists(Timeline(order, payment, shipment), c) ==
      (|| c == Placed
       || (c == PaymentSubmitted && payment.Some? && payment.value.submittedAt.Some?)
       || (c == PaymentConfirmed && payment.Some? && payment.value.verifiedAt.Some? && payment.value.status == PayConfirmed)
       || (c == Packed && order.status == Packed)
       || (c == Shipped && shipment.Some? && shipment.value.shippedAt.Some?)
       || (c == Delivered && shipment.Some? && shipment.value.deliveredAt.Some?)
       || (c == Cancelled && order.status == Cancelled))
  {
    var t3 := EarlySteps(order, payment);
    EarlyStepsLists(order, payment, c);
    var t5 := ShipmentSteps(t3, shipment);
    ShipmentStepsLists(t3, shipment, c);
    PushIfLists(t5, order.status == Cancelled, Entry(Cancelled, order.updatedAt), c);
  }

  /** Once shipped or delivered, the timeline no longer shows PACKED. */
  lemma PackedGoneAfterShipping(order: Order, payment: Option<Payment>, shipment: Option<Shipment>)
    requires order.status == Shipped || order.status == Delivered
    ensures !Lists(Timeline(order, payment, shipment), Packed)
  {
    TimelineLists(order, payment, shipment, Packed);
  }

  /** Each code appears at most once. */
  lemma TimelineCodesDistinct(order: Order, payment: Option<Payment>, shipment: Option<Shipment>)
    ensures var t := Timeline(order, payment, shipment);
      forall i, j :: 0 <= i < |t| && 0 <= j < |t| && i != j ==> t[i].code != t[j].code
  {
    AscendingPairwise(Timeline(order, payment, shipment));
  }

  /** `page = max(1, page ?? 1)`. */
  function ListPage(page: Option<int>): (p: int)
    ensures p >= 1
    ensures page.None? ==> p == 1
    ensures page.Some? && page.value >= 1 ==> p == page.value
  {
    var p := page.GetOr(1);
    if p < 1 then 1 else p
  }

  /** `limit = min(100, max(1, limit ?? 20))`. */
  function ListLimit(limit: Option<int>): (l: int)
    ensures 1 <= l <= 100
    ensures limit.None? ==> l == 20
    ensures limit.Some? && 1 <= limit.value <= 100 ==> l == limit.value
  {
    Clamp(1, 100, limit.GetOr(20))
  }

  /** What the orders listing endpoint passes on, before the clamps. */
  datatype ListParams = ListParams(
    status: Option<OneOrMany>, paymentStatus: Option<OneOrMany>,
    from: Option<string>, to: Option<string>, q: Option<string>,
    page: Option<int>, limit: Option<int>, sort: Option<string>)

  /** `list(params)`: the repository listing with the page and limit clamped. */
  method List(params: ListParams) returns (plan: OrdersRepo.ListPlan)
    ensures plan.page >= 1 && 1 <= plan.pageSize <= 100
    ensures plan.page == ListPage(params.page) && plan.pageSize == ListLimit(params.limit)
    ensures plan.listParams == plan.countParams + [VInt(plan.pageSize), VInt(Offset(plan.page, plan.pageSize))]
    ensures Placeholders.Decode(plan.where, plan.countParams) ==
      OrdersRepo.Wanted(OrdersRepo.ListArgs(params.status, params.paymentStatus, params.from, params.to, params.q,
                                            plan.page, plan.pageSize, params.sort))
  {
    var args := OrdersRepo.ListArgs(params.status, params.paymentStatus, params.from, params.to, params.q,
                                    ListPage(params.page), ListLimit(params.limit), params.sort);
    plan := OrdersRepo.BuildList(args);
  }
}
