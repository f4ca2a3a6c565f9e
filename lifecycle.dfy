/**
 * The order lifecycle as a whole: the invariants that every transition of
 * the order, payment and shipment rows keeps, and what they imply for
 * the transitions themselves. A transition is one of the service
 * operations; a run is any sequence of them.
 */
module Lifecycle {
  import opened Wrappers
  import opened Db
  import opened Errors
  import opened Tx
  import opened Query
  import OrdersRepo
  import PaymentsRepo
  import OrdersService
  import PaymentsService
  import ShipmentsService
  import CustomerOrdersRepo
  import CustomerPaymentsRepo
  import CustomerOrdersService

  /** The statuses an order reaches only after its payment was confirmed. */
  predicate Paid(status: OrderStatus) {
    status == PaymentConfirmed || status == Packed || status == Shipped || status == Delivered
  }

  /** The statuses an order has once it left the shop. */
  predicate Dispatched(status: OrderStatus) {
    status == Shipped || status == Delivered
  }

  /** A row of a table, if there is one. */
  ghost function Row<V>(m: map<Id, V>, id: Id): Option<V> {
    if id in m then Some(m[id]) else None
  }

  /**
   * What the rows of one order id must satisfy: an order past payment
   * confirmation has payment_status CONFIRMED; a payment row belongs to an
   * order whose payment_status mirrors the row's status; there is a
   * shipment row exactly when the order is SHIPPED or DELIVERED; the order
   * has no phone.
   */
  ghost predicate RowsAgree(s: Snapshot, id: Id) {
    && (id in s.orders && Paid(s.orders[id].status) ==> s.orders[id].paymentStatus == PayConfirmed)
    && (id in s.payments ==> id in s.orders && s.orders[id].paymentStatus == s.payments[id].status)
    && (id in s.shipments <==> id in s.orders && Dispatched(s.orders[id].status))
    && (id in s.orders ==> s.orders[id].shipTo.phone.None?)
  }

  /** The lifecycle invariant: every id's rows agree, every notification is addressed to "", every item has its order. */
  ghost predicate Inv(s: Snapshot) {
    && (forall id :: RowsAgree(s, id))
    && (forall n :: n in s.outbox ==> n.toAddress == "")
    && (forall it :: it in s.items ==> it.orderId in s.orders)
  }

  /** The empty database. */
  const Empty := Snapshot(map[], [], map[], map[], [], [])

  /** The empty database satisfies the invariant. */
  lemma EmptyInv()
    ensures Inv(Empty)
  {
    assert forall id :: RowsAgree(Empty, id);
  }

  /** `t` differs from `s` only in the order, payment and shipment rows of `id`. */
  ghost predicate SameExcept(s: Snapshot, t: Snapshot, id: Id) {
    forall k :: k != id ==>
      Row(t.orders, k) == Row(s.orders, k) && Row(t.payments, k) == Row(s.payments, k) && Row(t.shipments, k) == Row(s.shipments, k)
  }

  /**
   * A transition confined to order `id`: the rows of other ids are
   * untouched, the rows of `id` agree afterwards, new items belong to `id`
   * and new notifications have no recipient.
   */
  ghost predicate Confined(s: Snapshot, t: Snapshot, id: Id) {
    && SameExcept(s, t, id) && RowsAgree(t, id) && id in t.orders
    && (forall it :: it in t.items ==> it in s.items || it.orderId == id)
    && (forall n :: n in t.outbox ==> n in s.outbox || n.toAddress == "")
  }

  /** A confined transition keeps the invariant. */
  lemma ConfinedKeepsInv(s: Snapshot, t: Snapshot, id: Id)
    requires Inv(s) && Confined(s, t, id)
    ensures Inv(t)
  {
    forall k | k != id
      ensures RowsAgree(t, k)
    {
      assert RowsAgree(s, k);
      assert Row(t.orders, k) == Row(s.orders, k) && Row(t.payments, k) == Row(s.payments, k);
      assert Row(t.shipments, k) == Row(s.shipments, k);
    }
    forall it | it in t.items
      ensures it.orderId in t.orders
    {
      if it.orderId != id {
        assert Row(t.orders, it.orderId) == Row(s.orders, it.orderId);
      }
    }
  }

  /** A notification to an order without a phone has no recipient. */
  lemma NoticeToNoOne(outbox: seq<Notification>, order: Order, key: string, payload: Payload, now: Time)
    requires order.shipTo.phone.None?
    ensures forall n :: n in outbox + [OrdersRepo.NewNotification(key, OrdersService.Recipient(order), payload, now)] ==>
      n in outbox || n.toAddress == ""
  {
  }

  // ---------------------------------------------------------------------
  // Each transition is confined to its order.
  // ---------------------------------------------------------------------

  /** Pack and cancel change only the order's status: pack starts from PAYMENT_CONFIRMED, cancel never from a dispatched order. */
  lemma UpdateStatusConfined(s: Snapshot, orderId: Id, next: OrderStatus, actor: Id, reason: Option<string>, now: Time)
    requires RowsAgree(s, orderId)
    ensures var o := OrdersService.UpdateStatusOutcome(s, orderId, next, actor, reason, now);
      o.result.Ok? ==> Confined(s, o.state, orderId)
  {
    var o := OrdersService.UpdateStatusOutcome(s, orderId, next, actor, reason, now);
    if o.result.Ok? {
      var t := o.state;
      var cur := s.orders[orderId];
      assert t.orders[orderId].paymentStatus == cur.paymentStatus && t.orders[orderId].shipTo == cur.shipTo;
      NoticeToNoOne(s.outbox, cur, OrdersService.ManualNotice(next, cur.orderNumber, reason).0,
                    OrdersService.ManualNotice(next, cur.orderNumber, reason).1, now);
    }
  }

  /**
   * A verdict's transaction body changes only the order's rows: the order
   * was not dispatched, does not become dispatched, and becomes paid only
   * with a CONFIRMED payment.
   */
  lemma ApplyConfined(s: Snapshot, orderId: Id, pair: PaymentsService.Pair, verdict: PaymentStatus, extras: PaymentsRepo.Extras,
                      status: OrderStatus, action: string, templateKey: string, payload: Payload, actor: Id, now: Time)
    requires RowsAgree(s, orderId) && orderId in s.orders && orderId in s.payments && pair.order == s.orders[orderId]
    requires PaymentsRepo.IsVerdict(verdict) && orderId !in s.shipments && !Dispatched(status)
    requires Paid(status) ==> verdict == PayConfirmed
    ensures Confined(s, PaymentsService.Apply(s, orderId, pair, verdict, extras, status, action, templateKey, payload, actor, now).0, orderId)
  {
    var t := PaymentsService.Apply(s, orderId, pair, verdict, extras, status, action, templateKey, payload, actor, now).0;
    assert t.orders[orderId].shipTo == s.orders[orderId].shipTo;
    NoticeToNoOne(s.outbox, pair.order, templateKey, payload, now);
  }

  /** Confirm changes only the order's rows, and makes both CONFIRMED from an undispatched order. */
  lemma ConfirmConfined(s: Snapshot, orderId: Id, body: PaymentsService.ConfirmBody, actor: Id, now: Time)
    requires RowsAgree(s, orderId)
    ensures var o := PaymentsService.ConfirmOutcome(s, orderId, body, actor, now);
      o.result.Ok? ==> Confined(s, o.state, orderId)
  {
    var o := PaymentsService.ConfirmOutcome(s, orderId, body, actor, now);
    if o.result.Ok? {
      var pair := PaymentsService.Pair(s.orders[orderId], s.payments[orderId]);
      var extras := PaymentsRepo.Extras(Some(now), Defined(Some(actor)), Undefined,
                                        Defined(PaymentsService.ConfirmedReference(body.utr, pair.payment.referenceText)));
      ApplyConfined(s, orderId, pair, PayConfirmed, extras, PaymentConfirmed, "CONFIRM_PAYMENT",
                    "payment_confirmed", OrderRef(pair.order.orderNumber), actor, now);
    }
  }

  /**
   * Reject changes only the order's rows: a SUBMITTED payment means the
   * order was not paid, so not dispatched, and both become REJECTED.
   */
  lemma RejectConfined(s: Snapshot, orderId: Id, reason: string, actor: Id, now: Time)
    requires RowsAgree(s, orderId)
    ensures var o := PaymentsService.RejectOutcome(s, orderId, reason, actor, now);
      o.result.Ok? ==> Confined(s, o.state, orderId)
  {
    var o := PaymentsService.RejectOutcome(s, orderId, reason, actor, now);
    if o.result.Ok? {
      var pair := PaymentsService.Pair(s.orders[orderId], s.payments[orderId]);
      var extras := PaymentsRepo.Extras(None, Undefined, Defined(reason), Undefined);
      ApplyConfined(s, orderId, pair, PayRejected, extras, PaymentSubmitted, "REJECT_PAYMENT",
                    "payment_rejected", OrderRefWithReason(pair.order.orderNumber, Some(reason)), actor, now);
    }
  }

  /** Ship changes only the order's rows: a PACKED order was paid, and it gains its shipment row as it becomes SHIPPED. */
  lemma ShipConfined(s: Snapshot, orderId: Id, body: ShipmentsService.ShipBody, actor: Id, newId: Id, now: Time)
    requires RowsAgree(s, orderId)
    ensures var o := ShipmentsService.ShipOutcome(s, orderId, body, actor, newId, now);
      o.result.Ok? ==> Confined(s, o.state, orderId)
  {
    var o := ShipmentsService.ShipOutcome(s, orderId, body, actor, newId, now);
    if o.result.Ok? {
      var t := o.state;
      var applied := ShipmentsService.ApplyShip(s, orderId, s.orders[orderId], body, actor, newId, now);
      assert t == applied.0;
      assert t.orders[orderId].shipTo == s.orders[orderId].shipTo;
      NoticeToNoOne(s.outbox, s.orders[orderId], "order_shipped",
                    OrderRefWithTracking(s.orders[orderId].orderNumber, body.trackingUrl), now);
    }
  }

  /** Deliver changes only the order's rows: SHIPPED becomes DELIVERED and the shipment row stays. */
  lemma DeliverConfined(s: Snapshot, orderId: Id, actor: Id, now: Time)
    requires RowsAgree(s, orderId)
    ensures var o := ShipmentsService.DeliverOutcome(s, orderId, actor, now);
      o.result.Ok? ==> Confined(s, o.state, orderId)
  {
    var o := ShipmentsService.DeliverOutcome(s, orderId, actor, now);
    if o.result.Ok? {
      var t := o.state;
      var applied := ShipmentsService.ApplyDeliver(s, orderId, s.orders[orderId], s.shipments[orderId], actor, now);
      assert t == applied.0;
      assert t.orders[orderId].shipTo == s.orders[orderId].shipTo;
      NoticeToNoOne(s.outbox, s.orders[orderId], "order_delivered", OrderRef(s.orders[orderId].orderNumber), now);
    }
  }

  /**
   * Proof submission changes only the order's rows: an unconfirmed
   * payment means an unpaid, undispatched order, and both become
   * SUBMITTED.
   */
  lemma SubmitProofConfined(s: Snapshot, orderId: Id, userId: Id, mime: string, url: string,
                            referenceText: Option<string>, now: Time)
    requires RowsAgree(s, orderId)
    ensures var o := CustomerOrdersService.SubmitPaymentProofOutcome(s, orderId, userId, mime, url, referenceText, now);
      o.result.Ok? ==> Confined(s, o.state, orderId)
  {
    var o := CustomerOrdersService.SubmitPaymentProofOutcome(s, orderId, userId, mime, url, referenceText, now);
    CustomerOrdersService.SubmitPaymentProofSpec(s, orderId, userId, mime, url, referenceText, now);
    CustomerPaymentsRepo.SubmitProofSpec(s, orderId, url, referenceText, now);
    if o.result.Ok? {
      var t := o.state;
      assert t.orders[orderId].shipTo == s.orders[orderId].shipTo;
      assert s.orders[orderId].paymentStatus != PayConfirmed;
    }
  }

  /**
   * Checkout adds one order under an unused id: it is PLACED with payment
   * NONE and no phone, its payment row is NONE, its items point at it,
   * it has no shipment, and no notification is queued.
   */
  lemma PlaceOrderConfined(s: Snapshot, cat: CustomerOrdersService.Catalog, userId: Id, lines: seq<CustomerOrdersService.CartLine>,
                           addressId: Id, orderId: Id, orderNumber: string, intentUrl: string,
                           itemIds: seq<Id>, paymentId: Id, now: Time)
    requires |itemIds| == |lines|
    requires RowsAgree(s, orderId)
    ensures var o := CustomerOrdersService.PlaceOrderOutcome(s, cat, userId, lines, addressId, orderId, orderNumber, intentUrl,
                                                             itemIds, paymentId, now);
      o.result.Ok? ==> Confined(s, o.state, orderId)
  {
    var o := CustomerOrdersService.PlaceOrderOutcome(s, cat, userId, lines, addressId, orderId, orderNumber, intentUrl,
                                                     itemIds, paymentId, now);
    if o.result.Ok? {
      CustomerOrdersService.PlaceOrderCommits(s, cat, userId, lines, addressId, orderId, orderNumber, intentUrl, itemIds, paymentId, now);
      var rows := CustomerOrdersService.CheckoutRows(cat, userId, lines, addressId, orderId, orderNumber, intentUrl);
      CommitConfined(s, userId, orderId, rows.0, CustomerOrdersService.Priced(cat.products, cat.variants, lines).value.0, rows.1,
                     itemIds, paymentId, now);
    }
  }

  /**
   * The commit of a new PLACED order with payment NONE and no phone, and
   * of its NONE payment, is confined to that order.
   */
  lemma CommitConfined(s: Snapshot, userId: Id, orderId: Id, row: CustomerOrdersRepo.CreateOrderRow,
                       snaps: seq<CustomerOrdersRepo.ItemSnapshot>, payment: CustomerOrdersRepo.CreatePaymentRow,
                       itemIds: seq<Id>, paymentId: Id, now: Time)
    requires |itemIds| == |snaps| && row.id == orderId && RowsAgree(s, orderId)
    requires row.status == Placed && row.paymentStatus == PayNone && row.shipTo.phone.None? && payment.status == PayNone
    requires CustomerOrdersService.CommitOutcome(s, userId, orderId, row, snaps, payment, itemIds, paymentId, now).result.Ok?
    ensures Confined(s, CustomerOrdersService.CommitOutcome(s, userId, orderId, row, snaps, payment, itemIds, paymentId, now).state, orderId)
  {
    CustomerOrdersService.CommitCommitted(s, userId, orderId, row, snaps, payment, itemIds, paymentId, now);
    var rows := CustomerOrdersRepo.ItemRows(orderId, snaps, itemIds);
    assert forall it :: it in rows ==> it.orderId == orderId;
  }

  // ---------------------------------------------------------------------
  // Runs.
  // ---------------------------------------------------------------------

  /** One call of a lifecycle operation, with its arguments. */
  datatype Step =
    | UpdateStatus(orderId: Id, next: OrderStatus, actor: Id, reason: Option<string>, now: Time)
    | Confirm(orderId: Id, body: PaymentsService.ConfirmBody, actor: Id, now: Time)
    | Reject(orderId: Id, rejection: string, actor: Id, now: Time)
    | Ship(orderId: Id, ship: ShipmentsService.ShipBody, actor: Id, newId: Id, now: Time)
    | Deliver(orderId: Id, actor: Id, now: Time)
    | SubmitProof(orderId: Id, userId: Id, mime: string, url: string, referenceText: Option<string>, now: Time)
    | PlaceOrder(cat: CustomerOrdersService.Catalog, userId: Id, lines: seq<CustomerOrdersService.CartLine>, addressId: Id,
                 orderId: Id, orderNumber: string, intentUrl: string, itemIds: seq<Id>, paymentId: Id, now: Time)

  /** A checkout step carries one fresh item id per cart line. */
  predicate WellFormed(step: Step) {
    step.PlaceOrder? ==> |step.itemIds| == |step.lines|
  }

  /** The tables after one step. */
  function After(s: Snapshot, step: Step): Snapshot
    requires WellFormed(step)
  {
    match step
    case UpdateStatus(orderId, next, actor, reason, now) => OrdersService.UpdateStatusOutcome(s, orderId, next, actor, reason, now).state
    case Confirm(orderId, body, actor, now) => PaymentsService.ConfirmOutcome(s, orderId, body, actor, now).state
    case Reject(orderId, reason, actor, now) => PaymentsService.RejectOutcome(s, orderId, reason, actor, now).state
    case Ship(orderId, body, actor, newId, now) => ShipmentsService.ShipOutcome(s, orderId, body, actor, newId, now).state
    case Deliver(orderId, actor, now) => ShipmentsService.DeliverOutcome(s, orderId, actor, now).state
    case SubmitProof(orderId, userId, mime, url, referenceText, now) =>
      CustomerOrdersService.SubmitPaymentProofOutcome(s, orderId, userId, mime, url, referenceText, now).state
    case PlaceOrder(cat, userId, lines, addressId, orderId, orderNumber, intentUrl, itemIds, paymentId, now) =>
      CustomerOrdersService.PlaceOrderOutcome(s, cat, userId, lines, addressId, orderId, orderNumber, intentUrl, itemIds, paymentId, now).state
  }

  /** The tables after a run of steps, first to last. */
  ghost function RunSteps(s: Snapshot, steps: seq<Step>): Snapshot
    requires forall i :: 0 <= i < |steps| ==> WellFormed(steps[i])
    decreases |steps|
  {
    if steps == [] then s
    else
      assert forall i :: 0 <= i < |steps[1..]| ==> steps[1..][i] == steps[i + 1];
      RunSteps(After(s, steps[0]), steps[1..])
  }

  /** Every step keeps the invariant: a refused step writes nothing, an accepted one is confined to its order. */
  lemma StepKeepsInv(s: Snapshot, step: Step)
    requires Inv(s) && WellFormed(step)
    ensures Inv(After(s, step))
  {
    assert RowsAgree(s, step.orderId);
    match step
    case UpdateStatus(orderId, next, actor, reason, now) =>
      UpdateStatusConfined(s, orderId, next, actor, reason, now);
      if OrdersService.UpdateStatusOutcome(s, orderId, next, actor, reason, now).result.Ok? {
        ConfinedKeepsInv(s, After(s, step), orderId);
      }
    case Confirm(orderId, body, actor, now) =>
      ConfirmKeepsInv(s, orderId, body, actor, now);
    case Reject(orderId, reason, actor, now) =>
      RejectKeepsInv(s, orderId, reason, actor, now);
    case Ship(orderId, body, actor, newId, now) =>
      ShipKeepsInv(s, orderId, body, actor, newId, now);
    case Deliver(orderId, actor, now) =>
      DeliverKeepsInv(s, orderId, actor, now);
    case SubmitProof(orderId, userId, mime, url, referenceText, now) =>
      SubmitProofKeepsInv(s, orderId, userId, mime, url, referenceText, now);
    case PlaceOrder(cat, userId, lines, addressId, orderId, orderNumber, intentUrl, itemIds, paymentId, now) =>
      PlaceOrderKeepsInv(s, cat, userId, lines, addressId, orderId, orderNumber, intentUrl, itemIds, paymentId, now);
  }

  /** `confirm` keeps the invariant. */
  lemma ConfirmKeepsInv(s: Snapshot, orderId: Id, body: PaymentsService.ConfirmBody, actor: Id, now: Time)
    requires Inv(s)
    ensures Inv(PaymentsService.ConfirmOutcome(s, orderId, body, actor, now).state)
  {
    var o := PaymentsService.ConfirmOutcome(s, orderId, body, actor, now);
    assert RowsAgree(s, orderId);
    if o.result.Ok? {
      ConfirmConfined(s, orderId, body, actor, now);
      ConfinedKeepsInv(s, o.state, orderId);
    }
  }

  /** `reject` keeps the invariant. */
  lemma RejectKeepsInv(s: Snapshot, orderId: Id, reason: string, actor: Id, now: Time)
    requires Inv(s)
    ensures Inv(PaymentsService.RejectOutcome(s, orderId, reason, actor, now).state)
  {
    var o := PaymentsService.RejectOutcome(s, orderId, reason, actor, now);
    assert RowsAgree(s, orderId);
    if o.result.Ok? {
      RejectConfined(s, orderId, reason, actor, now);
      ConfinedKeepsInv(s, o.state, orderId);
    }
  }

  /** `upsertShipmentAndShip` keeps the invariant. */
  lemma ShipKeepsInv(s: Snapshot, orderId: Id, body: ShipmentsService.ShipBody, actor: Id, newId: Id, now: Time)
    requires Inv(s)
    ensures Inv(ShipmentsService.ShipOutcome(s, orderId, body, actor, newId, now).state)
  {
    var o := ShipmentsService.ShipOutcome(s, orderId, body, actor, newId, now);
    assert RowsAgree(s, orderId);
    if o.result.Ok? {
      ShipConfined(s, orderId, body, actor, newId, now);
      ConfinedKeepsInv(s, o.state, orderId);
    }
  }

  /** `markDelivered` keeps the invariant. */
  lemma DeliverKeepsInv(s: Snapshot, orderId: Id, actor: Id, now: Time)
    requires Inv(s)
    ensures Inv(ShipmentsService.DeliverOutcome(s, orderId, actor, now).state)
  {
    var o := ShipmentsService.DeliverOutcome(s, orderId, actor, now);
    assert RowsAgree(s, orderId);
    if o.result.Ok? {
      DeliverConfined(s, orderId, actor, now);
      ConfinedKeepsInv(s, o.state, orderId);
    }
  }

  /** `submitPaymentProof` keeps the invariant. */
  lemma SubmitProofKeepsInv(s: Snapshot, orderId: Id, userId: Id, mime: string, url: string,
                            referenceText: Option<string>, now: Time)
    requires Inv(s)
    ensures Inv(CustomerOrdersService.SubmitPaymentProofOutcome(s, orderId, userId, mime, url, referenceText, now).state)
  {
    var o := CustomerOrdersService.SubmitPaymentProofOutcome(s, orderId, userId, mime, url, referenceText, now);
    assert RowsAgree(s, orderId);
    CustomerOrdersService.SubmitPaymentProofSpec(s, orderId, userId, mime, url, referenceText, now);
    if o.result.Ok? {
      SubmitProofConfined(s, orderId, userId, mime, url, referenceText, now);
      ConfinedKeepsInv(s, o.state, orderId);
    }
  }

  /** `placeOrder` keeps the invariant. */
  lemma PlaceOrderKeepsInv(s: Snapshot, cat: CustomerOrdersService.Catalog, userId: Id, lines: seq<CustomerOrdersService.CartLine>,
                           addressId: Id, orderId: Id, orderNumber: string, intentUrl: string,
                           itemIds: seq<Id>, paymentId: Id, now: Time)
    requires Inv(s) && |itemIds| == |lines|
    ensures Inv(CustomerOrdersService.PlaceOrderOutcome(s, cat, userId, lines, addressId, orderId, orderNumber, intentUrl,
                                                        itemIds, paymentId, now).state)
  {
    var o := CustomerOrdersService.PlaceOrderOutcome(s, cat, userId, lines, addressId, orderId, orderNumber, intentUrl,
                                                     itemIds, paymentId, now);
    assert RowsAgree(s, orderId);
    CustomerOrdersService.PlaceOrderRefusals(s, cat, userId, lines, addressId, orderId, orderNumber, intentUrl, itemIds, paymentId, now);
    if o.result.Ok? {
      PlaceOrderConfined(s, cat, userId, lines, addressId, orderId, orderNumber, intentUrl, itemIds, paymentId, now);
      ConfinedKeepsInv(s, o.state, orderId);
    }
  }

  /** Every run keeps the invariant. */
  lemma {:induction false} RunKeepsInv(s: Snapshot, steps: seq<Step>)
    requires Inv(s) && forall i :: 0 <= i < |steps| ==> WellFormed(steps[i])
    ensures Inv(RunSteps(s, steps))
    decreases |steps|
  {
    if steps != [] {
      StepKeepsInv(s, steps[0]);
      assert forall i :: 0 <= i < |steps[1..]| ==> steps[1..][i] == steps[i + 1];
      RunKeepsInv(After(s, steps[0]), steps[1..]);
    }
  }

  /**
   * From an empty database, whatever operations run: a fulfilled order's
   * payment is CONFIRMED, and no notification has a recipient, because
   * checkout never stores a phone.
   */
  lemma ReachableStates(steps: seq<Step>)
    requires forall i :: 0 <= i < |steps| ==> WellFormed(steps[i])
    ensures var s := RunSteps(Empty, steps);
      && (forall id :: id in s.orders && Paid(s.orders[id].status) ==> s.orders[id].paymentStatus == PayConfirmed)
      && (forall n :: n in s.outbox ==> n.toAddress == "")
  {
    EmptyInv();
    RunKeepsInv(Empty, steps);
    InvPaidConfirmed(RunSteps(Empty, steps));
  }

  /** Under the invariant every paid order's payment status is CONFIRMED and no notification has a recipient. */
  lemma InvPaidConfirmed(s: Snapshot)
    requires Inv(s)
    ensures && (forall id :: id in s.orders && Paid(s.orders[id].status) ==> s.orders[id].paymentStatus == PayConfirmed)
            && (forall n :: n in s.outbox ==> n.toAddress == "")
  {
    forall id | id in s.orders && Paid(s.orders[id].status)
      ensures s.orders[id].paymentStatus == PayConfirmed
    {
      assert RowsAgree(s, id);
    }
  }

  // ---------------------------------------------------------------------
  // What the invariant implies for the transitions.
  // ---------------------------------------------------------------------

  /** Under the invariant a SHIPPED order has its shipment row, so `markDelivered` never rolls back. */
  lemma DeliverNeverRollsBack(s: Snapshot, orderId: Id, actor: Id, now: Time)
    requires Inv(s)
    ensures ShipmentsService.DeliverOutcome(s, orderId, actor, now).journal != [BeginStmt, RollbackStmt]
  {
    assert RowsAgree(s, orderId);
    ShipmentsService.DeliverSpec(s, orderId, actor, now);
  }

  /** Under the invariant a PACKED order has no shipment row yet, so shipping always creates one. */
  lemma ShipAlwaysCreates(s: Snapshot, orderId: Id, body: ShipmentsService.ShipBody, actor: Id, newId: Id, now: Time)
    requires Inv(s) && ShipmentsService.ShipOutcome(s, orderId, body, actor, newId, now).result.Ok?
    ensures var t := ShipmentsService.ShipOutcome(s, orderId, body, actor, newId, now).state;
      t.audit[|s.audit|].action == "CREATE_SHIPMENT" && t.shipments[orderId].id == newId
  {
    assert RowsAgree(s, orderId);
    ShipmentsService.ShipSpec(s, orderId, body, actor, newId, now);
  }

  /** Under the invariant a proof is accepted only while the order is PLACED or PAYMENT_SUBMITTED. */
  lemma ProofOnlyBeforeConfirmation(s: Snapshot, orderId: Id, userId: Id, mime: string, url: string,
                                    referenceText: Option<string>, now: Time)
    requires Inv(s)
    requires CustomerOrdersService.SubmitPaymentProofOutcome(s, orderId, userId, mime, url, referenceText, now).result.Ok?
    ensures s.orders[orderId].status == Placed || s.orders[orderId].status == PaymentSubmitted
  {
    assert RowsAgree(s, orderId);
    CustomerOrdersService.SubmitPaymentProofSpec(s, orderId, userId, mime, url, referenceText, now);
  }

  /** Cancelling an order whose proof awaits review, then rejecting that proof, puts the order back to PAYMENT_SUBMITTED. */
  lemma CancelThenReject(s: Snapshot, orderId: Id, owner: Id, reason: string, t1: Time, t2: Time)
    requires orderId in s.orders && s.orders[orderId].status == PaymentSubmitted
    requires orderId in s.payments && s.payments[orderId].status == PaySubmitted
    ensures var s1 := OrdersService.UpdateStatusOutcome(s, orderId, Cancelled, owner, None, t1).state;
      var s2 := PaymentsService.RejectOutcome(s1, orderId, reason, owner, t2).state;
      && orderId in s1.orders && s1.orders[orderId].status == Cancelled
      && orderId in s2.orders && s2.orders[orderId].status == PaymentSubmitted
      && s2.orders[orderId].userId == s.orders[orderId].userId
      && orderId in s2.payments && s2.payments[orderId].status == PayRejected
  {
    var s1 := OrdersService.UpdateStatusOutcome(s, orderId, Cancelled, owner, None, t1).state;
    assert s1.payments == s.payments && s1.orders[orderId].userId == s.orders[orderId].userId;
    PaymentsService.RejectRevivesCancelled(s1, orderId, reason, owner, t2);
  }

  /** A rejected payment of a PAYMENT_SUBMITTED order takes a new proof, and a confirm then makes the order PAYMENT_CONFIRMED. */
  lemma ProofThenConfirm(s: Snapshot, orderId: Id, userId: Id, owner: Id, mime: string, url: string, t3: Time, t4: Time)
    requires CustomerOrdersRepo.Owns(s, orderId, userId) && s.orders[orderId].status == PaymentSubmitted
    requires orderId in s.payments && s.payments[orderId].status == PayRejected
    requires CustomerOrdersService.AllowedImage(mime)
    ensures var s3 := CustomerOrdersService.SubmitPaymentProofOutcome(s, orderId, userId, mime, url, None, t3).state;
      var o4 := PaymentsService.ConfirmOutcome(s3, orderId, PaymentsService.ConfirmBody(None, None), owner, t4);
      o4.result.Ok? && orderId in o4.state.orders && o4.state.orders[orderId].status == PaymentConfirmed
  {
    CustomerOrdersService.SubmitPaymentProofSpec(s, orderId, userId, mime, url, None, t3);
    CustomerPaymentsRepo.SubmitProofSpec(s, orderId, url, None, t3);
    var s3 := CustomerOrdersService.SubmitPaymentProofOutcome(s, orderId, userId, mime, url, None, t3).state;
    PaymentsService.ConfirmSpec(s3, orderId, PaymentsService.ConfirmBody(None, None), owner, t4);
  }

  /**
   * A cancelled order comes back: cancel an order whose proof awaits
   * review, reject the proof (reject checks only the payment, not the
   * order), and the order is PAYMENT_SUBMITTED again; its owner's new
   * proof is accepted and a confirm makes it PAYMENT_CONFIRMED, ready to
   * pack.
   */
  lemma CancelledOrderRevived(s: Snapshot, orderId: Id, userId: Id, owner: Id, reason: string,
                              mime: string, url: string, t1: Time, t2: Time, t3: Time, t4: Time)
    requires CustomerOrdersRepo.Owns(s, orderId, userId) && s.orders[orderId].status == PaymentSubmitted
    requires orderId in s.payments && s.payments[orderId].status == PaySubmitted
    requires CustomerOrdersService.AllowedImage(mime)
    ensures var s1 := OrdersService.UpdateStatusOutcome(s, orderId, Cancelled, owner, None, t1).state;
      var s2 := PaymentsService.RejectOutcome(s1, orderId, reason, owner, t2).state;
      var s3 := CustomerOrdersService.SubmitPaymentProofOutcome(s2, orderId, userId, mime, url, None, t3).state;
      var o4 := PaymentsService.ConfirmOutcome(s3, orderId, PaymentsService.ConfirmBody(None, None), owner, t4);
      && orderId in s1.orders && s1.orders[orderId].status == Cancelled
      && orderId in s2.orders && s2.orders[orderId].status == PaymentSubmitted
      && o4.result.Ok? && orderId in o4.state.orders && o4.state.orders[orderId].status == PaymentConfirmed
  {
    CancelThenReject(s, orderId, owner, reason, t1, t2);
    var s1 := OrdersService.UpdateStatusOutcome(s, orderId, Cancelled, owner, None, t1).state;
    var s2 := PaymentsService.RejectOutcome(s1, orderId, reason, owner, t2).state;
    ProofThenConfirm(s2, orderId, userId, owner, mime, url, t3, t4);
  }
}
