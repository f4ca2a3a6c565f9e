/**
 * The owner's two shipping steps: ship a PACKED order (creating or
 * overwriting its shipment row) and mark a SHIPPED order delivered. Each
 * writes the shipment row, the order row, two audit rows and one customer
 * notification in one transaction.
 */
module ShipmentsService {
  import opened Wrappers
  import opened Db
  import opened Errors
  import opened Tx
  import AuditService
  import OrdersRepo
  import ShipmentsRepo
  import OrdersService

  const ShipNeedsPacked := ThrowLegacy(Conflict, 409, "Order must be PACKED to ship")
  const DeliverNeedsShipped := ThrowLegacy(Conflict, 409, "Only SHIPPED orders can be delivered")
  const ShipmentMissing := ThrowLegacy(Conflict, 409, "Shipment record missing")

  /** The order and shipment both steps return. */
  datatype Fulfilment = Fulfilment(order: Order, shipment: Shipment)

  /** The ship form: courier, AWB number and an optional tracking URL. */
  datatype ShipBody = ShipBody(courierName: string, awbNumber: string, trackingUrl: Option<string>)

  /** The audit action on the shipment row: an update when a row was already there. */
  function ShipmentAction(existing: Option<Shipment>): (a: string)
    ensures a == "UPDATE_SHIPMENT" <==> existing.Some?
    ensures a == "CREATE_SHIPMENT" <==> existing.None?
  {
    if existing.Some? then "UPDATE_SHIPMENT" else "CREATE_SHIPMENT"
  }

  /** The audit document of the row read before the upsert; no row is stored as null. */
  function Previous(orderId: Id, existing: Option<Shipment>): (j: Option<Json>)
    ensures existing.None? ==> j.None?
    ensures existing.Some? ==> j == Some(JShipment(orderId, existing.value))
  {
    if existing.Some? then Some(JShipment(orderId, existing.value)) else None
  }

  /** The tables after the ship transaction's body and what it returns. */
  function ApplyShip(s: Snapshot, orderId: Id, order: Order, body: ShipBody, actor: Id, newId: Id, now: Time)
    : (Snapshot, Fulfilment)
  {
    var existing := if orderId in s.shipments then Some(s.shipments[orderId]) else None;
    var input := ShipmentsRepo.ShipInput(body.courierName, body.awbNumber, body.trackingUrl, now);
    var shipments := ShipmentsRepo.Upserted(s.shipments, orderId, input, newId, now);
    var orders := OrdersRepo.WithStatus(s.orders, orderId, Shipped, now);
    var updated := Fulfilment(if orderId in orders then orders[orderId] else order, shipments[orderId]);
    var audit := s.audit
      + [AuditService.Entry(actor, "shipment", updated.shipment.id, ShipmentAction(existing),
                            Previous(orderId, existing), Some(JShipment(orderId, updated.shipment)), now)]
      + [AuditService.Entry(actor, "order", orderId, "SHIP",
                            Some(JOrder(orderId, order)), Some(JOrder(orderId, updated.order)), now)];
    var outbox := s.outbox + [OrdersRepo.NewNotification("order_shipped", OrdersService.Recipient(order),
                                                         OrderRefWithTracking(order.orderNumber, updated.shipment.trackingUrl), now)];
    (s.(orders := orders, shipments := shipments, audit := audit, outbox := outbox), updated)
  }

  /**
   * `upsertShipmentAndShip(orderId, body, actor)`: a missing order is NOT
   * FOUND and an order that is not PACKED a CONFLICT, with nothing written.
   * Otherwise, in one transaction, the shipment row is created or
   * overwritten with the courier, AWB, tracking URL and the current time
   * as ship time, the order becomes SHIPPED, a shipment audit row and a
   * SHIP order audit row and one `order_shipped` notification are appended.
   */
  function ShipOutcome(s: Snapshot, orderId: Id, body: ShipBody, actor: Id, newId: Id, now: Time): Outcome<Fulfilment>
  {
    if orderId !in s.orders then Refused(s, OrdersService.OrderNotFound)
    else if s.orders[orderId].status != Packed then Refused(s, ShipNeedsPacked)
    else
      var applied := ApplyShip(s, orderId, s.orders[orderId], body, actor, newId, now);
      WithTx(s, applied.0, Ok(applied.1))
  }

  /** What `upsertShipmentAndShip` promises, from every starting state. */
  lemma ShipSpec(s: Snapshot, orderId: Id, body: ShipBody, actor: Id, newId: Id, now: Time)
    ensures var o := ShipOutcome(s, orderId, body, actor, newId, now);
      o.state.orders.Keys == s.orders.Keys && o.state.payments == s.payments && o.state.items == s.items
    ensures var o := ShipOutcome(s, orderId, body, actor, newId, now);
      o.result.Err? ==> o.state == s && o.journal == []
    ensures var o := ShipOutcome(s, orderId, body, actor, newId, now);
      orderId !in s.orders ==> o.result == Err(OrdersService.OrderNotFound)
    ensures var o := ShipOutcome(s, orderId, body, actor, newId, now);
      o.result.Ok? <==> orderId in s.orders && s.orders[orderId].status == Packed
    ensures var o := ShipOutcome(s, orderId, body, actor, newId, now);
      o.result.Ok? ==>
      var ord, sh := o.state.orders[orderId], o.state.shipments[orderId];
      && o.journal == [BeginStmt, CommitStmt]
      && o.result.value == Fulfilment(ord, sh)
      && ord.status == Shipped && ord.paymentStatus == s.orders[orderId].paymentStatus
      && o.state.shipments.Keys == s.shipments.Keys + {orderId}
      && sh.courierName == Some(body.courierName) && sh.awbNumber == Some(body.awbNumber)
      && sh.trackingUrl == body.trackingUrl && sh.shippedAt == Some(now)
      && (orderId in s.shipments ==> sh.id == s.shipments[orderId].id)
      && (orderId !in s.shipments ==> sh.id == newId && sh.deliveredAt.None?)
      && |o.state.audit| == |s.audit| + 2 && o.state.audit[..|s.audit|] == s.audit
      && o.state.audit[|s.audit|].entity == "shipment" && o.state.audit[|s.audit|].entityId == sh.id
      && o.state.audit[|s.audit|].action == (if orderId in s.shipments then "UPDATE_SHIPMENT" else "CREATE_SHIPMENT")
      && o.state.audit[|s.audit|].before == (if orderId in s.shipments then JShipment(orderId, s.shipments[orderId]) else JNull)
      && o.state.audit[|s.audit| + 1].entity == "order" && o.state.audit[|s.audit| + 1].action == "SHIP"
      && o.state.outbox == s.outbox + [OrdersRepo.NewNotification("order_shipped", OrdersService.Recipient(s.orders[orderId]),
                                                                   OrderRefWithTracking(s.orders[orderId].orderNumber, body.trackingUrl), now)]
  {
  }

  /** The ship transaction's body: upsert, order status, the two audit rows and the notification, in that order. */
  method ApplyShipTx(db: Database, orderId: Id, order: Order, body: ShipBody, actor: Id, newId: Id, now: Time)
    returns (updated: Fulfilment)
    requires orderId in db.orders
    modifies db`orders, db`shipments, db`audit, db`outbox
    ensures var applied := ApplyShip(old(db.View()), orderId, order, body, actor, newId, now);
      db.View() == applied.0 && updated == applied.1
  {
    var existing, shipment, updatedOrder := ShipRowsTx(db, orderId, body, newId, now);
    AuditService.Append(db, actor, "shipment", shipment.id, ShipmentAction(existing),
                        Previous(orderId, existing), Some(JShipment(orderId, shipment)), now);
    AuditService.Append(db, actor, "order", orderId, "SHIP",
                        Some(JOrder(orderId, order)), Some(JOrder(orderId, updatedOrder.value)), now);
    OrdersRepo.EnqueueNotificationTx(db, "order_shipped", OrdersService.Recipient(order),
                                     OrderRefWithTracking(order.orderNumber, shipment.trackingUrl), now);
    updated := Fulfilment(updatedOrder.value, shipment);
  }

  /** The first two statements of the ship transaction: upsert the shipment row, then mark the order SHIPPED. */
  method ShipRowsTx(db: Database, orderId: Id, body: ShipBody, newId: Id, now: Time)
    returns (existing: Option<Shipment>, shipment: Shipment, updatedOrder: Option<Order>)
    requires orderId in db.orders
    modifies db`orders, db`shipments
    ensures existing == (if orderId in old(db.shipments) then Some(old(db.shipments)[orderId]) else None)
    ensures db.shipments == ShipmentsRepo.Upserted(old(db.shipments), orderId,
      ShipmentsRepo.ShipInput(body.courierName, body.awbNumber, body.trackingUrl, now), newId, now)
    ensures db.orders == OrdersRepo.WithStatus(old(db.orders), orderId, Shipped, now)
    ensures orderId in db.orders && updatedOrder == Some(db.orders[orderId])
    ensures orderId in db.shipments && shipment == db.shipments[orderId]
  {
    existing := ShipmentsRepo.GetByOrderId(db, orderId);
    shipment := ShipmentsRepo.UpsertTx(db, orderId,
      ShipmentsRepo.ShipInput(body.courierName, body.awbNumber, body.trackingUrl, now), newId, now);
    updatedOrder := OrdersRepo.UpdateStatusTx(db, orderId, Shipped, now);
  }

  /** The transaction of `upsertShipmentAndShip`, step by step on the shared client. */
  method Ship(db: Database, orderId: Id, body: ShipBody, actor: Id, newId: Id, now: Time) returns (r: Result<Fulfilment>)
    modifies db`orders, db`shipments, db`audit, db`outbox, db`journal, db`savepoint
    ensures var o := ShipOutcome(old(db.View()), orderId, body, actor, newId, now);
      db.View() == o.state && r == o.result && db.journal == old(db.journal) + o.journal
  {
    var order := OrdersRepo.GetById(db, orderId);
    if order.None? {
      r := Err(OrdersService.OrderNotFound);
      return;
    }
    if order.value.status != Packed {
      r := Err(ShipNeedsPacked);
      return;
    }
    var updated := ShipTx(db, orderId, order.value, body, actor, newId, now);
    r := Ok(updated);
  }

  /** BEGIN, the ship transaction's body, COMMIT. */
  method ShipTx(db: Database, orderId: Id, order: Order, body: ShipBody, actor: Id, newId: Id, now: Time)
    returns (updated: Fulfilment)
    requires orderId in db.orders
    modifies db`orders, db`shipments, db`audit, db`outbox, db`journal, db`savepoint
    ensures var applied := ApplyShip(old(db.View()), orderId, order, body, actor, newId, now);
      db.View() == applied.0 && updated == applied.1 && db.journal == old(db.journal) + [BeginStmt, CommitStmt]
  {
    Begin(db);
    updated := ApplyShipTx(db, orderId, order, body, actor, newId, now);
    Commit(db);
  }

  /** Shipping twice is refused the second time: the order is no longer PACKED. */
  lemma {:induction false} SecondShipRefused(s: Snapshot, orderId: Id, body: ShipBody, actor: Id, id1: Id, id2: Id, t1: Time, t2: Time)
    requires ShipOutcome(s, orderId, body, actor, id1, t1).result.Ok?
    ensures var s1 := ShipOutcome(s, orderId, body, actor, id1, t1).state;
      var o := ShipOutcome(s1, orderId, body, actor, id2, t2);
      o.result == Err(ShipNeedsPacked) && o.state == s1
  {
    ShipSpec(s, orderId, body, actor, id1, t1);
  }

  /** The tables after the deliver transaction's body and what it returns. */
  function ApplyDeliver(s: Snapshot, orderId: Id, order: Order, shipment: Shipment, actor: Id, now: Time)
    : (Snapshot, Fulfilment)
  {
    var shipments := ShipmentsRepo.WithDelivered(s.shipments, orderId, now, now);
    var orders := OrdersRepo.WithStatus(s.orders, orderId, Delivered, now);
    var updated := Fulfilment(if orderId in orders then orders[orderId] else order,
                           if orderId in shipments then shipments[orderId] else shipment);
    var audit := s.audit
      + [AuditService.Entry(actor, "shipment", shipment.id, "DELIVER",
                            Some(JShipment(orderId, shipment)), Some(JShipment(orderId, updated.shipment)), now)]
      + [AuditService.Entry(actor, "order", orderId, "DELIVER",
                            Some(JOrder(orderId, order)), Some(JOrder(orderId, updated.order)), now)];
    var outbox := s.outbox + [OrdersRepo.NewNotification("order_delivered", OrdersService.Recipient(order),
                                                         OrderRef(order.orderNumber), now)];
    (s.(orders := orders, shipments := shipments, audit := audit, outbox := outbox), updated)
  }

  /**
   * `markDelivered(orderId, actor)`: a missing order is NOT FOUND and an
   * order that is not SHIPPED a CONFLICT, with nothing written. Otherwise
   * a transaction opens; a missing shipment row throws CONFLICT inside it
   * and the transaction is rolled back. With the row, the shipment and the
   * order are stamped delivered now, two DELIVER audit rows and one
   * `order_delivered` notification are appended.
   */
  function DeliverOutcome(s: Snapshot, orderId: Id, actor: Id, now: Time): Outcome<Fulfilment>
  {
    if orderId !in s.orders then Refused(s, OrdersService.OrderNotFound)
    else if s.orders[orderId].status != Shipped then Refused(s, DeliverNeedsShipped)
    else DeliverTxOutcome(s, orderId, s.orders[orderId], actor, now)
  }

  /** The transaction of `markDelivered`: rolled back when the shipment row is missing. */
  function DeliverTxOutcome(s: Snapshot, orderId: Id, order: Order, actor: Id, now: Time): Outcome<Fulfilment>
  {
    if orderId !in s.shipments then WithTx(s, s, Err(ShipmentMissing))
    else
      var applied := ApplyDeliver(s, orderId, order, s.shipments[orderId], actor, now);
      WithTx(s, applied.0, Ok(applied.1))
  }

  /** What `markDelivered` promises, from every starting state. */
  lemma DeliverSpec(s: Snapshot, orderId: Id, actor: Id, now: Time)
    ensures var o := DeliverOutcome(s, orderId, actor, now);
      o.state.orders.Keys == s.orders.Keys && o.state.shipments.Keys == s.shipments.Keys
      && o.state.payments == s.payments && o.state.items == s.items
    ensures var o := DeliverOutcome(s, orderId, actor, now);
      o.result.Err? ==> o.state == s
    ensures var o := DeliverOutcome(s, orderId, actor, now);
      o.journal == [BeginStmt, RollbackStmt] <==>
      orderId in s.orders && s.orders[orderId].status == Shipped && orderId !in s.shipments
    ensures var o := DeliverOutcome(s, orderId, actor, now);
      o.result.Ok? <==> orderId in s.orders && s.orders[orderId].status == Shipped && orderId in s.shipments
    ensures var o := DeliverOutcome(s, orderId, actor, now);
      o.result.Ok? ==>
      var ord, sh, before := o.state.orders[orderId], o.state.shipments[orderId], s.shipments[orderId];
      && o.journal == [BeginStmt, CommitStmt]
      && o.result.value == Fulfilment(ord, sh)
      && ord.status == Delivered && ord.paymentStatus == s.orders[orderId].paymentStatus
      && sh.deliveredAt == Some(now) && sh.id == before.id && sh.shippedAt == before.shippedAt
      && sh.trackingUrl == before.trackingUrl && sh.courierName == before.courierName && sh.awbNumber == before.awbNumber
      && |o.state.audit| == |s.audit| + 2 && o.state.audit[..|s.audit|] == s.audit
      && o.state.audit[|s.audit|].entity == "shipment" && o.state.audit[|s.audit|].action == "DELIVER"
      && o.state.audit[|s.audit| + 1].entity == "order" && o.state.audit[|s.audit| + 1].action == "DELIVER"
      && o.state.outbox == s.outbox + [OrdersRepo.NewNotification("order_delivered", OrdersService.Recipient(s.orders[orderId]),
                                                                   OrderRef(s.orders[orderId].orderNumber), now)]
  {
  }

  /** The deliver transaction's body once the shipment row has been read. */
  method ApplyDeliverTx(db: Database, orderId: Id, order: Order, shipment: Shipment, actor: Id, now: Time)
    returns (updated: Fulfilment)
    requires orderId in db.orders && orderId in db.shipments
    modifies db`orders, db`shipments, db`audit, db`outbox
    ensures var applied := ApplyDeliver(old(db.View()), orderId, order, shipment, actor, now);
      db.View() == applied.0 && updated == applied.1
  {
    var updatedShipment, updatedOrder := DeliverRowsTx(db, orderId, now);
    AuditService.Append(db, actor, "shipment", shipment.id, "DELIVER",
                        Some(JShipment(orderId, shipment)), Some(JShipment(orderId, updatedShipment.value)), now);
    AuditService.Append(db, actor, "order", orderId, "DELIVER",
                        Some(JOrder(orderId, order)), Some(JOrder(orderId, updatedOrder.value)), now);
    OrdersRepo.EnqueueNotificationTx(db, "order_delivered", OrdersService.Recipient(order), OrderRef(order.orderNumber), now);
    updated := Fulfilment(updatedOrder.value, updatedShipment.value);
  }

  /** The first two statements of the deliver transaction: stamp the shipment row, then mark the order DELIVERED. */
  method DeliverRowsTx(db: Database, orderId: Id, now: Time) returns (updatedShipment: Option<Shipment>, updatedOrder: Option<Order>)
    requires orderId in db.orders && orderId in db.shipments
    modifies db`orders, db`shipments
    ensures db.shipments == ShipmentsRepo.WithDelivered(old(db.shipments), orderId, now, now)
    ensures db.orders == OrdersRepo.WithStatus(old(db.orders), orderId, Delivered, now)
    ensures orderId in db.orders && updatedOrder == Some(db.orders[orderId])
    ensures orderId in db.shipments && updatedShipment == Some(db.shipments[orderId])
  {
    updatedShipment := ShipmentsRepo.SetDeliveredTx(db, orderId, now, now);
    updatedOrder := OrdersRepo.UpdateStatusTx(db, orderId, Delivered, now);
  }

  /** The transaction of `markDelivered`, step by step on the shared client; a missing row rolls it back. */
  method Deliver(db: Database, orderId: Id, actor: Id, now: Time) returns (r: Result<Fulfilment>)
    modifies db`orders, db`items, db`payments, db`shipments, db`audit, db`outbox, db`journal, db`savepoint
    ensures var o := DeliverOutcome(old(db.View()), orderId, actor, now);
      db.View() == o.state && r == o.result && db.journal == old(db.journal) + o.journal
  {
    var order := OrdersRepo.GetById(db, orderId);
    if order.None? {
      r := Err(OrdersService.OrderNotFound);
      return;
    }
    if order.value.status != Shipped {
      r := Err(DeliverNeedsShipped);
      return;
    }
    r := DeliverTx(db, orderId, order.value, actor, now);
  }

  /** BEGIN, the shipment row read inside the transaction, then ROLLBACK when it is missing or the body and COMMIT. */
  method DeliverTx(db: Database, orderId: Id, order: Order, actor: Id, now: Time) returns (r: Result<Fulfilment>)
    requires orderId in db.orders
    modifies db`orders, db`items, db`payments, db`shipments, db`audit, db`outbox, db`journal, db`savepoint
    ensures var o := DeliverTxOutcome(old(db.View()), orderId, order, actor, now);
      db.View() == o.state && r == o.result && db.journal == old(db.journal) + o.journal
  {
    Begin(db);
    var shipment := ShipmentsRepo.GetByOrderId(db, orderId);
    if shipment.None? {
      Rollback(db);
      r := Err(ShipmentMissing);
      return;
    }
    var updated := DeliverCommit(db, orderId, order, shipment.value, actor, now);
    r := Ok(updated);
  }

  /** The deliver transaction's body, then COMMIT. */
  method DeliverCommit(db: Database, orderId: Id, order: Order, shipment: Shipment, actor: Id, now: Time)
    returns (updated: Fulfilment)
    requires orderId in db.orders && orderId in db.shipments
    modifies db`orders, db`shipments, db`audit, db`outbox, db`journal
    ensures var applied := ApplyDeliver(old(db.View()), orderId, order, shipment, actor, now);
      db.View() == applied.0 && updated == applied.1 && db.journal == old(db.journal) + [CommitStmt]
  {
    updated := ApplyDeliverTx(db, orderId, order, shipment, actor, now);
    Commit(db);
  }

  /** Delivering twice is refused the second time: the order is no longer SHIPPED. */
  lemma {:induction false} SecondDeliverRefused(s: Snapshot, orderId: Id, actor: Id, t1: Time, t2: Time)
    requires DeliverOutcome(s, orderId, actor, t1).result.Ok?
    ensures var s1 := DeliverOutcome(s, orderId, actor, t1).state;
      var o := DeliverOutcome(s1, orderId, actor, t2);
      o.result == Err(DeliverNeedsShipped) && o.state == s1
  {
    DeliverSpec(s, orderId, actor, t1);
  }

  /** Ship then deliver: the row keeps what the ship wrote and gains the delivery time. */
  lemma {:induction false} ShipThenDeliver(s: Snapshot, orderId: Id, body: ShipBody, actor: Id, newId: Id, t1: Time, t2: Time)
    requires ShipOutcome(s, orderId, body, actor, newId, t1).result.Ok?
    ensures var s1 := ShipOutcome(s, orderId, body, actor, newId, t1).state;
      var o := DeliverOutcome(s1, orderId, actor, t2);
      && o.result.Ok?
      && o.state.orders[orderId].status == Delivered
      && o.state.shipments[orderId].trackingUrl == body.trackingUrl
      && o.state.shipments[orderId].shippedAt == Some(t1)
      && o.state.shipments[orderId].deliveredAt == Some(t2)
  {
    ShipSpec(s, orderId, body, actor, newId, t1);
    var s1 := ShipOutcome(s, orderId, body, actor, newId, t1).state;
    DeliverSpec(s1, orderId, actor, t2);
  }
}
