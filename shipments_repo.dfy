/**
 * The shipments repository: an order's shipment row, created on the first
 * ship and overwritten on a later one, and the delivery stamp.
 */
module ShipmentsRepo {
  import opened Wrappers
  import opened Db

  /** `getByOrderId` / `getByOrderIdTx`: the order's shipment, or null when there is none. */
  function GetByOrderId(db: Database, orderId: Id): (r: Option<Shipment>)
    reads db`shipments
    ensures r.None? <==> orderId !in db.shipments
    ensures r.Some? ==> r.value == db.shipments[orderId]
  {
    if orderId in db.shipments then Some(db.shipments[orderId]) else None
  }

  /** What the ship form supplies. */
  datatype ShipInput = ShipInput(courierName: string, awbNumber: string, trackingUrl: Option<string>, shippedAt: Time)

  /**
   * The shipments table after `upsertTx`: an existing row keeps its id,
   * creation time and delivery time and takes the new courier, AWB,
   * tracking URL and ship time; otherwise a row with the fresh id is
   * inserted with no delivery time. Either way the order has its one row.
   */
  function Upserted(shipments: map<Id, Shipment>, orderId: Id, input: ShipInput, newId: Id, now: Time)
    : (r: map<Id, Shipment>)
    ensures r.Keys == shipments.Keys + {orderId}
    ensures forall k :: k in shipments && k != orderId ==> r[k] == shipments[k]
    ensures r[orderId].courierName == Some(input.courierName) && r[orderId].awbNumber == Some(input.awbNumber)
    ensures r[orderId].trackingUrl == input.trackingUrl && r[orderId].shippedAt == Some(input.shippedAt)
    ensures r[orderId].updatedAt == now
    ensures orderId in shipments ==>
      && r[orderId].id == shipments[orderId].id
      && r[orderId].createdAt == shipments[orderId].createdAt
      && r[orderId].deliveredAt == shipments[orderId].deliveredAt
    ensures orderId !in shipments ==>
      r[orderId].id == newId && r[orderId].createdAt == now && r[orderId].deliveredAt.None?
  {
    if orderId in shipments then
      shipments[orderId := shipments[orderId].(
        courierName := Some(input.courierName), awbNumber := Some(input.awbNumber),
        trackingUrl := input.trackingUrl, shippedAt := Some(input.shippedAt), updatedAt := now)]
    else
      shipments[orderId := Shipment(newId, Some(input.courierName), Some(input.awbNumber), input.trackingUrl,
                                    Some(input.shippedAt), None, now, now)]
  }

  /** Shipping again with the same input changes nothing but the update time. */
  lemma UpsertAgainKeepsRow(shipments: map<Id, Shipment>, orderId: Id, input: ShipInput, id1: Id, id2: Id, t1: Time, t2: Time)
    ensures var once := Upserted(shipments, orderId, input, id1, t1);
      Upserted(once, orderId, input, id2, t2) == once[orderId := once[orderId].(updatedAt := t2)]
  {
  }

  /** `upsertTx(tx, orderId, input)`: update when the order has a row, insert otherwise; returns the row. */
  method UpsertTx(db: Database, orderId: Id, input: ShipInput, newId: Id, now: Time) returns (r: Shipment)
    modifies db`shipments
    ensures db.shipments == Upserted(old(db.shipments), orderId, input, newId, now)
    ensures orderId in db.shipments && r == db.shipments[orderId]
  {
    var existing := GetByOrderId(db, orderId);
    if existing.Some? {
      db.shipments := db.shipments[orderId := existing.value.(
        courierName := Some(input.courierName), awbNumber := Some(input.awbNumber),
        trackingUrl := input.trackingUrl, shippedAt := Some(input.shippedAt), updatedAt := now)];
    } else {
      db.shipments := db.shipments[orderId := Shipment(newId, Some(input.courierName), Some(input.awbNumber),
                                                       input.trackingUrl, Some(input.shippedAt), None, now, now)];
    }
    r := db.shipments[orderId];
  }

  /** The shipments table after `setDeliveredTx`: only delivered_at and updated_at change; shipped_at is not checked. */
  function WithDelivered(shipments: map<Id, Shipment>, orderId: Id, deliveredAt: Time, now: Time)
    : (r: map<Id, Shipment>)
    ensures r.Keys == shipments.Keys
    ensures forall k :: k in shipments && k != orderId ==> r[k] == shipments[k]
    ensures orderId in shipments ==>
      && r[orderId].deliveredAt == Some(deliveredAt) && r[orderId].updatedAt == now
      && r[orderId].(deliveredAt := shipments[orderId].deliveredAt, updatedAt := shipments[orderId].updatedAt)
         == shipments[orderId]
  {
    if orderId in shipments then shipments[orderId := shipments[orderId].(deliveredAt := Some(deliveredAt), updatedAt := now)]
    else shipments
  }

  /** Delivering after shipping keeps what the ship wrote and adds the delivery time. */
  lemma DeliverAfterUpsert(shipments: map<Id, Shipment>, orderId: Id, input: ShipInput, newId: Id, t1: Time, t2: Time)
    ensures var d := WithDelivered(Upserted(shipments, orderId, input, newId, t1), orderId, t2, t2)[orderId];
      && d.shippedAt == Some(input.shippedAt) && d.trackingUrl == input.trackingUrl
      && d.deliveredAt == Some(t2)
  {
  }

  /** `setDeliveredTx(tx, shipmentId, deliveredAt)`, the row addressed through its order; returns it. */
  method SetDeliveredTx(db: Database, orderId: Id, deliveredAt: Time, now: Time) returns (r: Option<Shipment>)
    modifies db`shipments
    ensures db.shipments == WithDelivered(old(db.shipments), orderId, deliveredAt, now)
    ensures r == GetByOrderId(db, orderId)
  {
    db.shipments := WithDelivered(db.shipments, orderId, deliveredAt, now);
    r := GetByOrderId(db, orderId);
  }
}
