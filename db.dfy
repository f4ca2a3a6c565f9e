/**
 * The rows of the shop's PostgreSQL database and the one shared client
 * every repository talks to. Tables are fields of `Database`; a row's
 * primary key is its map key. The payments and shipments tables are keyed
 * by their `order_id`, which is UNIQUE, so each order has at most one of
 * each; the row's own `id` is kept in the row.
 */
module Db {
  import opened Wrappers

  type Id = string
  /** A timestamp; the clock is an argument of every operation that reads it. */
  type Time = int

  datatype OrderStatus =
    | Placed
    | PaymentSubmitted
    | PaymentConfirmed
    | Packed
    | Shipped
    | Delivered
    | Cancelled

  datatype PaymentStatus = PayNone | PaySubmitted | PayConfirmed | PayRejected

  datatype ShipTo = ShipTo(
    name: Option<string>, phone: Option<string>,
    line1: Option<string>, line2: Option<string>,
    city: Option<string>, state: Option<string>,
    pincode: Option<string>, country: Option<string>)

  datatype Order = Order(
    orderNumber: string,
    userId: Id,
    status: OrderStatus,
    totalItemPaise: int,
    shippingPaise: int,
    discountPaise: int,
    totalPayablePaise: int,
    shipTo: ShipTo,
    paymentMethod: string,
    paymentStatus: PaymentStatus,
    createdAt: Time,
    updatedAt: Time)

  datatype OrderItem = OrderItem(
    id: Id,
    orderId: Id,
    productId: Id,
    variantId: Option<Id>,
    titleSnapshot: string,
    variantSnapshot: Option<string>,
    unitPricePaise: int,
    qty: int,
    lineTotalPaise: int)

  datatype Payment = Payment(
    id: Id,
    upiVpa: string,
    qrPayload: string,
    intentUrl: string,
    submittedAt: Option<Time>,
    screenshotUrl: Option<string>,
    referenceText: Option<string>,
    status: PaymentStatus,
    verifiedAt: Option<Time>,
    verifiedBy: Option<Id>,
    rejectionReason: Option<string>,
    createdAt: Time,
    updatedAt: Time)

  datatype Shipment = Shipment(
    id: Id,
    courierName: Option<string>,
    awbNumber: Option<string>,
    trackingUrl: Option<string>,
    shippedAt: Option<Time>,
    deliveredAt: Option<Time>,
    createdAt: Time,
    updatedAt: Time)

  /** The payment fields a customer sees, as `mapPaymentRow` shapes them. */
  datatype PaymentView = PaymentView(
    id: Id,
    upiVpa: string,
    qrPayload: string,
    intentUrl: string,
    submittedAt: Option<Time>,
    screenshotUrl: Option<string>,
    referenceText: Option<string>,
    status: PaymentStatus,
    verifiedAt: Option<Time>)

  datatype Product = Product(
    title: string,
    slug: string,
    category: string,
    pricePaise: int,
    description: Option<string>,
    authenticityNote: Option<string>,
    active: bool,
    stockQty: Option<int>,
    createdAt: Time,
    updatedAt: Time,
    deletedAt: Option<Time>)

  datatype Variant = Variant(productId: Id, labelText: string, pricePaise: Option<int>, sku: Option<string>, active: bool)

  datatype Address = Address(
    userId: Id,
    labelText: Option<string>,
    line1: Option<string>,
    line2: Option<string>,
    city: Option<string>,
    state: Option<string>,
    pincode: Option<string>,
    country: Option<string>,
    isDefault: bool,
    createdAt: Time,
    updatedAt: Time)

  datatype Role = Owner | Customer

  datatype User = User(role: Role, name: Option<string>, email: string, phone: string, passwordHash: Option<string>, isActive: bool)

  datatype Session = Session(
    id: Id,
    userId: Id,
    refreshHash: string,
    userAgent: Option<string>,
    ip: Option<string>,
    createdAt: Time,
    expiresAt: Time,
    revokedAt: Option<Time>,
    replacedBy: Option<Id>)

  /** The singleton `app_settings` row (its id is always "settings"). */
  datatype Settings = Settings(
    id: string,
    businessName: string,
    supportEmail: string,
    supportPhone: string,
    whatsappNumber: string,
    upiVpa: string,
    upiPayeeName: string,
    upiQrUrl: Option<string>,
    pickupAddress: string,
    currency: string,
    logoUrl: Option<string>,
    returnAddress: Option<string>,
    privacyUrl: Option<string>,
    termsUrl: Option<string>,
    returnPolicyUrl: Option<string>,
    createdAt: Time,
    updatedAt: Time)

  /** The JSON documents stored in an audit row's `before` and `after` columns. */
  datatype Json =
    | JNull
    | JOrder(orderId: Id, order: Order)
    | JPayment(paymentOrderId: Id, payment: Payment)
    | JShipment(shipmentOrderId: Id, shipment: Shipment)
    | JCheckout(checkoutOrderId: Id, placed: Order, items: seq<OrderItem>, paymentView: Option<PaymentView>)
    | JPaymentStatus(status: PaymentStatus)
    | JProof(proofStatus: PaymentStatus, screenshotUrl: string, referenceText: Option<string>)
    | JSettings(settings: Settings)

  datatype AuditEntry = AuditEntry(
    actorUserId: Id,
    entity: string,
    entityId: Id,
    action: string,
    before: Json,
    after: Json,
    createdAt: Time)

  /** The JSON payload of an outbox notification. */
  datatype Payload =
    | OrderRef(orderNumber: string)
    | OrderRefWithReason(orderNumber: string, reason: Option<string>)
    | OrderRefWithTracking(orderNumber: string, trackingUrl: Option<string>)

  datatype Notification = Notification(
    channel: string,
    toAddress: string,
    templateKey: string,
    payload: Payload,
    status: string,
    createdAt: Time,
    updatedAt: Time)

  /** The transaction-control statements sent on the shared client. */
  datatype TxStmt = BeginStmt | CommitStmt | RollbackStmt

  /** The tables the order lifecycle reads and writes inside its transactions. */
  datatype Snapshot = Snapshot(
    orders: map<Id, Order>,
    items: seq<OrderItem>,
    payments: map<Id, Payment>,
    shipments: map<Id, Shipment>,
    audit: seq<AuditEntry>,
    outbox: seq<Notification>)

  /** The single shared database client and the tables behind it. */
  class Database {
    var orders: map<Id, Order>
    var items: seq<OrderItem>
    var payments: map<Id, Payment>
    var shipments: map<Id, Shipment>
    var audit: seq<AuditEntry>
    var outbox: seq<Notification>
    var products: map<Id, Product>
    var variants: map<Id, Variant>
    var addresses: map<Id, Address>
    var users: map<Id, User>
    var sessions: seq<Session>
    var settings: Option<Settings>
    /** Every BEGIN, COMMIT and ROLLBACK issued, oldest first. */
    var journal: seq<TxStmt>
    /** The lifecycle tables as they were at the last BEGIN. */
    var savepoint: Snapshot

    function View(): Snapshot
      reads this`orders, this`items, this`payments, this`shipments, this`audit, this`outbox
    {
      Snapshot(orders, items, payments, shipments, audit, outbox)
    }

    constructor()
      ensures View() == Snapshot(map[], [], map[], map[], [], [])
      ensures products == map[] && variants == map[] && addresses == map[] && users == map[]
      ensures sessions == [] && settings == None && journal == []
    {
      orders, items, payments, shipments, audit, outbox := map[], [], map[], map[], [], [];
      products, variants, addresses, users, sessions, settings := map[], map[], map[], map[], [], None;
      journal := [];
      savepoint := Snapshot(map[], [], map[], map[], [], []);
    }
  }
}
