/**
 * The owner-side orders repository: reads of one order, the status updates
 * used inside lifecycle transactions, the notification outbox, and the
 * construction of the filtered, sorted and paged order listing.
 */
module OrdersRepo {
  import opened Wrappers
  import opened Db
  import opened Query
  import opened Placeholders

  /** `getById(orderId)`: the row, or null when there is none. */
  function GetById(db: Database, orderId: Id): (r: Option<Order>)
    reads db`orders
    ensures r.None? <==> orderId !in db.orders
    ensures r.Some? ==> r.value == db.orders[orderId]
  {
    if orderId in db.orders then Some(db.orders[orderId]) else None
  }

  /** The orders table after `UPDATE orders SET status, updated_at WHERE id`. */
  function WithStatus(orders: map<Id, Order>, orderId: Id, status: OrderStatus, now: Time): (r: map<Id, Order>)
    ensures r.Keys == orders.Keys
    ensures forall k :: k in orders && k != orderId ==> r[k] == orders[k]
    ensures orderId in orders ==>
      && r[orderId].status == status && r[orderId].updatedAt == now
      && r[orderId].(status := orders[orderId].status, updatedAt := orders[orderId].updatedAt) == orders[orderId]
  {
    if orderId in orders then orders[orderId := orders[orderId].(status := status, updatedAt := now)] else orders
  }

  /** `updateStatusTx(tx, orderId, status)`: changes only status and updated_at; returns the updated row. */
  method UpdateStatusTx(db: Database, orderId: Id, status: OrderStatus, now: Time) returns (r: Option<Order>)
    modifies db`orders
    ensures db.orders == WithStatus(old(db.orders), orderId, status, now)
    ensures r == GetById(db, orderId)
  {
    db.orders := WithStatus(db.orders, orderId, status, now);
    r := GetById(db, orderId);
  }

  /** The optional fields of `updateStatusesTx`; an absent field is not written. */
  datatype StatusFields = StatusFields(paymentStatus: Option<PaymentStatus>, status: Option<OrderStatus>)

  /** The orders table after `updateStatusesTx`: the supplied fields and updated_at change, nothing else. */
  function WithStatuses(orders: map<Id, Order>, orderId: Id, fields: StatusFields, now: Time): (r: map<Id, Order>)
    ensures r.Keys == orders.Keys
    ensures forall k :: k in orders && k != orderId ==> r[k] == orders[k]
    ensures orderId in orders ==>
      && r[orderId].paymentStatus == fields.paymentStatus.GetOr(orders[orderId].paymentStatus)
      && r[orderId].status == fields.status.GetOr(orders[orderId].status)
      && r[orderId].updatedAt == now
      && r[orderId].(status := orders[orderId].status, paymentStatus := orders[orderId].paymentStatus,
                     updatedAt := orders[orderId].updatedAt) == orders[orderId]
  {
    if orderId in orders then
      var o := orders[orderId];
      orders[orderId := o.(paymentStatus := fields.paymentStatus.GetOr(o.paymentStatus),
                           status := fields.status.GetOr(o.status), updatedAt := now)]
    else orders
  }

  /** Supplying only a status makes `updateStatusesTx` agree with `updateStatusTx`. */
  lemma StatusesGeneraliseStatus(orders: map<Id, Order>, orderId: Id, status: OrderStatus, now: Time)
    ensures WithStatuses(orders, orderId, StatusFields(None, Some(status)), now) == WithStatus(orders, orderId, status, now)
  {
  }

  /** `updateStatusesTx(tx, orderId, fields)`. */
  method UpdateStatusesTx(db: Database, orderId: Id, fields: StatusFields, now: Time) returns (r: Option<Order>)
    modifies db`orders
    ensures db.orders == WithStatuses(old(db.orders), orderId, fields, now)
    ensures r == GetById(db, orderId)
  {
    db.orders := WithStatuses(db.orders, orderId, fields, now);
    r := GetById(db, orderId);
  }

  /** The outbox row `enqueueNotificationTx` inserts: an SMS, pending, with the given address, template and payload. */
  function NewNotification(templateKey: string, toAddress: string, payload: Payload, now: Time): (n: Notification)
    ensures n.channel == "SMS" && n.status == "PENDING"
    ensures n.templateKey == templateKey && n.toAddress == toAddress && n.payload == payload
    ensures n.createdAt == now && n.updatedAt == now
  {
    Notification("SMS", toAddress, templateKey, payload, "PENDING", now, now)
  }

  /** `enqueueNotificationTx(tx, {template_key, to_address, payload})`: exactly one row is appended. */
  method EnqueueNotificationTx(db: Database, templateKey: string, toAddress: string, payload: Payload, now: Time)
    modifies db`outbox
    ensures db.outbox == old(db.outbox) + [NewNotification(templateKey, toAddress, payload, now)]
  {
    db.outbox := db.outbox + [NewNotification(templateKey, toAddress, payload, now)];
  }

  /** The filters `list` accepts. */
  datatype ListArgs = ListArgs(
    status: Option<OneOrMany>,
    paymentStatus: Option<OneOrMany>,
    from: Option<string>,
    to: Option<string>,
    q: Option<string>,
    page: int,
    limit: int,
    sort: Option<string>)

  /** The filters of the orders listing. */
  datatype OrderFilter = StatusIn | PaymentStatusIn | CreatedFrom | CreatedBefore | TextLike

  datatype SortKey = OrderNumberAsc | CreatedAtDesc | CreatedAtAsc

  /** The count and page statements `list` sends: shared conditions, then LIMIT and OFFSET placeholders. */
  datatype ListPlan = ListPlan(
    where: seq<Cond<OrderFilter>>,
    sort: SortKey,
    countParams: seq<Value>,
    listParams: seq<Value>,
    limitParam: nat,
    offsetParam: nat,
    page: int,
    pageSize: int)

  /** `order_number` ascending, newest first for "-created_at", oldest first otherwise. */
  function SortFor(sort: Option<string>): (k: SortKey)
    ensures k == OrderNumberAsc <==> sort == Some("order_number")
    ensures k == CreatedAtDesc <==> sort == Some("-created_at")
  {
    if sort == Some("order_number") then OrderNumberAsc
    else if sort == Some("-created_at") then CreatedAtDesc
    else CreatedAtAsc
  }

  /**
   * The filters the arguments ask for: a present status or payment status
   * becomes a list (a scalar a one-element list), a present date is
   * compared as given, a present search text is wrapped in `%`; falsy
   * arguments ask for nothing.
   */
  function Wanted(args: ListArgs): (w: map<OrderFilter, Value>)
    ensures StatusIn in w <==> PresentList(args.status)
    ensures PaymentStatusIn in w <==> PresentList(args.paymentStatus)
    ensures CreatedFrom in w <==> Present(args.from)
    ensures CreatedBefore in w <==> Present(args.to)
    ensures TextLike in w <==> Present(args.q)
    ensures StatusIn in w ==> w[StatusIn] == VTextList(AsList(args.status.value))
    ensures PaymentStatusIn in w ==> w[PaymentStatusIn] == VTextList(AsList(args.paymentStatus.value))
    ensures CreatedFrom in w ==> w[CreatedFrom] == VText(args.from.value)
    ensures CreatedBefore in w ==> w[CreatedBefore] == VText(args.to.value)
    ensures TextLike in w ==> w[TextLike] == VText("%" + args.q.value + "%")
  {
    var w0: map<OrderFilter, Value> := map[];
    var w1 := if PresentList(args.status) then w0[StatusIn := VTextList(AsList(args.status.GetOr(Many([]))))] else w0;
    var w2 := if PresentList(args.paymentStatus) then w1[PaymentStatusIn := VTextList(AsList(args.paymentStatus.GetOr(Many([]))))] else w1;
    var w3 := if Present(args.from) then w2[CreatedFrom := VText(args.from.GetOr(""))] else w2;
    var w4 := if Present(args.to) then w3[CreatedBefore := VText(args.to.GetOr(""))] else w3;
    if Present(args.q) then w4[TextLike := VText("%" + args.q.GetOr("") + "%")] else w4
  }

  /**
   * `list(args)`: the conditions and their values are pushed side by side,
   * so the k-th condition reads `$k`; LIMIT and OFFSET take the next two,
   * and the page and page size are reported as given.
   */
  method BuildList(args: ListArgs) returns (plan: ListPlan)
    ensures WellNumbered(plan.where, plan.countParams) && Binds(plan.where, plan.countParams)
    ensures Decode(plan.where, plan.countParams) == Wanted(args)
    ensures plan.sort == SortFor(args.sort)
    ensures plan.listParams == plan.countParams + [VInt(args.limit), VInt(Offset(args.page, args.limit))]
    ensures plan.limitParam == |plan.listParams| - 1 && plan.offsetParam == |plan.listParams|
    ensures plan.page == args.page && plan.pageSize == args.limit
  {
    var where: seq<Cond<OrderFilter>> := [];
    var params: seq<Value> := [];
    where, params := PushBound(PresentList(args.status), where, params,
      StatusIn, VTextList(AsList(args.status.GetOr(Many([])))));
    where, params := PushBound(PresentList(args.paymentStatus), where, params,
      PaymentStatusIn, VTextList(AsList(args.paymentStatus.GetOr(Many([])))));
    where, params := PushBound(Present(args.from), where, params, CreatedFrom, VText(args.from.GetOr("")));
    where, params := PushBound(Present(args.to), where, params, CreatedBefore, VText(args.to.GetOr("")));
    where, params := PushBound(Present(args.q), where, params, TextLike, VText("%" + args.q.GetOr("") + "%"));
    var countParams := params;
    WellNumberedBinds(where, countParams);
    params := params + [VInt(args.limit), VInt(Offset(args.page, args.limit))];
    plan := ListPlan(where, SortFor(args.sort), countParams, params, |params| - 1, |params|, args.page, args.limit);
  }
}
