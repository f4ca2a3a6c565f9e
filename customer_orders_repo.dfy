/**
 * The customer-side orders repository: the checkout's three-table insert
 * (order, its item snapshots in one multi-row INSERT, its payment), the
 * customer's view of a payment row, the owner-scoped reads and the two
 * "my orders" listings.
 */
module CustomerOrdersRepo {
  import opened Wrappers
  import opened Db
  import opened Errors
  import opened Query
  import opened Tx
  import opened Placeholders

  /** `mapPaymentRow(r)`: a missing row is null; otherwise the customer-visible columns. */
  function MapPaymentRow(row: Option<Payment>): (v: Option<PaymentView>)
    ensures v.None? <==> row.None?
    ensures v.Some? ==>
      var p := row.value;
      && v.value.id == p.id && v.value.status == p.status
      && v.value.upiVpa == p.upiVpa && v.value.qrPayload == p.qrPayload && v.value.intentUrl == p.intentUrl
      && v.value.submittedAt == p.submittedAt && v.value.screenshotUrl == p.screenshotUrl
      && v.value.referenceText == p.referenceText && v.value.verifiedAt == p.verifiedAt
  {
    if row.None? then None
    else
      var p := row.value;
      Some(PaymentView(p.id, p.upiVpa, p.qrPayload, p.intentUrl, p.submittedAt, p.screenshotUrl,
                       p.referenceText, p.status, p.verifiedAt))
  }

  /** The customer never sees who verified a payment, why it was rejected, or the row's timestamps. */
  lemma MapPaymentRowHidesInternals(p: Payment, verifiedBy: Option<Id>, reason: Option<string>, created: Time, updated: Time)
    ensures MapPaymentRow(Some(p)) ==
            MapPaymentRow(Some(p.(verifiedBy := verifiedBy, rejectionReason := reason, createdAt := created, updatedAt := updated)))
  {
  }

  /** The item rows of one order, in table order. */
  function ItemsOf(items: seq<OrderItem>, orderId: Id): (r: seq<OrderItem>)
    ensures |r| <= |items|
    ensures forall x :: x in r <==> x in items && x.orderId == orderId
  {
    if items == [] then []
    else
      var init, last := items[..|items| - 1], items[|items| - 1];
      assert items == init + [last];
      ItemsOf(init, orderId) + (if last.orderId == orderId then [last] else [])
  }

  /** Whether `userId` placed order `orderId`. */
  predicate Owns(s: Snapshot, orderId: Id, userId: Id) {
    orderId in s.orders && s.orders[orderId].userId == userId
  }

  /** What `getByIdForUser` returns: the order, its items and its payment as the customer sees it. */
  datatype Detail = Detail(order: Order, items: seq<OrderItem>, payment: Option<PaymentView>)

  /** `getByIdForUser(orderId, userId)`: null unless the user owns the order. */
  function GetByIdForUser(s: Snapshot, orderId: Id, userId: Id): (r: Option<Detail>)
    ensures r.Some? <==> Owns(s, orderId, userId)
    ensures r.Some? ==> r.value.order == s.orders[orderId]
    ensures r.Some? ==> forall x :: x in r.value.items <==> x in s.items && x.orderId == orderId
    ensures r.Some? ==> (r.value.payment.Some? <==> orderId in s.payments)
    ensures r.Some? && orderId in s.payments ==> r.value.payment == MapPaymentRow(Some(s.payments[orderId]))
  {
    if !Owns(s, orderId, userId) then None
    else Some(Detail(s.orders[orderId], ItemsOf(s.items, orderId),
                     MapPaymentRow(if orderId in s.payments then Some(s.payments[orderId]) else None)))
  }

  /** The shipment columns a customer sees. */
  datatype ShipmentSummary = ShipmentSummary(
    courierName: Option<string>, awbNumber: Option<string>, trackingUrl: Option<string>,
    shippedAt: Option<Time>, deliveredAt: Option<Time>)

  /** `getShipmentForOrder(orderId, userId)`: null for an order the user does not own, and when nothing has shipped. */
  function GetShipmentForOrder(s: Snapshot, orderId: Id, userId: Id): (r: Option<ShipmentSummary>)
    ensures !Owns(s, orderId, userId) ==> r.None?
    ensures r.Some? <==> Owns(s, orderId, userId) && orderId in s.shipments
    ensures r.Some? ==>
      var sh := s.shipments[orderId];
      r.value == ShipmentSummary(sh.courierName, sh.awbNumber, sh.trackingUrl, sh.shippedAt, sh.deliveredAt)
  {
    if !Owns(s, orderId, userId) || orderId !in s.shipments then None
    else
      var sh := s.shipments[orderId];
      Some(ShipmentSummary(sh.courierName, sh.awbNumber, sh.trackingUrl, sh.shippedAt, sh.deliveredAt))
  }

  /** The conditions of the "my orders" listings. */
  datatype MyFilter = UserIs | StatusIs

  /** The count and page statements of a "my orders" listing. */
  datatype MyListPlan = MyListPlan(
    where: seq<Cond<MyFilter>>,
    countParams: seq<Value>,
    listParams: seq<Value>,
    limitParam: nat,
    offsetParam: nat)

  /** `listForUser`: the user is `$1`, LIMIT `$2`, OFFSET `$3`, and the offset skips the earlier pages. */
  function ListForUser(userId: Id, page: int, pageSize: int): (plan: MyListPlan)
    ensures WellNumbered(plan.where, plan.countParams) && Binds(plan.where, plan.countParams)
    ensures Decode(plan.where, plan.countParams) == map[UserIs := VText(userId)]
    ensures plan.listParams == plan.countParams + [VInt(pageSize), VInt(Offset(page, pageSize))]
    ensures plan.limitParam == 2 && plan.offsetParam == 3
    ensures At(plan.listParams, plan.offsetParam) == VInt((page - 1) * pageSize)
  {
    var where := [Bound(UserIs, 1)];
    assert where[..0] == [];
    MyListPlan(where, [VText(userId)], [VText(userId), VInt(pageSize), VInt(Offset(page, pageSize))], 2, 3)
  }

  /**
   * `listForUserWithShipment`: the user is `$1`; a truthy status filter
   * takes `$2`; LIMIT and OFFSET take the next two placeholders.
   */
  method ListForUserWithShipment(userId: Id, status: Option<string>, page: int, pageSize: int) returns (plan: MyListPlan)
    ensures WellNumbered(plan.where, plan.countParams) && Binds(plan.where, plan.countParams)
    ensures Decode(plan.where, plan.countParams) ==
      if Present(status) then map[UserIs := VText(userId), StatusIs := VText(status.value)] else map[UserIs := VText(userId)]
    ensures plan.listParams == plan.countParams + [VInt(pageSize), VInt(Offset(page, pageSize))]
    ensures plan.limitParam == |plan.countParams| + 1 && plan.offsetParam == |plan.countParams| + 2
    ensures plan.limitParam == (if Present(status) then 3 else 2)
  {
    var where: seq<Cond<MyFilter>> := [Bound(UserIs, 1)];
    var params: seq<Value> := [VText(userId)];
    var i := 2;
    assert where[..0] == [] && params[..0] == [];
    if Present(status) {
      where := where + [Bound(StatusIs, i)];
      params := params + [VText(status.value)];
      i := i + 1;
      assert where[..1] == [Bound(UserIs, 1)] && params[..1] == [VText(userId)];
    }
    assert Decode([Bound(UserIs, 1)], params) == map[UserIs := VText(userId)];
    WellNumberedBinds(where, params);
    plan := MyListPlan(where, params, params + [VInt(pageSize), VInt(Offset(page, pageSize))], i, i + 1);
  }

  // ---------------------------------------------------------------------
  // The checkout's three-table insert.
  // ---------------------------------------------------------------------

  /** The order columns the checkout supplies. */
  datatype CreateOrderRow = CreateOrderRow(
    id: Id, orderNumber: string, userId: Id, status: OrderStatus,
    totalItemPaise: int, shippingPaise: int, discountPaise: int, totalPayablePaise: int,
    shipTo: ShipTo, paymentMethod: string, paymentStatus: PaymentStatus)

  /** One priced line of the cart, as it is frozen into `order_items`. */
  datatype ItemSnapshot = ItemSnapshot(
    productId: Id, variantId: Option<Id>, titleSnapshot: string, variantSnapshot: Option<string>,
    unitPricePaise: int, qty: int, lineTotalPaise: int)

  /** The payment columns the checkout supplies. */
  datatype CreatePaymentRow = CreatePaymentRow(upiVpa: string, qrPayload: string, intentUrl: string, status: PaymentStatus)

  /** What `createFull` returns: the order row, the item rows and the payment as the customer sees it. */
  datatype Created = Created(orderId: Id, order: Order, items: seq<OrderItem>, payment: Option<PaymentView>)

  /** An expression of a VALUES tuple: `gen_random_uuid()` or a `$n` placeholder. */
  datatype Slot = NewUuid | Param(n: nat)

  /** `len` consecutive placeholders starting at `$start`. */
  function Run(start: nat, len: nat): (r: seq<Slot>)
    ensures |r| == len
    ensures forall j :: 0 <= j < len ==> r[j] == Param(start + j)
    decreases len
  {
    if len == 0 then [] else [Param(start)] + Run(start + 1, len - 1)
  }

  /** The highest placeholder a tuple references (0 when none). */
  function Top(t: seq<Slot>): nat {
    if t == [] then 0
    else
      var rest := Top(t[1..]);
      if t[0].Param? && t[0].n > rest then t[0].n else rest
  }

  /** The highest placeholder the whole VALUES list references: the number of values the statement requires. */
  function TopAll(tuples: seq<seq<Slot>>): nat {
    if tuples == [] then 0
    else
      var init := TopAll(tuples[..|tuples| - 1]);
      var last := Top(tuples[|tuples| - 1]);
      if last > init then last else init
  }

  /** A run of placeholders tops out at its last one; a leading UUID changes nothing. */
  lemma {:induction false} TopOfRun(start: nat, len: nat)
    requires len > 0 && start >= 1
    ensures Top(Run(start, len)) == start + len - 1
    ensures Top([NewUuid] + Run(start, len)) == start + len - 1
    decreases len
  {
    var r := Run(start, len);
    assert r[1..] == Run(start + 1, len - 1);
    if len > 1 {
      TopOfRun(start + 1, len - 1);
    }
    assert ([NewUuid] + r)[1..] == r;
  }

  /** Tuple k of a VALUES list whose tuples read `width` placeholders each: the fresh UUID, then `$width*k+1..$width*k+width`. */
  function Tuple(width: nat, k: nat): (t: seq<Slot>)
    ensures |t| == width + 1
  {
    [NewUuid] + Run(width * k + 1, width)
  }

  lemma Distribute(a: nat, n: nat)
    ensures a * (n + 1) == a * n + a
  {
  }

  /** n such tuples reference placeholders up to `$width*n`. */
  lemma {:induction false} TopAllTuples(tuples: seq<seq<Slot>>, width: nat)
    requires width > 0
    requires forall j :: 0 <= j < |tuples| ==> tuples[j] == Tuple(width, j)
    ensures TopAll(tuples) == width * |tuples|
    decreases |tuples|
  {
    if tuples != [] {
      var n := |tuples| - 1;
      var init := tuples[..n];
      assert forall j :: 0 <= j < |init| ==> init[j] == tuples[j];
      TopAllTuples(init, width);
      TopOfRun(width * n + 1, width);
      assert Top(tuples[n]) == width * n + width;
      assert width * (n + 1) == width * n + width by {
        Distribute(width, n);
      }
    }
  }

  /** The values a tuple reads through its placeholders; the fresh UUID reads none. */
  function Row(t: seq<Slot>, values: seq<Value>): seq<Value> {
    if t == [] then []
    else (if t[0].Param? then [At(values, t[0].n)] else []) + Row(t[1..], values)
  }

  /** A run of placeholders reads a contiguous slice of the values. */
  lemma {:induction false} RowOfRun(start: nat, len: nat, values: seq<Value>)
    requires start >= 1 && start - 1 + len <= |values|
    ensures Row(Run(start, len), values) == values[start - 1..start - 1 + len]
    ensures Row([NewUuid] + Run(start, len), values) == values[start - 1..start - 1 + len]
    decreases len
  {
    var r := Run(start, len);
    if len > 0 {
      assert r[1..] == Run(start + 1, len - 1);
      RowOfRun(start + 1, len - 1, values);
      assert values[start - 1..start - 1 + len] == [values[start - 1]] + values[start..start - 1 + len];
    }
    assert ([NewUuid] + r)[1..] == r;
  }

  /** The target columns of the order_items insert: id, order_id and the seven snapshot columns. */
  const ItemColumns := 9

  /**
   * The database accepts the multi-row INSERT only when the VALUES list is
   * not empty, every tuple has one expression per target column, and the
   * bind supplies exactly as many values as the highest placeholder.
   */
  predicate Accepted(tuples: seq<seq<Slot>>, values: seq<Value>) {
    && |tuples| > 0
    && (forall k :: 0 <= k < |tuples| ==> |tuples[k]| == ItemColumns)
    && TopAll(tuples) == |values|
  }

  /** A nullable text column. */
  function Nullable(x: Option<string>): (v: Value)
    ensures x.None? <==> v == VNull
  {
    if x.Some? then VText(x.value) else VNull
  }

  /** The eight values bound for one item: order id, then the snapshot columns in column order. */
  function ItemValues(orderId: Id, it: ItemSnapshot): (r: seq<Value>)
    ensures |r| == 8
  {
    [VText(orderId), VText(it.productId), Nullable(it.variantId), VText(it.titleSnapshot),
     Nullable(it.variantSnapshot), VInt(it.unitPricePaise), VInt(it.qty), VInt(it.lineTotalPaise)]
  }

  /**
   * The order_items builder as written: each tuple is the fresh UUID and
   * seven placeholders `$i..$i+6`, while eight values are pushed per item.
   * The statement names nine columns, so every tuple is one expression
   * short and the bind carries n more values than the text references:
   * the database refuses it for every non-empty cart.
   */
  method ItemsInsertAsWritten(orderId: Id, items: seq<ItemSnapshot>) returns (tuples: seq<seq<Slot>>, values: seq<Value>)
    ensures tuples == Tuples(7, |items|) && values == ItemsValues(orderId, items)
    ensures TopAll(tuples) == 7 * |items|
    ensures !Accepted(tuples, values)
    ensures |items| > 0 ==> |tuples[0]| == ItemColumns - 1 && TopAll(tuples) < |values|
  {
    tuples, values := [], [];
    var i := 1;
    for k := 0 to |items|
      invariant tuples == Tuples(7, k) && i == 7 * k + 1
      invariant values == ItemsValues(orderId, items[..k])
    {
      TupleFrom(i, 7, k);
      tuples := tuples + [[NewUuid] + Run(i, 7)];
      i := i + 7;
      assert items[..k + 1][..k] == items[..k];
      values := values + ItemValues(orderId, items[k]);
    }
    assert items[..|items|] == items;
    AsWrittenRefused(orderId, items);
  }

  /** Seven placeholders per tuple against eight values per item: one expression short, and more values than placeholders. */
  lemma AsWrittenRefused(orderId: Id, items: seq<ItemSnapshot>)
    ensures var tuples, values := Tuples(7, |items|), ItemsValues(orderId, items);
      && TopAll(tuples) == 7 * |items|
      && !Accepted(tuples, values)
      && (|items| > 0 ==> |tuples[0]| == ItemColumns - 1 && TopAll(tuples) < |values|)
  {
    TopAllTuples(Tuples(7, |items|), 7);
  }

  /**
   * The order_items builder as evidently intended: the fresh UUID and eight
   * placeholders per item, item k reading `$8k+1..$8k+8`, which hold that
   * item's order id and snapshot columns.
   */
  method ItemsInsert(orderId: Id, items: seq<ItemSnapshot>) returns (tuples: seq<seq<Slot>>, values: seq<Value>)
    ensures tuples == Tuples(8, |items|) && values == ItemsValues(orderId, items)
    ensures Accepted(tuples, values) <==> |items| > 0
    ensures forall k :: 0 <= k < |tuples| ==> Row(tuples[k], values) == ItemValues(orderId, items[k])
  {
    tuples, values := [], [];
    var i := 1;
    for k := 0 to |items|
      invariant tuples == Tuples(8, k) && i == 8 * k + 1
      invariant values == ItemsValues(orderId, items[..k])
    {
      TupleFrom(i, 8, k);
      tuples := tuples + [[NewUuid] + Run(i, 8)];
      i := i + 8;
      assert items[..k + 1][..k] == items[..k];
      values := values + ItemValues(orderId, items[k]);
    }
    assert items[..|items|] == items;
    IntendedTuplesRead(orderId, items);
  }

  /** The tuple the builder writes from its running placeholder counter `i` is tuple k. */
  lemma TupleFrom(i: nat, width: nat, k: nat)
    requires i == width * k + 1
    ensures [NewUuid] + Run(i, width) == Tuple(width, k)
  {
  }

  /** The VALUES list of n tuples of `width` placeholders each. */
  function Tuples(width: nat, n: nat): (r: seq<seq<Slot>>)
    ensures |r| == n
    ensures forall j :: 0 <= j < n ==> r[j] == Tuple(width, j)
  {
    if n == 0 then [] else Tuples(width, n - 1) + [Tuple(width, n - 1)]
  }

  /** Every item's eight values, in item order. */
  function ItemsValues(orderId: Id, items: seq<ItemSnapshot>): (r: seq<Value>)
    ensures |r| == 8 * |items|
  {
    if items == [] then [] else ItemsValues(orderId, items[..|items| - 1]) + ItemValues(orderId, items[|items| - 1])
  }

  /** Item j's values sit at `8j..8j+8` of the bound values. */
  lemma {:induction false} ItemsValuesBlock(orderId: Id, items: seq<ItemSnapshot>, j: nat)
    requires j < |items|
    ensures ItemsValues(orderId, items)[8 * j..8 * j + 8] == ItemValues(orderId, items[j])
    decreases |items|
  {
    var n := |items| - 1;
    var init := ItemsValues(orderId, items[..n]);
    assert ItemsValues(orderId, items) == init + ItemValues(orderId, items[n]);
    if j < n {
      ItemsValuesBlock(orderId, items[..n], j);
      assert items[..n][j] == items[j];
    }
  }

  /** Eight placeholders per tuple read exactly the values bound for that item, and the statement is accepted when there is an item. */
  lemma IntendedTuplesRead(orderId: Id, items: seq<ItemSnapshot>)
    ensures var tuples, values := Tuples(8, |items|), ItemsValues(orderId, items);
      && (Accepted(tuples, values) <==> |items| > 0)
      && (forall k :: 0 <= k < |tuples| ==> Row(tuples[k], values) == ItemValues(orderId, items[k]))
  {
    var tuples, values := Tuples(8, |items|), ItemsValues(orderId, items);
    TopAllTuples(tuples, 8);
    forall k | 0 <= k < |tuples|
      ensures Row(tuples[k], values) == ItemValues(orderId, items[k])
    {
      RowOfRun(8 * k + 1, 8, values);
      ItemsValuesBlock(orderId, items, k);
    }
  }

  /** The values read back as an order_items row with the given id. */
  function RowItem(id: Id, vals: seq<Value>): OrderItem {
    var v := (j: nat) => if j < |vals| then vals[j] else VNull;
    OrderItem(id, AsText(v(0)), AsText(v(1)), AsNullable(v(2)), AsText(v(3)), AsNullable(v(4)),
              AsInt(v(5)), AsInt(v(6)), AsInt(v(7)))
  }

  function AsText(v: Value): string { if v.VText? then v.s else "" }
  function AsNullable(v: Value): Option<string> { if v.VText? then Some(v.s) else None }
  function AsInt(v: Value): int { if v.VInt? then v.n else 0 }

  /** The row an item snapshot becomes under the given id. */
  function ItemRow(id: Id, orderId: Id, it: ItemSnapshot): (r: OrderItem)
    ensures r.id == id && r.orderId == orderId && r.productId == it.productId
    ensures r.unitPricePaise == it.unitPricePaise && r.qty == it.qty && r.lineTotalPaise == it.lineTotalPaise
  {
    OrderItem(id, orderId, it.productId, it.variantId, it.titleSnapshot, it.variantSnapshot,
              it.unitPricePaise, it.qty, it.lineTotalPaise)
  }

  /** Binding an item's values and reading them back gives exactly its row: nothing is lost or reordered. */
  lemma ItemValuesRoundTrip(id: Id, orderId: Id, it: ItemSnapshot)
    ensures RowItem(id, ItemValues(orderId, it)) == ItemRow(id, orderId, it)
  {
  }

  /** The rows the cart becomes, in cart order, each with its fresh id and the order's id. */
  function ItemRows(orderId: Id, items: seq<ItemSnapshot>, ids: seq<Id>): (r: seq<OrderItem>)
    requires |ids| == |items|
    ensures |r| == |items|
    ensures forall k :: 0 <= k < |r| ==> r[k] == ItemRow(ids[k], orderId, items[k])
  {
    seq(|items|, k requires 0 <= k < |items| => ItemRow(ids[k], orderId, items[k]))
  }

  /** The rows the database inserts for an accepted statement: tuple k read through its placeholders. */
  function Inserted(tuples: seq<seq<Slot>>, values: seq<Value>, ids: seq<Id>): (r: seq<OrderItem>)
    requires |ids| == |tuples|
    ensures |r| == |tuples|
    ensures forall k :: 0 <= k < |r| ==> r[k] == RowItem(ids[k], Row(tuples[k], values))
  {
    seq(|tuples|, k requires 0 <= k < |tuples| => RowItem(ids[k], Row(tuples[k], values)))
  }

  /** The corrected statement inserts exactly the cart's rows. */
  lemma InsertedAreItemRows(orderId: Id, items: seq<ItemSnapshot>, ids: seq<Id>, tuples: seq<seq<Slot>>, values: seq<Value>)
    requires |ids| == |items| == |tuples|
    requires forall k :: 0 <= k < |tuples| ==> Row(tuples[k], values) == ItemValues(orderId, items[k])
    ensures Inserted(tuples, values, ids) == ItemRows(orderId, items, ids)
  {
    forall k | 0 <= k < |items|
      ensures Inserted(tuples, values, ids)[k] == ItemRows(orderId, items, ids)[k]
    {
      ItemValuesRoundTrip(ids[k], orderId, items[k]);
    }
  }

  /** The order row the first INSERT creates. */
  function OrderRow(row: CreateOrderRow, now: Time): (o: Order)
    ensures o.status == row.status && o.paymentStatus == row.paymentStatus && o.userId == row.userId
    ensures o.shipTo == row.shipTo && o.totalPayablePaise == row.totalPayablePaise
  {
    Order(row.orderNumber, row.userId, row.status, row.totalItemPaise, row.shippingPaise, row.discountPaise,
          row.totalPayablePaise, row.shipTo, row.paymentMethod, row.paymentStatus, now, now)
  }

  /** The payment row the last INSERT creates: nothing submitted or verified yet. */
  function PaymentRow(id: Id, p: CreatePaymentRow, now: Time): (r: Payment)
    ensures r.id == id && r.status == p.status && r.upiVpa == p.upiVpa
    ensures r.submittedAt.None? && r.screenshotUrl.None? && r.referenceText.None?
    ensures r.verifiedAt.None? && r.verifiedBy.None? && r.rejectionReason.None?
  {
    Payment(id, p.upiVpa, p.qrPayload, p.intentUrl, None, None, None, p.status, None, None, None, now, now)
  }

  /** Some order already has this order number: the UNIQUE index refuses a second. */
  predicate NumberTaken(orders: map<Id, Order>, number: string) {
    exists k :: k in orders && orders[k].orderNumber == number
  }

  /** No two orders share an order number. */
  predicate NumbersUnique(orders: map<Id, Order>) {
    forall j, k :: j in orders && k in orders && j != k ==> orders[j].orderNumber != orders[k].orderNumber
  }

  /** The database refused the order_items statement. */
  const ItemsRejected := ErrorObject("order_items insert rejected")

  /**
   * `createFull(order, items, payment)`: BEGIN; insert the order, then its
   * items in one statement, then its payment; COMMIT and return the rows,
   * or on any database error ROLLBACK and rethrow. An id already used by an
   * order (or by a payment, `order_id` being UNIQUE), an order number some
   * order already has (`order_number` is UNIQUE) and an empty cart (no
   * VALUES tuple) are the errors the model knows.
   */
  function CreateFullOutcome(s: Snapshot, row: CreateOrderRow, items: seq<ItemSnapshot>, payment: CreatePaymentRow,
                             itemIds: seq<Id>, paymentId: Id, now: Time): Outcome<Created>
    requires |itemIds| == |items|
  {
    if row.id in s.orders || NumberTaken(s.orders, row.orderNumber) then WithTx(s, s, Err(DuplicateKey))
    else if items == [] then WithTx(s, s, Err(ItemsRejected))
    else if row.id in s.payments then WithTx(s, s, Err(DuplicateKey))
    else
      var inserted := ItemRows(row.id, items, itemIds);
      var payRow := PaymentRow(paymentId, payment, now);
      var after := s.(orders := s.orders[row.id := OrderRow(row, now)], items := s.items + inserted,
                      payments := s.payments[row.id := payRow]);
      WithTx(s, after, Ok(Created(row.id, OrderRow(row, now), inserted, MapPaymentRow(Some(payRow)))))
  }

  /** What `createFull` promises, from every starting state. */
  lemma CreateFullSpec(s: Snapshot, row: CreateOrderRow, items: seq<ItemSnapshot>, payment: CreatePaymentRow,
                       itemIds: seq<Id>, paymentId: Id, now: Time)
    requires |itemIds| == |items|
    ensures var o := CreateFullOutcome(s, row, items, payment, itemIds, paymentId, now);
      |o.journal| == 2 && o.journal[0] == BeginStmt
    ensures var o := CreateFullOutcome(s, row, items, payment, itemIds, paymentId, now);
      o.result.Err? ==> o.state == s && o.journal[1] == RollbackStmt
    ensures var o := CreateFullOutcome(s, row, items, payment, itemIds, paymentId, now);
      o.result.Ok? <==> row.id !in s.orders && !NumberTaken(s.orders, row.orderNumber) && row.id !in s.payments && items != []
    ensures var o := CreateFullOutcome(s, row, items, payment, itemIds, paymentId, now);
      row.id in s.orders || NumberTaken(s.orders, row.orderNumber) ==> o.result == Err(DuplicateKey)
    ensures var o := CreateFullOutcome(s, row, items, payment, itemIds, paymentId, now);
      o.result.Ok? ==>
      && o.journal[1] == CommitStmt
      && o.state.orders == s.orders[row.id := OrderRow(row, now)]
      && o.state.items == s.items + ItemRows(row.id, items, itemIds)
      && o.state.payments == s.payments[row.id := PaymentRow(paymentId, payment, now)]
      && o.state.shipments == s.shipments && o.state.audit == s.audit && o.state.outbox == s.outbox
      && o.result.value == Created(row.id, OrderRow(row, now), ItemRows(row.id, items, itemIds),
                                   MapPaymentRow(Some(PaymentRow(paymentId, payment, now))))
  {
  }

  /** A committed `createFull` keeps order numbers unique: the new number was not in use. */
  lemma CreateFullKeepsNumbersUnique(s: Snapshot, row: CreateOrderRow, items: seq<ItemSnapshot>, payment: CreatePaymentRow,
                                     itemIds: seq<Id>, paymentId: Id, now: Time)
    requires |itemIds| == |items| && NumbersUnique(s.orders)
    ensures NumbersUnique(CreateFullOutcome(s, row, items, payment, itemIds, paymentId, now).state.orders)
  {
    var o := CreateFullOutcome(s, row, items, payment, itemIds, paymentId, now);
    if o.state != s {
      CreateFullSpec(s, row, items, payment, itemIds, paymentId, now);
      assert o.state.orders == s.orders[row.id := OrderRow(row, now)];
      forall j, k | j in o.state.orders && k in o.state.orders && j != k
        ensures o.state.orders[j].orderNumber != o.state.orders[k].orderNumber
      {
        if j == row.id {
          assert k in s.orders;
        } else if k == row.id {
          assert j in s.orders;
        }
      }
    }
  }

  /** The database running an accepted multi-row INSERT: each tuple becomes one row, read through its placeholders. */
  method ExecItemsInsert(db: Database, tuples: seq<seq<Slot>>, values: seq<Value>, ids: seq<Id>) returns (rows: seq<OrderItem>)
    requires Accepted(tuples, values) && |ids| == |tuples|
    modifies db`items
    ensures rows == Inserted(tuples, values, ids)
    ensures db.items == old(db.items) + rows
  {
    rows := Inserted(tuples, values, ids);
    db.items := db.items + rows;
  }

  /** The second statement of `createFull`: build the multi-row INSERT and run it if the database accepts it. */
  method InsertItems(db: Database, orderId: Id, items: seq<ItemSnapshot>, itemIds: seq<Id>)
    returns (accepted: bool, rows: seq<OrderItem>)
    requires |itemIds| == |items|
    modifies db`items
    ensures accepted <==> items != []
    ensures accepted ==> rows == ItemRows(orderId, items, itemIds) && db.items == old(db.items) + rows
    ensures !accepted ==> db.items == old(db.items)
  {
    var tuples, values := ItemsInsert(orderId, items);
    accepted := Accepted(tuples, values);
    rows := [];
    if accepted {
      rows := ExecItemsInsert(db, tuples, values, itemIds);
      InsertedAreItemRows(orderId, items, itemIds, tuples, values);
    }
  }

  /** The transaction of `createFull`, statement by statement on the shared client. */
  method CreateFull(db: Database, row: CreateOrderRow, items: seq<ItemSnapshot>, payment: CreatePaymentRow,
                    itemIds: seq<Id>, paymentId: Id, now: Time) returns (r: Result<Created>)
    requires |itemIds| == |items|
    modifies db`orders, db`items, db`payments, db`shipments, db`audit, db`outbox, db`journal, db`savepoint
    ensures var o := CreateFullOutcome(old(db.View()), row, items, payment, itemIds, paymentId, now);
      db.View() == o.state && r == o.result && db.journal == old(db.journal) + o.journal
  {
    ghost var s0 := db.View();
    ghost var o := CreateFullOutcome(s0, row, items, payment, itemIds, paymentId, now);
    Begin(db);
    if row.id in db.orders || NumberTaken(db.orders, row.orderNumber) {
      Rollback(db);
      r := Err(DuplicateKey);
      assert o == WithTx(s0, s0, r);
      return;
    }
    db.orders := db.orders[row.id := OrderRow(row, now)];
    var accepted, inserted := InsertItems(db, row.id, items, itemIds);
    if !accepted {
      Rollback(db);
      r := Err(ItemsRejected);
      assert o == WithTx(s0, s0, r);
      return;
    }
    if row.id in db.payments {
      Rollback(db);
      r := Err(DuplicateKey);
      assert o == WithTx(s0, s0, r);
      return;
    }
    var payRow := PaymentRow(paymentId, payment, now);
    db.payments := db.payments[row.id := payRow];
    Commit(db);
    r := Ok(Created(row.id, db.orders[row.id], inserted, MapPaymentRow(Some(payRow))));
    ghost var after := s0.(orders := s0.orders[row.id := OrderRow(row, now)], items := s0.items + inserted,
                           payments := s0.payments[row.id := payRow]);
    assert o == WithTx(s0, after, r);
    assert db.View() == after;
  }
}
