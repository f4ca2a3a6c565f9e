/**
 * The customer's side of the order lifecycle: checkout (`placeOrder`:
 * validation, pricing and snapshotting of the cart, the initial states,
 * the three-table insert and its audit row), the "my orders" paging
 * clamps, the order lookup, and payment-proof submission with its guards.
 */
module CustomerOrdersService {
  import opened Wrappers
  import opened Db
  import opened Errors
  import opened Query
  import opened Tx
  import AuditService
  import CustomerOrdersRepo
  import CustomerPaymentsRepo
  import Placeholders

  // ---------------------------------------------------------------------
  // Checkout.
  // ---------------------------------------------------------------------

  const NoItems := Throw(BadRequest, "No items provided")
  const InvalidAddress := Throw(BadRequest, "Invalid address")
  const PaymentsNotConfigured := Throw(Conflict, "Payments not configured")
  const InvalidQuantity := Throw(BadRequest, "Invalid quantity")
  const InvalidProduct := Throw(BadRequest, "Invalid product")
  const InvalidVariant := Throw(BadRequest, "Invalid variant")
  const OutOfStock := Throw(Conflict, "Product out of stock")
  /** What calling a method the variants repository does not define raises. */
  const VariantLookupMissing := ErrorObject("ProductVariantRepo.findById is not a function")

  /** One line of the cart as the client sends it. */
  datatype CartLine = CartLine(productId: Id, variantId: Option<Id>, qty: int)

  /** The rows checkout reads before it writes anything. */
  datatype Catalog = Catalog(
    products: map<Id, Product>,
    variants: map<Id, Variant>,
    addresses: map<Id, Address>,
    settings: Option<Settings>)

  /** JavaScript truthiness of an optional string: present and not empty. */
  predicate Truthy(s: Option<string>) {
    s.Some? && s.value != ""
  }

  /** `ProductRepo.findById` hides soft-deleted rows; checkout also wants the product active. */
  predicate Sellable(products: map<Id, Product>, productId: Id) {
    productId in products && products[productId].active && products[productId].deletedAt.None?
  }

  /** A variant the line may use: it exists, is active and belongs to the line's product. */
  predicate VariantFits(variants: map<Id, Variant>, line: CartLine) {
    line.variantId.Some? && line.variantId.value in variants
    && variants[line.variantId.value].active && variants[line.variantId.value].productId == line.productId
  }

  /** Out of stock only when a stock count is recorded and it is not positive. */
  predicate InStock(p: Product) {
    p.stockQty.None? || p.stockQty.value > 0
  }

  /** The variant lookup: found or not found. */
  function FindVariant(variants: map<Id, Variant>, id: Id): (r: Result<Option<Variant>>)
    ensures r.Ok? && (r.value.Some? <==> id in variants)
    ensures id in variants ==> r.value == Some(variants[id])
  {
    Ok(if id in variants then Some(variants[id]) else None)
  }

  /**
   * The variant lookup as the service calls it: `ProductVariantRepo`
   * defines create, update, delete and list but no `findById`, so the call
   * raises a TypeError whatever the id.
   */
  function FindVariantAsWritten(variants: map<Id, Variant>, id: Id): (r: Result<Option<Variant>>)
  {
    Err(VariantLookupMissing)
  }

  /**
   * One iteration of the pricing loop, given what the variant lookup
   * produced (it is consulted only for a truthy variant id): quantity
   * 1..10, then a sellable product, then a fitting variant, then stock; the
   * unit price is the variant's when it has one, else the product's.
   */
  function PriceLineWith(products: map<Id, Product>, line: CartLine, found: Result<Option<Variant>>)
    : Result<CustomerOrdersRepo.ItemSnapshot>
  {
    if line.qty < 1 || line.qty > 10 then Err(InvalidQuantity)
    else if !Sellable(products, line.productId) then Err(InvalidProduct)
    else
      var p := products[line.productId];
      var chosen: Result<(Option<string>, int)> :=
        if !Truthy(line.variantId) then Ok((None, p.pricePaise))
        else if found.Err? then Err(found.thrown)
        else if found.value.None? || !found.value.value.active || found.value.value.productId != line.productId then Err(InvalidVariant)
        else Ok((Some(found.value.value.labelText), found.value.value.pricePaise.GetOr(p.pricePaise)));
      if chosen.Err? then Err(chosen.thrown)
      else if !InStock(p) then Err(OutOfStock)
      else
        var unit := chosen.value.1;
        Ok(CustomerOrdersRepo.ItemSnapshot(line.productId, line.variantId, p.title, chosen.value.0, unit, line.qty, unit * line.qty))
  }

  /** One line priced against the catalog, the lookup reading the variants table. */
  function PriceLine(products: map<Id, Product>, variants: map<Id, Variant>, line: CartLine)
    : (r: Result<CustomerOrdersRepo.ItemSnapshot>)
    ensures r.Ok? <==>
      && 1 <= line.qty <= 10 && Sellable(products, line.productId)
      && (Truthy(line.variantId) ==> VariantFits(variants, line))
      && InStock(products[line.productId])
    ensures r.Ok? ==>
      var p, snap := products[line.productId], r.value;
      && snap.productId == line.productId && snap.variantId == line.variantId && snap.qty == line.qty
      && snap.titleSnapshot == p.title
      && snap.lineTotalPaise == snap.unitPricePaise * snap.qty
      && (!Truthy(line.variantId) ==> snap.unitPricePaise == p.pricePaise && snap.variantSnapshot.None?)
      && (Truthy(line.variantId) ==>
            var v := variants[line.variantId.value];
            snap.unitPricePaise == v.pricePaise.GetOr(p.pricePaise) && snap.variantSnapshot == Some(v.labelText))
    ensures (line.qty < 1 || line.qty > 10) ==> r == Err(InvalidQuantity)
    ensures 1 <= line.qty <= 10 && !Sellable(products, line.productId) ==> r == Err(InvalidProduct)
  {
    PriceLineWith(products, line, FindVariant(variants, line.variantId.GetOr("")))
  }

  /** The same iteration with the lookup as written. */
  function PriceLineAsWritten(products: map<Id, Product>, variants: map<Id, Variant>, line: CartLine)
    : Result<CustomerOrdersRepo.ItemSnapshot>
  {
    PriceLineWith(products, line, FindVariantAsWritten(variants, line.variantId.GetOr("")))
  }

  /**
   * As written, no line that names a variant can be priced, even when the
   * variant exists, is active and belongs to the product: the lookup
   * raises first. The corrected lookup prices exactly those lines.
   */
  lemma VariantLinesFailAsWritten(products: map<Id, Product>, variants: map<Id, Variant>, line: CartLine)
    requires 1 <= line.qty <= 10 && Sellable(products, line.productId) && Truthy(line.variantId)
    requires VariantFits(variants, line) && InStock(products[line.productId])
    ensures PriceLineAsWritten(products, variants, line) == Err(VariantLookupMissing)
    ensures PriceLine(products, variants, line).Ok?
  {
  }

  /** Sum of the line totals. */
  function SumLines(snaps: seq<CustomerOrdersRepo.ItemSnapshot>): int {
    if snaps == [] then 0 else SumLines(snaps[..|snaps| - 1]) + snaps[|snaps| - 1].lineTotalPaise
  }

  /**
   * The pricing loop over the cart in order: the first line that fails
   * throws its error; otherwise the snapshots, one per line, and the
   * running total.
   */
  function Priced(products: map<Id, Product>, variants: map<Id, Variant>, lines: seq<CartLine>)
    : (r: Result<(seq<CustomerOrdersRepo.ItemSnapshot>, int)>)
    ensures r.Ok? ==> |r.value.0| == |lines|
  {
    if lines == [] then Ok(([], 0))
    else
      var before := Priced(products, variants, lines[..|lines| - 1]);
      if before.Err? then before
      else
        var line := PriceLine(products, variants, lines[|lines| - 1]);
        if line.Err? then Err(line.thrown)
        else Ok((before.value.0 + [line.value], before.value.1 + line.value.lineTotalPaise))
  }

  /** A priced cart holds each line's own snapshot, in cart order, and the total is their sum. */
  lemma {:induction false} PricedLines(products: map<Id, Product>, variants: map<Id, Variant>, lines: seq<CartLine>)
    requires Priced(products, variants, lines).Ok?
    ensures var r := Priced(products, variants, lines).value;
      && (forall k :: 0 <= k < |lines| ==> PriceLine(products, variants, lines[k]) == Ok(r.0[k]))
      && r.1 == SumLines(r.0)
    decreases |lines|
  {
    if lines != [] {
      var init := lines[..|lines| - 1];
      PricedLines(products, variants, init);
      var before := Priced(products, variants, init).value;
      var snaps := Priced(products, variants, lines).value.0;
      assert snaps == before.0 + [PriceLine(products, variants, lines[|lines| - 1]).value];
      assert snaps[..|snaps| - 1] == before.0;
      forall k | 0 <= k < |init|
        ensures PriceLine(products, variants, lines[k]) == Ok(snaps[k])
      {
        assert init[k] == lines[k];
      }
    }
  }

  /** Pricing succeeds exactly when every line of the cart prices on its own. */
  lemma {:induction false} PricedIffAllLines(products: map<Id, Product>, variants: map<Id, Variant>, lines: seq<CartLine>)
    ensures Priced(products, variants, lines).Ok? <==> forall k :: 0 <= k < |lines| ==> PriceLine(products, variants, lines[k]).Ok?
    decreases |lines|
  {
    if lines != [] {
      var init := lines[..|lines| - 1];
      PricedIffAllLines(products, variants, init);
      assert forall k :: 0 <= k < |init| ==> init[k] == lines[k];
    }
  }

  /** A refused cart is refused with the error of its first failing line. */
  lemma {:induction false} PricedFirstError(products: map<Id, Product>, variants: map<Id, Variant>, lines: seq<CartLine>)
    requires Priced(products, variants, lines).Err?
    ensures exists k :: 0 <= k < |lines| && PriceLine(products, variants, lines[k]) == Err(Priced(products, variants, lines).thrown)
                        && forall j :: 0 <= j < k ==> PriceLine(products, variants, lines[j]).Ok?
    decreases |lines|
  {
    var init := lines[..|lines| - 1];
    assert forall k :: 0 <= k < |init| ==> init[k] == lines[k];
    if Priced(products, variants, init).Err? {
      PricedFirstError(products, variants, init);
      var k :| 0 <= k < |init| && PriceLine(products, variants, init[k]) == Err(Priced(products, variants, init).thrown)
               && forall j :: 0 <= j < k ==> PriceLine(products, variants, init[j]).Ok?;
      assert PriceLine(products, variants, lines[k]) == Err(Priced(products, variants, lines).thrown);
    } else {
      PricedIffAllLines(products, variants, init);
      assert PriceLine(products, variants, lines[|lines| - 1]) == Err(Priced(products, variants, lines).thrown);
    }
  }

  /** A failing prefix decides the whole loop: later lines are never looked at. */
  lemma {:induction false} PricedPrefixFails(products: map<Id, Product>, variants: map<Id, Variant>, lines: seq<CartLine>, i: nat)
    requires i <= |lines| && Priced(products, variants, lines[..i]).Err?
    ensures Priced(products, variants, lines) == Priced(products, variants, lines[..i])
    decreases |lines| - i
  {
    if i < |lines| {
      assert lines[..i + 1][..i] == lines[..i];
      PricedPrefixFails(products, variants, lines, i + 1);
    } else {
      assert lines[..i] == lines;
    }
  }

  /**
   * The order row checkout creates: PLACED, payment NONE, method
   * UPI_MANUAL, no shipping and no discount, payable = items total, and the
   * delivery address copied with the address label as name and no phone.
   */
  function CheckoutRow(orderId: Id, orderNumber: string, userId: Id, total: int, a: Address)
    : (row: CustomerOrdersRepo.CreateOrderRow)
  {
    var shippingPaise, discountPaise := 0, 0;
    CustomerOrdersRepo.CreateOrderRow(
      orderId, orderNumber, userId, Placed,
      total, shippingPaise, discountPaise, total + shippingPaise - discountPaise,
      ShipTo(a.labelText, None, a.line1, a.line2, a.city, a.state, a.pincode, a.country),
      "UPI_MANUAL", PayNone)
  }

  /** Settings usable for UPI: present, with a non-empty VPA and business name. */
  predicate PaymentsConfigured(settings: Option<Settings>) {
    settings.Some? && settings.value.upiVpa != "" && settings.value.businessName != ""
  }

  /** The checkout audit row: CREATE on the order, before null, after the created rows. */
  function CheckoutEntry(userId: Id, orderId: Id, created: CustomerOrdersRepo.Created, now: Time): AuditEntry {
    AuditService.Entry(userId, "order", orderId, "CREATE", Some(JNull),
                       Some(JCheckout(orderId, created.order, created.items, created.payment)), now)
  }

  /**
   * `placeOrder`: an empty cart, an address the user does not own and
   * unconfigured payments are refused in that order, then each line is
   * priced; the UPI link (`intentUrl`, also the QR payload), the order id
   * and the order number are arguments. `createFull` runs its own
   * transaction; the CREATE audit row is written after it commits.
   */
  function PlaceOrderOutcome(s: Snapshot, cat: Catalog, userId: Id, lines: seq<CartLine>, addressId: Id,
                             orderId: Id, orderNumber: string, intentUrl: string,
                             itemIds: seq<Id>, paymentId: Id, now: Time): Outcome<CustomerOrdersRepo.Created>
    requires |itemIds| == |lines|
  {
    if lines == [] then Refused(s, NoItems)
    else if addressId !in cat.addresses || cat.addresses[addressId].userId != userId then Refused(s, InvalidAddress)
    else if !PaymentsConfigured(cat.settings) then Refused(s, PaymentsNotConfigured)
    else PricedOutcome(s, cat, userId, lines, addressId, orderId, orderNumber, intentUrl, itemIds, paymentId, now)
  }

  /** The rest of `placeOrder` once the checks pass: a line that does not price is refused, otherwise the commit. */
  function PricedOutcome(s: Snapshot, cat: Catalog, userId: Id, lines: seq<CartLine>, addressId: Id,
                         orderId: Id, orderNumber: string, intentUrl: string,
                         itemIds: seq<Id>, paymentId: Id, now: Time): Outcome<CustomerOrdersRepo.Created>
    requires |itemIds| == |lines| && addressId in cat.addresses && cat.settings.Some?
  {
    var priced := Priced(cat.products, cat.variants, lines);
    if priced.Err? then Refused(s, priced.thrown)
    else
      var row := CheckoutRow(orderId, orderNumber, userId, priced.value.1, cat.addresses[addressId]);
      var payment := CustomerOrdersRepo.CreatePaymentRow(cat.settings.value.upiVpa, intentUrl, intentUrl, PayNone);
      CommitOutcome(s, userId, orderId, row, priced.value.0, payment, itemIds, paymentId, now)
  }

  /** The last step of `placeOrder`: `createFull`, then the CREATE audit row once it has committed. */
  function CommitOutcome(s: Snapshot, userId: Id, orderId: Id, row: CustomerOrdersRepo.CreateOrderRow,
                         snaps: seq<CustomerOrdersRepo.ItemSnapshot>, payment: CustomerOrdersRepo.CreatePaymentRow,
                         itemIds: seq<Id>, paymentId: Id, now: Time): Outcome<CustomerOrdersRepo.Created>
    requires |itemIds| == |snaps|
  {
    var c := CustomerOrdersRepo.CreateFullOutcome(s, row, snaps, payment, itemIds, paymentId, now);
    if c.result.Err? then c
    else Outcome(c.state.(audit := c.state.audit + [CheckoutEntry(userId, orderId, c.result.value, now)]), c.result, c.journal)
  }

  /**
   * The last step commits exactly when `createFull` does; then the order,
   * its items and its payment are new rows, and the audit row follows them.
   */
  lemma CommitCommitted(s: Snapshot, userId: Id, orderId: Id, row: CustomerOrdersRepo.CreateOrderRow,
                        snaps: seq<CustomerOrdersRepo.ItemSnapshot>, payment: CustomerOrdersRepo.CreatePaymentRow,
                        itemIds: seq<Id>, paymentId: Id, now: Time)
    requires |itemIds| == |snaps| && row.id == orderId
    requires CommitOutcome(s, userId, orderId, row, snaps, payment, itemIds, paymentId, now).result.Ok?
    ensures orderId !in s.orders && orderId !in s.payments && snaps != []
    ensures var o := CommitOutcome(s, userId, orderId, row, snaps, payment, itemIds, paymentId, now);
      && o.journal == [BeginStmt, CommitStmt]
      && o.result.value.order == CustomerOrdersRepo.OrderRow(row, now)
      && o.state == s.(orders := s.orders[orderId := CustomerOrdersRepo.OrderRow(row, now)],
                       items := s.items + CustomerOrdersRepo.ItemRows(orderId, snaps, itemIds),
                       payments := s.payments[orderId := CustomerOrdersRepo.PaymentRow(paymentId, payment, now)],
                       audit := s.audit + [CheckoutEntry(userId, orderId, o.result.value, now)])
  {
    CustomerOrdersRepo.CreateFullSpec(s, row, snaps, payment, itemIds, paymentId, now);
  }

  /** A refused checkout writes nothing; an empty cart is refused before any transaction. */
  lemma PlaceOrderRefusals(s: Snapshot, cat: Catalog, userId: Id, lines: seq<CartLine>, addressId: Id,
                           orderId: Id, orderNumber: string, intentUrl: string, itemIds: seq<Id>, paymentId: Id, now: Time)
    requires |itemIds| == |lines|
    ensures var o := PlaceOrderOutcome(s, cat, userId, lines, addressId, orderId, orderNumber, intentUrl, itemIds, paymentId, now);
      o.result.Err? ==> o.state == s
    ensures var o := PlaceOrderOutcome(s, cat, userId, lines, addressId, orderId, orderNumber, intentUrl, itemIds, paymentId, now);
      lines == [] ==> o.result == Err(NoItems) && o.journal == []
  {
    if lines != [] && addressId in cat.addresses && cat.addresses[addressId].userId == userId && PaymentsConfigured(cat.settings) {
      var priced := Priced(cat.products, cat.variants, lines);
      if priced.Ok? {
        var row := CheckoutRow(orderId, orderNumber, userId, priced.value.1, cat.addresses[addressId]);
        var payment := CustomerOrdersRepo.CreatePaymentRow(cat.settings.value.upiVpa, intentUrl, intentUrl, PayNone);
        CustomerOrdersRepo.CreateFullSpec(s, row, priced.value.0, payment, itemIds, paymentId, now);
      }
    }
  }

  /**
   * Checkout succeeds exactly when the cart is not empty, the address is
   * the user's, payments are configured, every line prices, the new ids
   * are unused and no order already has the new order number.
   */
  lemma PlaceOrderAccepted(s: Snapshot, cat: Catalog, userId: Id, lines: seq<CartLine>, addressId: Id,
                           orderId: Id, orderNumber: string, intentUrl: string, itemIds: seq<Id>, paymentId: Id, now: Time)
    requires |itemIds| == |lines|
    ensures var o := PlaceOrderOutcome(s, cat, userId, lines, addressId, orderId, orderNumber, intentUrl, itemIds, paymentId, now);
      o.result.Ok? <==>
      && lines != [] && addressId in cat.addresses && cat.addresses[addressId].userId == userId
      && PaymentsConfigured(cat.settings)
      && (forall k :: 0 <= k < |lines| ==> PriceLine(cat.products, cat.variants, lines[k]).Ok?)
      && orderId !in s.orders && orderId !in s.payments && !CustomerOrdersRepo.NumberTaken(s.orders, orderNumber)
  {
    PricedIffAllLines(cat.products, cat.variants, lines);
    if lines != [] && addressId in cat.addresses && cat.addresses[addressId].userId == userId && PaymentsConfigured(cat.settings) {
      var priced := Priced(cat.products, cat.variants, lines);
      if priced.Ok? {
        var row := CheckoutRow(orderId, orderNumber, userId, priced.value.1, cat.addresses[addressId]);
        var payment := CustomerOrdersRepo.CreatePaymentRow(cat.settings.value.upiVpa, intentUrl, intentUrl, PayNone);
        CustomerOrdersRepo.CreateFullSpec(s, row, priced.value.0, payment, itemIds, paymentId, now);
      }
    }
  }

  /** The order row and the payment row checkout asks `createFull` for. */
  function CheckoutRows(cat: Catalog, userId: Id, lines: seq<CartLine>, addressId: Id,
                        orderId: Id, orderNumber: string, intentUrl: string)
    : (CustomerOrdersRepo.CreateOrderRow, CustomerOrdersRepo.CreatePaymentRow)
    requires addressId in cat.addresses && cat.settings.Some? && Priced(cat.products, cat.variants, lines).Ok?
  {
    (CheckoutRow(orderId, orderNumber, userId, Priced(cat.products, cat.variants, lines).value.1, cat.addresses[addressId]),
     CustomerOrdersRepo.CreatePaymentRow(cat.settings.value.upiVpa, intentUrl, intentUrl, PayNone))
  }

  /** A successful checkout is `createFull`'s committed outcome followed by the CREATE audit row. */
  lemma PlaceOrderCommits(s: Snapshot, cat: Catalog, userId: Id, lines: seq<CartLine>, addressId: Id,
                          orderId: Id, orderNumber: string, intentUrl: string, itemIds: seq<Id>, paymentId: Id, now: Time)
    requires |itemIds| == |lines|
    requires PlaceOrderOutcome(s, cat, userId, lines, addressId, orderId, orderNumber, intentUrl, itemIds, paymentId, now).result.Ok?
    ensures addressId in cat.addresses && PaymentsConfigured(cat.settings) && Priced(cat.products, cat.variants, lines).Ok?
    ensures var rows := CheckoutRows(cat, userId, lines, addressId, orderId, orderNumber, intentUrl);
      PlaceOrderOutcome(s, cat, userId, lines, addressId, orderId, orderNumber, intentUrl, itemIds, paymentId, now)
      == CommitOutcome(s, userId, orderId, rows.0, Priced(cat.products, cat.variants, lines).value.0, rows.1, itemIds, paymentId, now)
  {
    PlaceOrderChecksPassed(s, cat, userId, lines, addressId, orderId, orderNumber, intentUrl, itemIds, paymentId, now);
    PlaceOrderPricedCart(s, cat, userId, lines, addressId, orderId, orderNumber, intentUrl, itemIds, paymentId, now);
    PlaceOrderReachesCommit(s, cat, userId, lines, addressId, orderId, orderNumber, intentUrl, itemIds, paymentId, now);
  }

  /** A cart that passes the checks and prices goes on to `createFull` with the checkout rows. */
  lemma PlaceOrderReachesCommit(s: Snapshot, cat: Catalog, userId: Id, lines: seq<CartLine>, addressId: Id,
                                orderId: Id, orderNumber: string, intentUrl: string, itemIds: seq<Id>, paymentId: Id, now: Time)
    requires |itemIds| == |lines|
    requires lines != [] && addressId in cat.addresses && cat.addresses[addressId].userId == userId && PaymentsConfigured(cat.settings)
    requires Priced(cat.products, cat.variants, lines).Ok?
    ensures var rows := CheckoutRows(cat, userId, lines, addressId, orderId, orderNumber, intentUrl);
      PlaceOrderOutcome(s, cat, userId, lines, addressId, orderId, orderNumber, intentUrl, itemIds, paymentId, now)
      == CommitOutcome(s, userId, orderId, rows.0, Priced(cat.products, cat.variants, lines).value.0, rows.1, itemIds, paymentId, now)
  {
  }

  /** A successful checkout passed the three checks that come before pricing. */
  lemma PlaceOrderChecksPassed(s: Snapshot, cat: Catalog, userId: Id, lines: seq<CartLine>, addressId: Id,
                               orderId: Id, orderNumber: string, intentUrl: string, itemIds: seq<Id>, paymentId: Id, now: Time)
    requires |itemIds| == |lines|
    requires PlaceOrderOutcome(s, cat, userId, lines, addressId, orderId, orderNumber, intentUrl, itemIds, paymentId, now).result.Ok?
    ensures lines != [] && addressId in cat.addresses && cat.addresses[addressId].userId == userId && PaymentsConfigured(cat.settings)
  {
  }

  /** Once the checks pass, a successful checkout priced every line of the cart. */
  lemma PlaceOrderPricedCart(s: Snapshot, cat: Catalog, userId: Id, lines: seq<CartLine>, addressId: Id,
                             orderId: Id, orderNumber: string, intentUrl: string, itemIds: seq<Id>, paymentId: Id, now: Time)
    requires |itemIds| == |lines|
    requires lines != [] && addressId in cat.addresses && cat.addresses[addressId].userId == userId && PaymentsConfigured(cat.settings)
    requires PlaceOrderOutcome(s, cat, userId, lines, addressId, orderId, orderNumber, intentUrl, itemIds, paymentId, now).result.Ok?
    ensures Priced(cat.products, cat.variants, lines).Ok?
  {
  }

  /**
   * A successful checkout has committed one order (PLACED, payment NONE,
   * no phone, UPI_MANUAL, payable = sum of the line totals) and a NONE
   * payment whose QR payload is the intent link.
   */
  lemma PlaceOrderRows(s: Snapshot, cat: Catalog, userId: Id, lines: seq<CartLine>, addressId: Id,
                       orderId: Id, orderNumber: string, intentUrl: string, itemIds: seq<Id>, paymentId: Id, now: Time)
    requires |itemIds| == |lines|
    requires PlaceOrderOutcome(s, cat, userId, lines, addressId, orderId, orderNumber, intentUrl, itemIds, paymentId, now).result.Ok?
    ensures Priced(cat.products, cat.variants, lines).Ok? && addressId in cat.addresses && cat.settings.Some?
    ensures var o := PlaceOrderOutcome(s, cat, userId, lines, addressId, orderId, orderNumber, intentUrl, itemIds, paymentId, now);
      var ord, pay := o.state.orders[orderId], o.state.payments[orderId];
      && ord.status == Placed && ord.paymentStatus == PayNone && ord.paymentMethod == "UPI_MANUAL"
      && ord.userId == userId && ord.shipTo.phone.None? && ord.shipTo.name == cat.addresses[addressId].labelText
      && ord.shippingPaise == 0 && ord.discountPaise == 0
      && ord.totalItemPaise == SumLines(Priced(cat.products, cat.variants, lines).value.0)
      && ord.totalPayablePaise == ord.totalItemPaise
      && pay.status == PayNone && pay.qrPayload == intentUrl && pay.intentUrl == intentUrl
      && pay.upiVpa == cat.settings.value.upiVpa && pay.id == paymentId
  {
    PlaceOrderCommits(s, cat, userId, lines, addressId, orderId, orderNumber, intentUrl, itemIds, paymentId, now);
    CommittedRows(s, cat, userId, lines, addressId, orderId, orderNumber, intentUrl, itemIds, paymentId, now);
    CheckoutRowsFields(cat, userId, lines, addressId, orderId, orderNumber, intentUrl, paymentId, now);
  }

  /** The order row and the payment row of the commit that follows the checks and the pricing. */
  lemma CommittedRows(s: Snapshot, cat: Catalog, userId: Id, lines: seq<CartLine>, addressId: Id,
                      orderId: Id, orderNumber: string, intentUrl: string, itemIds: seq<Id>, paymentId: Id, now: Time)
    requires |itemIds| == |lines| && addressId in cat.addresses && cat.settings.Some?
    requires Priced(cat.products, cat.variants, lines).Ok?
    requires var rows := CheckoutRows(cat, userId, lines, addressId, orderId, orderNumber, intentUrl);
      CommitOutcome(s, userId, orderId, rows.0, Priced(cat.products, cat.variants, lines).value.0, rows.1, itemIds, paymentId, now).result.Ok?
    ensures var rows := CheckoutRows(cat, userId, lines, addressId, orderId, orderNumber, intentUrl);
      var o := CommitOutcome(s, userId, orderId, rows.0, Priced(cat.products, cat.variants, lines).value.0, rows.1, itemIds, paymentId, now);
      && orderId in o.state.orders && orderId in o.state.payments
      && o.state.orders[orderId] == CustomerOrdersRepo.OrderRow(rows.0, now)
      && o.state.payments[orderId] == CustomerOrdersRepo.PaymentRow(paymentId, rows.1, now)
  {
    var rows := CheckoutRows(cat, userId, lines, addressId, orderId, orderNumber, intentUrl);
    CommitCommitted(s, userId, orderId, rows.0, Priced(cat.products, cat.variants, lines).value.0, rows.1, itemIds, paymentId, now);
  }

  /** The order row and the payment row checkout asks for, field by field. */
  lemma CheckoutRowsFields(cat: Catalog, userId: Id, lines: seq<CartLine>, addressId: Id,
                           orderId: Id, orderNumber: string, intentUrl: string, paymentId: Id, now: Time)
    requires addressId in cat.addresses && cat.settings.Some? && Priced(cat.products, cat.variants, lines).Ok?
    ensures var rows := CheckoutRows(cat, userId, lines, addressId, orderId, orderNumber, intentUrl);
      var ord, pay := CustomerOrdersRepo.OrderRow(rows.0, now), CustomerOrdersRepo.PaymentRow(paymentId, rows.1, now);
      && rows.0.id == orderId
      && ord.status == Placed && ord.paymentStatus == PayNone && ord.paymentMethod == "UPI_MANUAL"
      && ord.userId == userId && ord.shipTo.phone.None? && ord.shipTo.name == cat.addresses[addressId].labelText
      && ord.shippingPaise == 0 && ord.discountPaise == 0
      && ord.totalItemPaise == SumLines(Priced(cat.products, cat.variants, lines).value.0)
      && ord.totalPayablePaise == ord.totalItemPaise
      && pay.status == PayNone && pay.qrPayload == intentUrl && pay.intentUrl == intentUrl
      && pay.upiVpa == cat.settings.value.upiVpa && pay.id == paymentId
  {
    PricedLines(cat.products, cat.variants, lines);
  }

  /**
   * A successful checkout commits in one transaction the order, its
   * priced items and its payment, queues no notification, and only after
   * the commit appends the CREATE audit row.
   */
  lemma PlaceOrderTables(s: Snapshot, cat: Catalog, userId: Id, lines: seq<CartLine>, addressId: Id,
                         orderId: Id, orderNumber: string, intentUrl: string, itemIds: seq<Id>, paymentId: Id, now: Time)
    requires |itemIds| == |lines|
    requires PlaceOrderOutcome(s, cat, userId, lines, addressId, orderId, orderNumber, intentUrl, itemIds, paymentId, now).result.Ok?
    ensures Priced(cat.products, cat.variants, lines).Ok?
    ensures var o := PlaceOrderOutcome(s, cat, userId, lines, addressId, orderId, orderNumber, intentUrl, itemIds, paymentId, now);
      && o.journal == [BeginStmt, CommitStmt]
      && orderId !in s.orders && o.state.orders == s.orders[orderId := o.state.orders[orderId]]
      && orderId !in s.payments && o.state.payments == s.payments[orderId := o.state.payments[orderId]]
      && o.state.items == s.items + CustomerOrdersRepo.ItemRows(orderId, Priced(cat.products, cat.variants, lines).value.0, itemIds)
      && o.state.shipments == s.shipments && o.state.outbox == s.outbox
      && o.state.audit == s.audit + [CheckoutEntry(userId, orderId, o.result.value, now)]
  {
    PlaceOrderCommits(s, cat, userId, lines, addressId, orderId, orderNumber, intentUrl, itemIds, paymentId, now);
    var rows := CheckoutRows(cat, userId, lines, addressId, orderId, orderNumber, intentUrl);
    CommitCommitted(s, userId, orderId, rows.0, Priced(cat.products, cat.variants, lines).value.0, rows.1, itemIds, paymentId, now);
  }

  /** The empty-cart check comes before any lookup: its outcome does not depend on the catalog. */
  lemma EmptyCartRefusedFirst(s: Snapshot, cat1: Catalog, cat2: Catalog, userId: Id, addressId: Id,
                              orderId: Id, orderNumber: string, intentUrl: string, paymentId: Id, now: Time)
    ensures PlaceOrderOutcome(s, cat1, userId, [], addressId, orderId, orderNumber, intentUrl, [], paymentId, now)
         == PlaceOrderOutcome(s, cat2, userId, [], addressId, orderId, orderNumber, intentUrl, [], paymentId, now)
  {
  }

  /** The pricing loop of `placeOrder`, reading products and variants line by line. */
  method PriceCart(db: Database, lines: seq<CartLine>) returns (r: Result<(seq<CustomerOrdersRepo.ItemSnapshot>, int)>)
    ensures r == Priced(db.products, db.variants, lines)
  {
    var snaps: seq<CustomerOrdersRepo.ItemSnapshot> := [];
    var total := 0;
    var i := 0;
    while i < |lines|
      invariant 0 <= i <= |lines|
      invariant Priced(db.products, db.variants, lines[..i]) == Ok((snaps, total))
    {
      var line := PriceLine(db.products, db.variants, lines[i]);
      assert lines[..i + 1][..i] == lines[..i];
      if line.Err? {
        PricedPrefixFails(db.products, db.variants, lines, i + 1);
        return Err(line.thrown);
      }
      snaps := snaps + [line.value];
      total := total + line.value.lineTotalPaise;
      i := i + 1;
    }
    assert lines[..i] == lines;
    r := Ok((snaps, total));
  }

  /** `placeOrder`, step by step on the shared client. */
  method PlaceOrder(db: Database, userId: Id, lines: seq<CartLine>, addressId: Id,
                    orderId: Id, orderNumber: string, intentUrl: string, itemIds: seq<Id>, paymentId: Id, now: Time)
    returns (r: Result<CustomerOrdersRepo.Created>)
    requires |itemIds| == |lines|
    modifies db`orders, db`items, db`payments, db`shipments, db`audit, db`outbox, db`journal, db`savepoint
    ensures var o := PlaceOrderOutcome(old(db.View()), Catalog(db.products, db.variants, db.addresses, db.settings),
                                       userId, lines, addressId, orderId, orderNumber, intentUrl, itemIds, paymentId, now);
      db.View() == o.state && r == o.result && db.journal == old(db.journal) + o.journal
  {
    if lines == [] {
      return Err(NoItems);
    }
    if addressId !in db.addresses || db.addresses[addressId].userId != userId {
      return Err(InvalidAddress);
    }
    if !PaymentsConfigured(db.settings) {
      return Err(PaymentsNotConfigured);
    }
    r := PriceAndCommit(db, userId, lines, addressId, orderId, orderNumber, intentUrl, itemIds, paymentId, now);
  }

  /** The pricing loop, then the commit when every line priced. */
  method PriceAndCommit(db: Database, userId: Id, lines: seq<CartLine>, addressId: Id,
                        orderId: Id, orderNumber: string, intentUrl: string, itemIds: seq<Id>, paymentId: Id, now: Time)
    returns (r: Result<CustomerOrdersRepo.Created>)
    requires |itemIds| == |lines| && addressId in db.addresses && db.settings.Some?
    modifies db`orders, db`items, db`payments, db`shipments, db`audit, db`outbox, db`journal, db`savepoint
    ensures var o := PricedOutcome(old(db.View()), Catalog(db.products, db.variants, db.addresses, db.settings),
                                   userId, lines, addressId, orderId, orderNumber, intentUrl, itemIds, paymentId, now);
      db.View() == o.state && r == o.result && db.journal == old(db.journal) + o.journal
  {
    var priced := PriceCart(db, lines);
    if priced.Err? {
      return Err(priced.thrown);
    }
    var row := CheckoutRow(orderId, orderNumber, userId, priced.value.1, db.addresses[addressId]);
    var payment := CustomerOrdersRepo.CreatePaymentRow(db.settings.value.upiVpa, intentUrl, intentUrl, PayNone);
    r := CommitCheckout(db, userId, orderId, row, priced.value.0, payment, itemIds, paymentId, now);
  }

  /** `createFull` followed, when it committed, by the checkout's CREATE audit row. */
  method CommitCheckout(db: Database, userId: Id, orderId: Id, row: CustomerOrdersRepo.CreateOrderRow,
                        snaps: seq<CustomerOrdersRepo.ItemSnapshot>, payment: CustomerOrdersRepo.CreatePaymentRow,
                        itemIds: seq<Id>, paymentId: Id, now: Time)
    returns (r: Result<CustomerOrdersRepo.Created>)
    requires |itemIds| == |snaps|
    modifies db`orders, db`items, db`payments, db`shipments, db`audit, db`outbox, db`journal, db`savepoint
    ensures var o := CommitOutcome(old(db.View()), userId, orderId, row, snaps, payment, itemIds, paymentId, now);
      db.View() == o.state && r == o.result && db.journal == old(db.journal) + o.journal
  {
    r := CustomerOrdersRepo.CreateFull(db, row, snaps, payment, itemIds, paymentId, now);
    if r.Ok? {
      AuditService.Append(db, userId, "order", orderId, "CREATE", Some(JNull),
                          Some(JCheckout(orderId, r.value.order, r.value.items, r.value.payment)), now);
    }
  }

  // ---------------------------------------------------------------------
  // The customer's own orders.
  // ---------------------------------------------------------------------

  /** `listMyOrders`: page = max(1, page), pageSize = min(100, max(1, pageSize)), then the repository's plan. */
  function ListMyOrders(userId: Id, page: int, pageSize: int): (r: (int, int, CustomerOrdersRepo.MyListPlan))
    ensures r.0 >= 1 && 1 <= r.1 <= 100
    ensures page >= 1 ==> r.0 == page
    ensures 1 <= pageSize <= 100 ==> r.1 == pageSize
    ensures r.2 == CustomerOrdersRepo.ListForUser(userId, r.0, r.1)
    ensures Placeholders.At(r.2.listParams, r.2.offsetParam).n >= 0
  {
    var p := if page < 1 then 1 else page;
    var size := Clamp(1, 100, pageSize);
    (p, size, CustomerOrdersRepo.ListForUser(userId, p, size))
  }

  /** `getMyOrder`: NOT FOUND unless the user owns the order. */
  function GetMyOrder(s: Snapshot, orderId: Id, userId: Id): (r: Result<CustomerOrdersRepo.Detail>)
    ensures r.Ok? <==> CustomerOrdersRepo.Owns(s, orderId, userId)
    ensures r.Err? ==> r == Err(Throw(NotFound, "Order not found"))
    ensures r.Ok? ==> r.value.order == s.orders[orderId]
  {
    var found := CustomerOrdersRepo.GetByIdForUser(s, orderId, userId);
    if found.None? then Err(Throw(NotFound, "Order not found")) else Ok(found.value)
  }

  // ---------------------------------------------------------------------
  // Payment proof.
  // ---------------------------------------------------------------------

  const ProofOrderNotFound := Throw(NotFound, "Order not found")
  const ChannelMissing := Throw(Conflict, "Payment channel not initialized for this order")
  const AlreadyConfirmed := Throw(Conflict, "Payment already confirmed")
  const NotEligible := Throw(Conflict, "Order not eligible for proof submission")
  const InvalidFileType := Throw(BadRequest, "Invalid file type")

  /** The upload types a proof may have. */
  predicate AllowedImage(mime: string) {
    mime == "image/jpeg" || mime == "image/png" || mime == "image/webp"
  }

  /** Whether a proof is accepted for this order now. */
  predicate ProofAcceptable(s: Snapshot, orderId: Id, userId: Id, mime: string) {
    && CustomerOrdersRepo.Owns(s, orderId, userId)
    && orderId in s.payments && s.payments[orderId].status != PayConfirmed
    && s.orders[orderId].status != Cancelled && s.orders[orderId].status != Delivered
    && AllowedImage(mime)
  }

  /**
   * The guards of `submitPaymentProof`, in order, on what
   * `getByIdForUser` returned: the user's order, its payment row, a
   * payment not yet confirmed, an order neither cancelled nor delivered,
   * and an image type.
   */
  function ProofGuard(found: Option<CustomerOrdersRepo.Detail>, mime: string): Option<Thrown> {
    if found.None? then Some(ProofOrderNotFound)
    else if found.value.payment.None? then Some(ChannelMissing)
    else if found.value.payment.value.status == PayConfirmed then Some(AlreadyConfirmed)
    else if found.value.order.status == Cancelled || found.value.order.status == Delivered then Some(NotEligible)
    else if !AllowedImage(mime) then Some(InvalidFileType)
    else None
  }

  /** The SUBMIT_PROOF audit row: before the prior payment status, after the new status, the URL and the reference. */
  function ProofEntry(userId: Id, updated: Payment, prior: PaymentStatus, url: string, referenceText: Option<string>, now: Time)
    : AuditEntry
  {
    AuditService.Entry(userId, "payment", updated.id, "SUBMIT_PROOF", Some(JPaymentStatus(prior)),
                       Some(JProof(updated.status, url, referenceText)), now)
  }

  /**
   * `submitPaymentProof`: the guards run before anything is written; the
   * upload yields `url` (an argument); `submitProof` commits the payment
   * and order updates; the audit row is written after that commit.
   */
  function SubmitPaymentProofOutcome(s: Snapshot, orderId: Id, userId: Id, mime: string, url: string,
                                     referenceText: Option<string>, now: Time): Outcome<CustomerPaymentsRepo.Submitted>
  {
    var found := CustomerOrdersRepo.GetByIdForUser(s, orderId, userId);
    var guard := ProofGuard(found, mime);
    if guard.Some? then Refused(s, guard.value)
    else
      var o := CustomerPaymentsRepo.SubmitProofOutcome(s, orderId, url, referenceText, now);
      var updated := o.state.payments[orderId];
      Outcome(o.state.(audit := o.state.audit + [ProofEntry(userId, updated, found.value.payment.value.status, url, referenceText, now)]),
              o.result, o.journal)
  }

  /**
   * What proof submission promises: it is accepted exactly when the user
   * owns the order, the payment row exists and is not CONFIRMED, the
   * order is neither CANCELLED nor DELIVERED and the file is an image;
   * each refusal has its own error and writes nothing; an accepted proof
   * is what `submitProof` commits, plus the audit row appended after it.
   */
  lemma SubmitPaymentProofSpec(s: Snapshot, orderId: Id, userId: Id, mime: string, url: string,
                               referenceText: Option<string>, now: Time)
    ensures var o := SubmitPaymentProofOutcome(s, orderId, userId, mime, url, referenceText, now);
      o.result.Ok? <==> ProofAcceptable(s, orderId, userId, mime)
    ensures var o := SubmitPaymentProofOutcome(s, orderId, userId, mime, url, referenceText, now);
      o.result.Err? ==> o.state == s && o.journal == []
    ensures var o := SubmitPaymentProofOutcome(s, orderId, userId, mime, url, referenceText, now);
      && (!CustomerOrdersRepo.Owns(s, orderId, userId) ==> o.result == Err(ProofOrderNotFound))
      && (CustomerOrdersRepo.Owns(s, orderId, userId) && orderId !in s.payments ==> o.result == Err(ChannelMissing))
      && (CustomerOrdersRepo.Owns(s, orderId, userId) && orderId in s.payments && s.payments[orderId].status == PayConfirmed
          ==> o.result == Err(AlreadyConfirmed))
    ensures var o := SubmitPaymentProofOutcome(s, orderId, userId, mime, url, referenceText, now);
      o.result.Ok? ==>
      var committed := CustomerPaymentsRepo.SubmitProofOutcome(s, orderId, url, referenceText, now);
      var q := o.state.payments[orderId];
      && o.journal == [BeginStmt, CommitStmt]
      && o.state == committed.state.(audit := s.audit + [ProofEntry(userId, q, s.payments[orderId].status, url, referenceText, now)])
      && o.state.orders[orderId].status == PaymentSubmitted && o.state.orders[orderId].paymentStatus == PaySubmitted
      && q.status == PaySubmitted && q.screenshotUrl == Some(url) && q.referenceText == referenceText
      && q.rejectionReason == s.payments[orderId].rejectionReason
  {
    CustomerPaymentsRepo.SubmitProofSpec(s, orderId, url, referenceText, now);
  }

  /** `submitPaymentProof`, step by step on the shared client. */
  method SubmitPaymentProof(db: Database, orderId: Id, userId: Id, mime: string, url: string,
                            referenceText: Option<string>, now: Time) returns (r: Result<CustomerPaymentsRepo.Submitted>)
    modifies db`payments, db`orders, db`audit, db`journal, db`savepoint
    ensures var o := SubmitPaymentProofOutcome(old(db.View()), orderId, userId, mime, url, referenceText, now);
      db.View() == o.state && r == o.result && db.journal == old(db.journal) + o.journal
  {
    ghost var s0 := db.View();
    var found := CustomerOrdersRepo.GetByIdForUser(db.View(), orderId, userId);
    var guard := ProofGuard(found, mime);
    if guard.Some? {
      r := Err(guard.value);
      return;
    }
    var prior := found.value.payment.value.status;
    r := CustomerPaymentsRepo.SubmitProof(db, orderId, url, referenceText, now);
    var updated := db.payments[orderId];
    AuditService.Append(db, userId, "payment", updated.id, "SUBMIT_PROOF", Some(JPaymentStatus(prior)),
                        Some(JProof(updated.status, url, referenceText)), now);
  }
}
