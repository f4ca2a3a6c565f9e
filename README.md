# Order lifecycle of the Rudraksha shop API, modelled in Dafny

The shop's API sells rudraksha, gemstones and accessories. Customers pay
by UPI and upload a screenshot as proof. The owner confirms or rejects the
payment, packs the order, ships it and marks it delivered. This project
models the services and repositories behind that flow, and proves what
they promise.

The centre of the model is the **order lifecycle**:
`PLACED → PAYMENT_SUBMITTED → PAYMENT_CONFIRMED → PACKED → SHIPPED → DELIVERED`,
with `CANCELLED` as a side exit.

- **One shared client.** The database is one `Db.Database` object, with one
  field per table. Every service method takes it, checks its guards, and
  then writes through the repositories.
- **Transactions.** Writes inside a transaction go through `Tx`: BEGIN,
  then COMMIT, or ROLLBACK and rethrow. The object records the statements
  it ran in a journal and keeps a savepoint, so a rollback restores the
  tables.
- **Outcome functions.** Each lifecycle operation (pack/cancel, confirm,
  reject, ship, deliver, proof submission, checkout) has a pure function
  that gives the resulting tables, result and journal. A lemma states what
  that function means. The method is proved to produce exactly that
  outcome.
- **Invariant.** `Lifecycle` proves that every operation preserves the
  invariant tying the orders, payments and shipments tables together:
  - every order past payment confirmation has a confirmed payment status;
  - a payment row's status is mirrored on its order;
  - an order has a shipment exactly when it has been shipped or delivered;
  - every notification is addressed to the empty string, since checkout
    never stores a phone;
  - every item belongs to an order.
- **Supporting parts:**
  - checkout pricing;
  - the placeholder numbering of the batched inserts (`Placeholders`);
  - slugs and the unique-slug search;
  - product listing and search filters, sort and price buckets;
  - the home feed grouping;
  - the one-default-address discipline;
  - refresh-token rotation;
  - the singleton settings row;
  - the TTL parser;
  - the error constructor;
  - pagination;
  - the mobile dashboard's date ranges.

Clocks, generated ids and tokens, password and token hashing, and upload
URLs are parameters. The database clock `NOW()` is one `now` per call.

In three places the code does not do what its design suggests. The model
follows the code:
- Reject does not check the order's status. A `CANCELLED` order whose
  payment is still `SUBMITTED` is rejected back to `PAYMENT_SUBMITTED`, so
  `CANCELLED` is not terminal (`Lifecycle.CancelledOrderRevived`).
- Notifications are addressed to `ship_phone ?? ""`. Checkout always
  stores a null phone, so every notification goes to `""`
  (`Lifecycle.NoticeToNoOne`).
- The checkout audit row is written after the order's transaction has
  committed, not inside it.

The schema's `UNIQUE` constraint on `products.slug` also covers
soft-deleted rows, but `ensureUniqueSlug` ignores deleted rows. It can
therefore pick a slug that a deleted product still holds
(`ProductRepo.DeletedSlugReturned`). With the values bound as intended
(`ProductRepo.Update`), that retitle is refused as a duplicate key. As
written, a retitle goes wrong earlier. `slug = $1` takes the first
placeholder, so every other column reads its neighbour's value, and
`stock_qty` reads the new slug. The statement is refused unless that slug
is a number (`ProductRepo.UpdateAsWritten`); see "Findings".

## Model

| member | source | states |
|---|---|---|
| OrdersService.ManualGuard | apps/api/src/services/orders.service.ts:42-55 | PACKED passes exactly from PAYMENT_CONFIRMED; CANCELLED passes from every status but SHIPPED, DELIVERED and CANCELLED; a refused pack or cancel is CONFLICT/409; any other target is BAD_REQUEST/400 |
| OrdersService.UpdateStatusOutcome | apps/api/src/services/orders.service.ts:38-88 | succeeds iff the order exists and the guard passes; a refusal (NOT_FOUND for a missing order) changes no table and opens no transaction; a success runs BEGIN then COMMIT, sets the target status keeping the payment status, appends one PACK/CANCEL audit row holding the rows before and after, and one `order_packed`/`order_cancelled` outbox row (the latter with the reason or null) addressed to the ship phone or "" |
| OrdersService.UpdateStatus | apps/api/src/services/orders.service.ts:38-88 | the tables, the result and the BEGIN/COMMIT journal are those of `UpdateStatusOutcome` |
| OrdersService.ManualTx | apps/api/src/services/orders.service.ts:57-87 | the order takes the new status, one PACK or CANCEL audit row and one order_packed or order_cancelled notification are appended, and the journal gains BEGIN and COMMIT |
| OrdersService.CancelKeepsPaymentStatus | apps/api/src/services/orders.service.ts:57-59 | a cancel never changes the order's payment status |
| OrdersService.SecondPackRefused | apps/api/src/services/orders.service.ts:43-46 | after a successful pack, a second pack is refused with CONFLICT and changes nothing |
| OrdersService.AscendingPairwise | apps/api/src/services/orders.service.ts:90-102 | a timeline ascending step by step has its codes in strictly increasing fixed order at every pair of positions |
| OrdersService.PushIf | apps/api/src/services/orders.service.ts:92-100 | a conditional push of a later code keeps the timeline in ascending code order and keeps its first entry |
| OrdersService.PushIfLists | apps/api/src/services/orders.service.ts:92-100 | after a conditional push the timeline lists a status exactly when it listed it before or the push happened with that status |
| OrdersService.PaymentSteps | apps/api/src/services/orders.service.ts:93-96 | adding the payment entries keeps the order of codes and the first entry |
| OrdersService.PaymentStepsLists | apps/api/src/services/orders.service.ts:93-96 | PAYMENT_SUBMITTED is added iff the payment has `submitted_at`; PAYMENT_CONFIRMED iff it has `verified_at` and status CONFIRMED |
| OrdersService.ShipmentSteps | apps/api/src/services/orders.service.ts:98-99 | adding the shipment entries keeps the order of codes and the first entry |
| OrdersService.ShipmentStepsLists | apps/api/src/services/orders.service.ts:98-99 | SHIPPED is added iff the shipment has `shipped_at`; DELIVERED iff it has `delivered_at` |
| OrdersService.Timeline | apps/api/src/services/orders.service.ts:90-102 | the timeline starts with PLACED at the order's creation time and lists codes in the fixed order PLACED … CANCELLED |
| OrdersService.EarlyStepsLists | apps/api/src/services/orders.service.ts:90-97 | up to PACKED the timeline lists PLACED always, PAYMENT_SUBMITTED when the payment was submitted, PAYMENT_CONFIRMED when it is CONFIRMED and verified, and PACKED when the order is |
| OrdersService.TimelineLists | apps/api/src/services/orders.service.ts:92-100 | a code is in the timeline exactly when its evidence holds (the order for PLACED, PACKED and CANCELLED, the payment for the two payment codes, the shipment for SHIPPED and DELIVERED) |
| OrdersService.PackedGoneAfterShipping | apps/api/src/services/orders.service.ts:97 | a shipped or delivered order's timeline has no PACKED entry |
| OrdersService.TimelineCodesDistinct | apps/api/src/services/orders.service.ts:90-102 | no code appears twice in a timeline |
| OrdersService.ListPage | apps/api/src/services/orders.service.ts:22 | the page is at least 1, 1 when absent, and a valid page is kept |
| OrdersService.ListLimit | apps/api/src/services/orders.service.ts:23 | the limit lies in 1..100, is 20 when absent, and a limit in range is kept |
| OrdersService.List | apps/api/src/services/orders.service.ts:21-25 | the listing runs with the clamped page and limit, its LIMIT/OFFSET values follow the filter values, and its filters decode to the caller's |
| OrdersRepo.GetById | apps/api/src/repositories/orders.repo.ts:94-98 | null exactly when no order has that id, otherwise that row |
| OrdersRepo.WithStatus | apps/api/src/repositories/orders.repo.ts:115-118 | only the one order changes, and in it only status and `updated_at` |
| OrdersRepo.UpdateStatusTx | apps/api/src/repositories/orders.repo.ts:115-118 | the orders table becomes `WithStatus` of the old one and the updated row is returned |
| OrdersRepo.WithStatuses | apps/api/src/repositories/orders.repo.ts:120-136 | only the supplied payment status and status change, with `updated_at`; every other column and order is unchanged |
| OrdersRepo.StatusesGeneraliseStatus | apps/api/src/repositories/orders.repo.ts:115-136 | `updateStatusesTx` with only a status is `updateStatusTx` |
| OrdersRepo.UpdateStatusesTx | apps/api/src/repositories/orders.repo.ts:120-136 | the orders table becomes `WithStatuses` of the old one and the updated row is returned |
| OrdersRepo.NewNotification | apps/api/src/repositories/orders.repo.ts:146-152 | an outbox row has channel SMS, status PENDING and the given recipient, template and payload |
| OrdersRepo.EnqueueNotificationTx | apps/api/src/repositories/orders.repo.ts:146-152 | exactly one outbox row is appended |
| OrdersRepo.SortFor | apps/api/src/repositories/orders.repo.ts:51-54 | `order_number` sorts by order number ascending, `-created_at` by creation descending, anything else by creation ascending |
| OrdersRepo.Wanted | apps/api/src/repositories/orders.repo.ts:21-48 | each filter is present iff its argument is given (truthy); a scalar status or payment status becomes a one-element list; the text filter is `%q%` |
| OrdersRepo.BuildList | apps/api/src/repositories/orders.repo.ts:17-91 | each pushed value takes the next placeholder and the WHERE clause decodes to `Wanted`; LIMIT and OFFSET take the two indices after the filters, with offset (page-1)*limit; the page size echoed is the limit |
| PaymentsService.GuardForAction | apps/api/src/services/payments.service.ts:130-138 | NOT_FOUND when the order is missing, "Payment record missing" CONFLICT when it has no payment, otherwise the pair of rows |
| PaymentsService.ConfirmedReference | apps/api/src/services/payments.service.ts:40 | the UTR given with the confirmation wins; without one the payment keeps its earlier reference |
| PaymentsService.ConfirmSpec | apps/api/src/services/payments.service.ts:19-76 | a confirmation succeeds iff order and payment exist, the payment is SUBMITTED and the order PAYMENT_SUBMITTED; a refusal changes nothing and opens no transaction; a success commits a CONFIRMED payment verified now by the actor with the chosen reference, an order in PAYMENT_CONFIRMED/CONFIRMED, two CONFIRM_PAYMENT audit rows by the actor (the payment, then the order, each with its row before and after) and one `payment_confirmed` notification; items and shipments are untouched |
| PaymentsService.RejectSpec | apps/api/src/services/payments.service.ts:78-128 | a rejection succeeds iff order and payment exist and the payment is SUBMITTED (the order status is not checked); a success stores the reason, keeps the verification columns, puts the order back to PAYMENT_SUBMITTED with payment status REJECTED, and adds two REJECT_PAYMENT audit rows by the actor (the payment, then the order, each with its row before and after) and one `payment_rejected` notification carrying the reason |
| PaymentsService.ApplyVerdict | apps/api/src/services/payments.service.ts:29-75 | the statements inside the transaction leave the database in the state the verdict's specification describes and return the updated pair |
| PaymentsService.Confirm | apps/api/src/services/payments.service.ts:19-76 | the database, result and transaction journal are those `ConfirmSpec` characterises |
| PaymentsService.Reject | apps/api/src/services/payments.service.ts:78-128 | the database, result and transaction journal are those `RejectSpec` characterises |
| PaymentsService.ApplyEffects | apps/api/src/services/payments.service.ts:29-128 | the verdict's body keeps the order and payment ids, writes the payment verdict and both order statuses, returns the updated pair, appends the payment then the order audit row, each with its row before and after, and exactly one notification, and leaves items and shipments alone |
| PaymentsService.VerdictTx | apps/api/src/services/payments.service.ts:29-128 | BEGIN, the verdict's body and COMMIT: the tables are those the body leaves and the journal gains BEGIN and COMMIT |
| PaymentsService.SecondConfirmRefused | apps/api/src/services/payments.service.ts:22-24 | a payment cannot be confirmed twice: the second confirmation is refused and changes nothing |
| PaymentsService.NotesNeverStored | apps/api/src/services/payments.service.ts:19-76 | the `notes` of a confirmation have no effect on the outcome |
| PaymentsService.RejectRevivesCancelled | apps/api/src/services/payments.service.ts:78-100 | rejecting a still-SUBMITTED payment of a CANCELLED order succeeds, moves the order back to PAYMENT_SUBMITTED for the same customer, and leaves the payment REJECTED |
| PaymentsService.List | apps/api/src/services/payments.service.ts:13-17 | page and limit are clamped like the orders list and the query's filters decode to the caller's |
| PaymentsRepo.GetByOrderId | apps/api/src/repositories/payments.repo.ts:78-82 | null exactly when the order has no payment, otherwise its row |
| PaymentsRepo.WithVerdict | apps/api/src/repositories/payments.repo.ts:84-112 | only that payment changes; status and `updated_at` always; each extra column exactly when its extra is supplied (`verified_at` when truthy, the others when not undefined); every other column is kept |
| PaymentsRepo.VerdictWithoutExtras | apps/api/src/repositories/payments.repo.ts:84-112 | repeating a verdict without extras changes nothing more than its first application |
| PaymentsRepo.UpdateStatusTx | apps/api/src/repositories/payments.repo.ts:84-112 | the payments table becomes `WithVerdict` of the old one and the updated row is returned |
| PaymentsRepo.SortFor | apps/api/src/repositories/payments.repo.ts:44 | descending exactly for `-created_at` |
| PaymentsRepo.Wanted | apps/api/src/repositories/payments.repo.ts:20-41 | the status filter is always present, defaulting to the SUBMITTED queue; a scalar status becomes a one-element list; from, to and q are present iff given, q as `%q%` |
| PaymentsRepo.BuildList | apps/api/src/repositories/payments.repo.ts:16-76 | every value gets the next placeholder and the WHERE clause decodes to `Wanted`; LIMIT and OFFSET bind the last two values, offset (page-1)*limit |
| Tx.Refused | apps/api/src/repositories/_tx.ts:8-19 | a failure before the transaction opens leaves the state unchanged and issues no statement |
| Tx.WithTx | apps/api/src/repositories/_tx.ts:8-19 | BEGIN is followed by COMMIT and the body's state when the body succeeds, and by ROLLBACK and the starting state when it throws; the body's result or error is passed on |
| Tx.Begin | apps/api/src/repositories/_tx.ts:10 | records BEGIN and the state to return to |
| Tx.Commit | apps/api/src/repositories/_tx.ts:13 | records COMMIT and keeps the state |
| Tx.Rollback | apps/api/src/repositories/_tx.ts:16 | records ROLLBACK and restores the state saved at BEGIN |
| AuditService.Stored | apps/api/src/services/audit.service.ts:19 | a missing before or after document is stored as SQL null |
| AuditService.Entry | apps/api/src/services/audit.service.ts:15-21 | the row holds the actor, entity, id, action, both documents and the time |
| AuditService.Append | apps/api/src/services/audit.service.ts:15-21 | exactly one row is appended to the audit log, which is otherwise unchanged |
| ShipmentsService.ShipmentAction | apps/api/src/services/shipments.service.ts:40 | UPDATE_SHIPMENT exactly when a shipment already existed, CREATE_SHIPMENT exactly when none did |
| ShipmentsService.Previous | apps/api/src/services/shipments.service.ts:41 | the audit's "before" is the existing shipment, or null when there was none |
| ShipmentsService.ShipSpec | apps/api/src/services/shipments.service.ts:13-61 | shipping succeeds iff the order exists and is PACKED (NOT_FOUND for a missing order); a refusal changes nothing and opens no transaction; a success commits a SHIPPED order with its payment status kept, a shipment for the order holding the courier, AWB, tracking URL and `shipped_at` (its id and delivery kept if it existed, a new id and no delivery otherwise), a shipment audit row with the right action and "before", a SHIP order audit row and one `order_shipped` notification carrying the order number and tracking URL; payments and items are untouched |
| ShipmentsService.ApplyShipTx | apps/api/src/services/shipments.service.ts:22-60 | the statements inside the transaction leave the database as the shipping specification describes |
| ShipmentsService.Ship | apps/api/src/services/shipments.service.ts:13-61 | the database, result and transaction journal are those `ShipSpec` characterises |
| ShipmentsService.ShipTx | apps/api/src/services/shipments.service.ts:22-60 | BEGIN, the shipping body and COMMIT: the tables are those the body leaves and the journal gains BEGIN and COMMIT |
| ShipmentsService.SecondShipRefused | apps/api/src/services/shipments.service.ts:20 | an order cannot be shipped twice: the second attempt is refused and changes nothing |
| ShipmentsService.DeliverSpec | apps/api/src/services/shipments.service.ts:63-102 | delivery succeeds iff the order exists, is SHIPPED and has a shipment; a SHIPPED order without a shipment opens a transaction and rolls it back; any refusal leaves the state unchanged; a success commits a DELIVERED order, a shipment stamped delivered now with its other columns kept, two DELIVER audit rows and one `order_delivered` notification |
| ShipmentsService.ApplyDeliverTx | apps/api/src/services/shipments.service.ts:73-100 | the statements inside the transaction leave the database as the delivery specification describes |
| ShipmentsService.Deliver | apps/api/src/services/shipments.service.ts:63-102 | the database, result and transaction journal are those `DeliverSpec` characterises |
| ShipmentsService.DeliverTx | apps/api/src/services/shipments.service.ts:68-101 | inside the transaction a missing shipment row rolls back with "Shipment record missing" and nothing written; otherwise the delivery body commits |
| ShipmentsService.SecondDeliverRefused | apps/api/src/services/shipments.service.ts:66 | an order cannot be delivered twice |
| ShipmentsService.ShipThenDeliver | apps/api/src/services/shipments.service.ts:13-102 | an order just shipped can be delivered, and the delivered shipment keeps the tracking URL and shipping time |
| ShipmentsRepo.GetByOrderId | apps/api/src/repositories/shipments.repo.ts:6-16 | null exactly when the order has no shipment, otherwise its row |
| ShipmentsRepo.Upserted | apps/api/src/repositories/shipments.repo.ts:18-42 | the order afterwards has a shipment with the given courier, AWB, tracking URL and shipping time; an existing row keeps its id, creation and delivery times, a new row gets the new id, creation now and no delivery; other shipments are unchanged |
| ShipmentsRepo.UpsertAgainKeepsRow | apps/api/src/repositories/shipments.repo.ts:18-42 | upserting the same input twice changes only `updated_at` the second time |
| ShipmentsRepo.UpsertTx | apps/api/src/repositories/shipments.repo.ts:18-42 | the shipments table becomes `Upserted` of the old one and the order's row is returned |
| ShipmentsRepo.WithDelivered | apps/api/src/repositories/shipments.repo.ts:44-47 | only `delivered_at` and `updated_at` of that shipment change |
| ShipmentsRepo.DeliverAfterUpsert | apps/api/src/repositories/shipments.repo.ts:18-47 | delivery after shipping keeps what shipping wrote and records the delivery time |
| ShipmentsRepo.SetDeliveredTx | apps/api/src/repositories/shipments.repo.ts:44-47 | the shipments table becomes `WithDelivered` of the old one and the row is returned |
| CustomerOrdersService.FindVariant | apps/api/src/services/customer.orders.service.ts:119-126 | the intended variant lookup by id (the repository defines no `findById`; see Findings): the row when it exists, nothing otherwise |
| CustomerOrdersService.PriceLine | apps/api/src/services/customer.orders.service.ts:106-145 | a cart line is priced iff its quantity is 1..10, its product is active and not deleted, a given variant is active and of that product, and the product is in stock (unknown stock counts as in stock); the snapshot then copies product, variant, quantity and title, takes the variant's price when it has one and the product's otherwise, and its line total is unit price × quantity; a bad quantity is reported before a bad product |
| CustomerOrdersService.VariantLinesFailAsWritten | apps/api/src/services/customer.orders.service.ts:119-126 | as written, every line that names a valid variant fails, although the intended pricing accepts it |
| CustomerOrdersService.Priced | apps/api/src/services/customer.orders.service.ts:106-145 | a priced cart has one snapshot per line |
| CustomerOrdersService.PricedLines | apps/api/src/services/customer.orders.service.ts:106-145 | each snapshot is its line priced alone, in cart order, and the total is the sum of the line totals |
| CustomerOrdersService.PricedIffAllLines | apps/api/src/services/customer.orders.service.ts:106-145 | a cart is priced iff every one of its lines is |
| CustomerOrdersService.PricedFirstError | apps/api/src/services/customer.orders.service.ts:106-145 | a refused cart reports the error of its first refused line, all earlier lines being fine |
| CustomerOrdersService.PricedPrefixFails | apps/api/src/services/customer.orders.service.ts:106-145 | once a prefix of the cart fails, the later lines make no difference |
| CustomerOrdersService.PlaceOrderRefusals | apps/api/src/services/customer.orders.service.ts:80-93 | a refused checkout leaves every table unchanged; an empty cart is refused with "No items provided" before anything is read |
| CustomerOrdersService.PlaceOrderAccepted | apps/api/src/services/customer.orders.service.ts:80-215 | a checkout succeeds iff the cart is non-empty, the address belongs to the user, payments are configured (a VPA and a business name), every line prices (with the corrected variant lookup and items insert), the order id is new and no order already has the order number |
| CustomerOrdersService.PlaceOrderCommits | apps/api/src/services/customer.orders.service.ts:147-214 | a successful checkout passed the address and payments checks and priced every line, and its outcome is exactly the commit step on the order row, the priced snapshots and the NONE payment row: `createFull`, then one CREATE audit row holding the created rows |
| CustomerOrdersService.PlaceOrderRows | apps/api/src/services/customer.orders.service.ts:147-197 | the new order is PLACED, payment NONE, UPI_MANUAL, owned by the user, shipped to the address (its label as name, no phone), with no shipping or discount and a payable total equal to the sum of the line totals; the payment row is NONE with the shop's VPA and the intent URL as QR payload |
| CustomerOrdersService.PlaceOrderTables | apps/api/src/services/customer.orders.service.ts:170-212 | a successful checkout adds exactly one order, one payment, one item row per cart line and one audit row, in one committed transaction, and leaves shipments and notifications alone |
| CustomerOrdersService.CommitCommitted | apps/api/src/services/customer.orders.service.ts:170-212 | when `createFull` commits, the order id was new, the cart non-empty, the journal is BEGIN/COMMIT, and the tables gain exactly the order row, the item rows, the payment row and one CREATE audit row |
| CustomerOrdersService.EmptyCartRefusedFirst | apps/api/src/services/customer.orders.service.ts:81-83 | the outcome for an empty cart does not depend on the catalogue, addresses or settings |
| CustomerOrdersService.PriceCart | apps/api/src/services/customer.orders.service.ts:95-149 | the pricing loop computes the same snapshots, total or first error as `Priced` |
| CustomerOrdersService.PlaceOrder | apps/api/src/services/customer.orders.service.ts:80-215 | the database, result and transaction journal are those the checkout specification characterises |
| CustomerOrdersService.PriceAndCommit | apps/api/src/services/customer.orders.service.ts:95-214 | once the checks pass: a line that does not price refuses the checkout with nothing written; otherwise the commit step with the priced snapshots, the order row and the NONE payment row |
| CustomerOrdersService.CommitCheckout | apps/api/src/services/customer.orders.service.ts:170-212 | `createFull`, then, only when it committed, the CREATE audit row; a refused insert writes nothing else |
| CustomerOrdersService.ListMyOrders | apps/api/src/services/customer.orders.service.ts:218-229 | page at least 1 and kept when valid; page size in 1..100 and kept when valid; the listing uses them with a non-negative offset |
| CustomerOrdersService.GetMyOrder | apps/api/src/services/customer.orders.service.ts:232-236 | the order is returned iff it exists and belongs to the user; otherwise "Order not found" |
| CustomerOrdersService.SubmitPaymentProofSpec | apps/api/src/services/customer.orders.service.ts:239-296 | a proof is accepted iff the order is the user's, it has a payment, the payment is not CONFIRMED, the order is neither CANCELLED nor DELIVERED and the file is JPEG, PNG or WebP; the refusals come in that order and change nothing; an accepted proof commits the repository's update (payment SUBMITTED with the screenshot and reference, order PAYMENT_SUBMITTED) and appends one SUBMIT_PROOF audit row |
| CustomerOrdersService.SubmitPaymentProof | apps/api/src/services/customer.orders.service.ts:239-296 | the database, result and journal are those `SubmitPaymentProofSpec` characterises |
| Lifecycle.EmptyInv | apps/api/src/services/customer.orders.service.ts:80-215 | the empty database satisfies the lifecycle invariant |
| Lifecycle.ConfinedKeepsInv | apps/api/src/services/orders.service.ts:38-88 | a transition that touches the rows of one order only, and leaves them agreeing, keeps the lifecycle invariant |
| Lifecycle.NoticeToNoOne | apps/api/src/services/orders.service.ts:78-84 | a notification for an order without a phone is addressed to "" |
| Lifecycle.UpdateStatusConfined | apps/api/src/services/orders.service.ts:38-88 | pack and cancel change the rows of their order only and keep them agreeing |
| Lifecycle.ConfirmConfined | apps/api/src/services/payments.service.ts:19-76 | confirmation changes the rows of its order only and keeps them agreeing |
| Lifecycle.RejectConfined | apps/api/src/services/payments.service.ts:78-128 | rejection changes the rows of its order only and keeps them agreeing |
| Lifecycle.ShipConfined | apps/api/src/services/shipments.service.ts:13-61 | shipping changes the rows of its order only and keeps them agreeing |
| Lifecycle.DeliverConfined | apps/api/src/services/shipments.service.ts:63-102 | delivery changes the rows of its order only and keeps them agreeing |
| Lifecycle.SubmitProofConfined | apps/api/src/services/customer.orders.service.ts:239-296 | a proof submission changes the rows of its order only and keeps them agreeing |
| Lifecycle.PlaceOrderConfined | apps/api/src/services/customer.orders.service.ts:80-215 | a checkout adds the rows of its new order only, and they agree |
| Lifecycle.StepKeepsInv | apps/api/src/services/orders.service.ts:38-88 | every lifecycle operation, successful or not, keeps the invariant: an order past confirmation has payment CONFIRMED, a payment row's status is mirrored on its order, a shipment exists exactly for SHIPPED and DELIVERED orders, every item has its order |
| Lifecycle.RunKeepsInv | apps/api/src/services/orders.service.ts:38-88 | any run of lifecycle operations keeps the invariant |
| Lifecycle.ReachableStates | apps/api/src/services/customer.orders.service.ts:181 | in every reachable database an order in PAYMENT_CONFIRMED, PACKED, SHIPPED or DELIVERED has payment status CONFIRMED, and every notification is addressed to "" because checkout never stores a phone |
| Lifecycle.InvPaidConfirmed | apps/api/src/services/customer.orders.service.ts:181 | under the lifecycle invariant every order past confirmation has payment CONFIRMED and no notification has a recipient |
| Lifecycle.DeliverNeverRollsBack | apps/api/src/services/shipments.service.ts:70-71 | in a reachable database the "Shipment record missing" rollback cannot happen |
| Lifecycle.ShipAlwaysCreates | apps/api/src/services/shipments.service.ts:24-43 | in a reachable database shipping always creates the shipment (CREATE_SHIPMENT, the new id); the update branch is never taken |
| Lifecycle.ProofOnlyBeforeConfirmation | apps/api/src/services/customer.orders.service.ts:250-255 | in a reachable database a proof is accepted only for PLACED or PAYMENT_SUBMITTED orders |
| Lifecycle.CancelThenReject | apps/api/src/services/payments.service.ts:78-100 | cancelling an order awaiting verification and then rejecting its payment brings the order back to PAYMENT_SUBMITTED with payment REJECTED |
| Lifecycle.ProofThenConfirm | apps/api/src/services/customer.orders.service.ts:239-296 | after a rejection the customer can submit a new proof, and that proof can be confirmed |
| Lifecycle.CancelledOrderRevived | apps/api/src/services/payments.service.ts:19-128 | cancel, reject, new proof, confirm: a cancelled order ends PAYMENT_CONFIRMED |
| CustomerOrdersRepo.MapPaymentRow | apps/api/src/repositories/customerOrders.repo.ts:77-90 | a missing payment row maps to null; otherwise the view carries exactly id, status, VPA, QR payload, intent URL, submission time, screenshot, reference and verification time |
| CustomerOrdersRepo.MapPaymentRowHidesInternals | apps/api/src/repositories/customerOrders.repo.ts:77-90 | the verifier, the rejection reason and the row's timestamps never reach the customer |
| CustomerOrdersRepo.ItemsOf | apps/api/src/repositories/customerOrders.repo.ts:234-240 | the items listed are exactly the order's items |
| CustomerOrdersRepo.GetByIdForUser | apps/api/src/repositories/customerOrders.repo.ts:224-255 | null unless the order exists and belongs to the user; otherwise the order, exactly its items, and its payment mapped for the customer (null when it has none) |
| CustomerOrdersRepo.GetShipmentForOrder | apps/api/src/repositories/customerOrders.repo.ts:375-393 | null for an order the user does not own; otherwise the shipment summary of the order, or null when it has none |
| CustomerOrdersRepo.ListForUser | apps/api/src/repositories/customerOrders.repo.ts:200-221 | the query filters on the user alone, binds page size as `$2` and offset (page-1)×pageSize as `$3`, and the count query binds only the user |
| CustomerOrdersRepo.ListForUserWithShipment | apps/api/src/repositories/customerOrders.repo.ts:258-316 | the filters are the user and, when given, the status; LIMIT and OFFSET take the next two placeholders (`$2`/`$3` or `$3`/`$4`); the count query binds exactly the filter values |
| CustomerOrdersRepo.Run | apps/api/src/repositories/customerOrders.repo.ts:147 | a run of placeholders numbers consecutive values |
| CustomerOrdersRepo.TopOfRun | apps/api/src/repositories/customerOrders.repo.ts:147 | the highest placeholder of a tuple is the last of its run, with or without the leading `gen_random_uuid()` |
| CustomerOrdersRepo.Tuple | apps/api/src/repositories/customerOrders.repo.ts:146-148 | a VALUES tuple has the uuid slot plus its placeholders |
| CustomerOrdersRepo.TopAllTuples | apps/api/src/repositories/customerOrders.repo.ts:144-159 | when the k-th tuple numbers its `width` placeholders from width×k+1, the statement's highest placeholder is width × the number of tuples |
| CustomerOrdersRepo.RowOfRun | apps/api/src/repositories/customerOrders.repo.ts:146-158 | a tuple whose run starts at `start` reads the `len` values from position `start` |
| CustomerOrdersRepo.Nullable | apps/api/src/repositories/customerOrders.repo.ts:152-154 | a missing variant becomes SQL null and nothing else does |
| CustomerOrdersRepo.ItemValues | apps/api/src/repositories/customerOrders.repo.ts:149-158 | each item pushes eight values |
| CustomerOrdersRepo.ItemsInsertAsWritten | apps/api/src/repositories/customerOrders.repo.ts:142-167 | as written each tuple has 7 placeholders for the 8 values pushed per item, so the 9 listed columns get 8 expressions and the statement has more values than placeholders: it is never accepted |
| CustomerOrdersRepo.ItemsInsert | apps/api/src/repositories/customerOrders.repo.ts:142-167 | with 8 placeholders per tuple the statement is accepted iff there is at least one item, and tuple k reads exactly item k's eight values |
| CustomerOrdersRepo.AsWrittenRefused | apps/api/src/repositories/customerOrders.repo.ts:142-167 | with seven placeholders per tuple the highest placeholder is 7n for n items, so the database refuses the statement, and every tuple is one expression short of the nine columns |
| CustomerOrdersRepo.IntendedTuplesRead | apps/api/src/repositories/customerOrders.repo.ts:142-167 | with eight placeholders per tuple the statement is accepted iff there is an item, and tuple k reads exactly item k's eight values |
| CustomerOrdersRepo.Tuples | apps/api/src/repositories/customerOrders.repo.ts:144-148 | the VALUES list has one tuple per item, tuple k being the uuid slot and the k-th run of placeholders |
| CustomerOrdersRepo.ItemsValuesBlock | apps/api/src/repositories/customerOrders.repo.ts:149-158 | after every item has pushed its eight values, item j's values sit at positions 8j..8j+8 |
| CustomerOrdersRepo.ItemRow | apps/api/src/repositories/customerOrders.repo.ts:161-168 | the stored item has its id, the order and the snapshot's product, price, quantity and total |
| CustomerOrdersRepo.ItemValuesRoundTrip | apps/api/src/repositories/customerOrders.repo.ts:149-168 | reading back the eight values pushed for an item gives exactly that item's row |
| CustomerOrdersRepo.ItemRows | apps/api/src/repositories/customerOrders.repo.ts:161-168 | one row per item, in order |
| CustomerOrdersRepo.Inserted | apps/api/src/repositories/customerOrders.repo.ts:161-168 | the rows an accepted statement inserts: one per tuple, each read from that tuple's values |
| CustomerOrdersRepo.InsertedAreItemRows | apps/api/src/repositories/customerOrders.repo.ts:142-168 | when each tuple reads its own item's values, the inserted rows are exactly the item rows |
| CustomerOrdersRepo.OrderRow | apps/api/src/repositories/customerOrders.repo.ts:109-139 | the stored order carries the status, payment status, owner, address and totals it was given |
| CustomerOrdersRepo.PaymentRow | apps/api/src/repositories/customerOrders.repo.ts:171-185 | a new payment has the given id, status and VPA, and no submission, screenshot, reference, verification or rejection |
| CustomerOrdersRepo.CreateFullSpec | apps/api/src/repositories/customerOrders.repo.ts:97-197 | the insert opens a transaction; with the corrected items insert, it commits iff the order id is new in orders and payments, the order number is not already used (`order_number` is UNIQUE) and there is at least one item, adding exactly the order, its item rows and its payment; otherwise it rolls back with nothing changed (a repeated order id or order number is a duplicate key) |
| CustomerOrdersRepo.ExecItemsInsert | apps/api/src/repositories/customerOrders.repo.ts:161-168 | an accepted insert appends its rows to the items table |
| CustomerOrdersRepo.InsertItems | apps/api/src/repositories/customerOrders.repo.ts:142-168 | the item insert succeeds iff there are items, and then appends exactly the item rows |
| CustomerOrdersRepo.CreateFull | apps/api/src/repositories/customerOrders.repo.ts:97-197 | the database, result and journal are those `CreateFullSpec` characterises |
| CustomerOrdersRepo.CreateFullKeepsNumbersUnique | apps/api/migrations/20251104101523_create-schema-v1.js:107 | a committed insert keeps order numbers unique across orders |
| CustomerPaymentsRepo.WithProof | apps/api/src/repositories/customerPayments.repo.ts:14-25 | only that order's payment changes: SUBMITTED, with the screenshot, the reference and `submitted_at` now; every other column is kept |
| CustomerPaymentsRepo.SubmitProofSpec | apps/api/src/repositories/customerPayments.repo.ts:5-44 | the proof commits in one transaction; only the order's payment and order change, to SUBMITTED and PAYMENT_SUBMITTED, and both updated rows are returned |
| CustomerPaymentsRepo.ProofKeepsVerdictColumns | apps/api/src/repositories/customerPayments.repo.ts:14-24 | a new proof keeps the earlier rejection reason and verification columns |
| CustomerPaymentsRepo.SubmitProof | apps/api/src/repositories/customerPayments.repo.ts:5-44 | the database, result and journal are those `SubmitProofSpec` characterises |
| Placeholders.At | apps/api/src/repositories/orders.repo.ts:21-48 | placeholder `$n` reads the n-th value |
| Placeholders.ExtraValueRefused | apps/api/src/repositories/product.repo.ts:187-227 | a numbered filter list given one more value than it has placeholders does not bind |
| Placeholders.Highest | apps/api/src/repositories/orders.repo.ts:21-48 | no placeholder of the clause exceeds its highest |
| Placeholders.WellNumberedBinds | apps/api/src/repositories/orders.repo.ts:21-48 | numbering each pushed value `$${params.length}` leaves exactly as many placeholders as values |
| Placeholders.DecodeExtend | apps/api/src/repositories/orders.repo.ts:81-87 | appending LIMIT and OFFSET values does not change what the WHERE placeholders read |
| Placeholders.PushBound | apps/api/src/repositories/orders.repo.ts:21-48 | pushing a value and its condition keeps the numbering right and adds exactly that filter |
| Placeholders.PushFixed | apps/api/src/repositories/payments.repo.ts:24-26 | a literal condition adds its filter without a value |
| Slug.TrimStart | apps/api/src/utils/slug.ts:3 | leading white space (JavaScript's definition) is removed and nothing else |
| Slug.TrimEnd | apps/api/src/utils/slug.ts:3 | trailing white space is removed and nothing else |
| Slug.Trim | apps/api/src/utils/slug.ts:3 | the result neither starts nor ends with white space |
| Slug.LowerChar | apps/api/src/utils/slug.ts:4 | an ASCII capital becomes its lower-case letter; any character becomes one or two characters |
| Slug.Lower | apps/api/src/utils/slug.ts:4 | lower-casing never shortens the text |
| Slug.RemoveQuotes | apps/api/src/utils/slug.ts:5 | no quote, double quote or backtick is left, and text without them is unchanged |
| Slug.SkipRun | apps/api/src/utils/slug.ts:6 | skipping a run of non-`[a-z0-9]` characters stops at an allowed character or the end |
| Slug.Collapse | apps/api/src/utils/slug.ts:6 | every run of characters outside `[a-z0-9]` becomes one '-', so only `[a-z0-9-]` remains, and the result is empty iff the input is |
| Slug.CollapseNoDoubleDash | apps/api/src/utils/slug.ts:6 | collapsing never leaves two '-' side by side |
| Slug.ToSlugIsSlug | apps/api/src/utils/slug.ts:1-8 | a slug contains only `[a-z0-9-]`, no two consecutive '-', and neither starts nor ends with '-' |
| Slug.StripDashEndsIsSlug | apps/api/src/utils/slug.ts:7 | removing one '-' at each end of text of slug characters without "--" leaves a slug |
| Slug.CollapseOfSlugPart | apps/api/src/utils/slug.ts:6 | collapsing text that is already of slug characters without doubled or trailing '-' changes nothing |
| Slug.ToSlugOfSlug | apps/api/src/utils/slug.ts:1-8 | every slug is its own slug |
| Slug.TrimOfSlug | apps/api/src/utils/slug.ts:3 | trimming a slug changes nothing |
| Slug.LowerOfSlug | apps/api/src/utils/slug.ts:4 | lower-casing slug characters changes nothing |
| Slug.ToSlugIdempotent | apps/api/src/utils/slug.ts:1-8 | `toSlug(toSlug(x)) == toSlug(x)` |
| Slug.AllSymbolsGiveEmpty | apps/api/src/utils/slug.ts:3-7 | input with no letter or digit (white space only, symbols only) gives "" |
| Slug.LowerKeepsNonAlnum | apps/api/src/utils/slug.ts:4 | lower-casing creates no letter or digit from characters that have none to give |
| Slug.RemoveQuotesKeepsNonAlnum | apps/api/src/utils/slug.ts:5 | removing quotes creates no letter or digit |
| Slug.QuotesLeaveNoSeparator | apps/api/src/utils/slug.ts:5 | a quote is deleted without leaving a '-': "A'b" gives "ab" |
| ProductRepo.BaseSlug | apps/api/src/repositories/product.repo.ts:46 | the slug of the base, or "item" when that is empty; never empty |
| ProductRepo.Candidate | apps/api/src/repositories/product.repo.ts:49 | candidate 0 is the slug itself, candidate i > 0 is slug-i |
| ProductRepo.CandidatesDistinct | apps/api/src/repositories/product.repo.ts:47-58 | different attempts try different candidates |
| ProductRepo.Holders | apps/api/src/repositories/product.repo.ts:50-55 | the rows the count query counts: live rows with that slug, other than `exceptId` when one is given |
| ProductRepo.SubsetCard | apps/api/src/repositories/product.repo.ts:47-58 | a subset is no larger than its superset (the search's termination measure) |
| ProductRepo.EnsureUniqueSlug | apps/api/src/repositories/product.repo.ts:44-59 | the result is held by no live row other than `exceptId`, and it is the first such candidate: every earlier candidate is taken |
| ProductRepo.TakenUpTo | apps/api/src/repositories/product.repo.ts:47-58 | the loop's invariant extends by one taken candidate |
| ProductRepo.NewHolder | apps/api/src/repositories/product.repo.ts:47-58 | the row holding a taken candidate held none of the earlier ones, so each round uses up one more row |
| ProductRepo.FreeSlugKept | apps/api/src/repositories/product.repo.ts:46-56 | when the base slug is free it is returned unchanged |
| ProductRepo.DeletedSlugReturned | apps/api/src/repositories/product.repo.ts:50-56 | a slug held only by a soft-deleted row counts as free, although the row still holds it under the UNIQUE index |
| ProductRepo.CreatedRow | apps/api/src/repositories/product.repo.ts:20-42 | the new product takes `toSlug(title)` (no uniqueness search), the given columns, and is live |
| ProductRepo.Create | apps/api/src/repositories/product.repo.ts:20-42 | an id or slug already present is a duplicate key with nothing written; otherwise exactly the new row is added |
| ProductRepo.SameTitleTwiceRefused | apps/api/src/repositories/product.repo.ts:24 | creating a second product with the same title collides on the slug |
| ProductRepo.Patched | apps/api/src/repositories/product.repo.ts:73-97 | a given field replaces the column and an absent one keeps it (COALESCE); the slug is the one given; timestamps follow (with the values aligned to their placeholders, as intended; `ShiftedPatch` gives the patch as written) |
| ProductRepo.StockNeverCleared | apps/api/src/repositories/product.repo.ts:81 | an update cannot reset a known stock back to null |
| ProductRepo.EmptyPatchKeepsColumns | apps/api/src/repositories/product.repo.ts:73-97 | an empty patch only moves `updated_at` |
| ProductRepo.Update | apps/api/src/repositories/product.repo.ts:61-99 | the corrected update, each value bound to its own column: a missing or deleted row gives null with nothing written; a slug clash is a duplicate key with nothing written; otherwise only that row changes, to the patch applied, with a fresh unique slug exactly when the title is given and non-empty; a live row whose slug is its own always updates |
| ProductRepo.ParseInt4 | apps/api/migrations/20251104101523_create-schema-v1.js:64-68 | a text read as an INT column is an optional sign and digits, within the 32-bit range |
| ProductRepo.Int4OfDecimal | apps/api/migrations/20251104101523_create-schema-v1.js:68 | the decimal text of a number in range reads back as that number |
| ProductRepo.LetterNeverInt4 | apps/api/migrations/20251104101523_create-schema-v1.js:68 | a text holding a letter never reads as an integer |
| ProductRepo.IntText | apps/api/src/repositories/product.repo.ts:89 | a number's text starts with a digit or a minus sign |
| ProductRepo.ParseCategory | apps/api/migrations/20251104101523_create-schema-v1.js:15 | only the three labels read as a `product_category` |
| ProductRepo.PriceNeverCategory | apps/api/src/repositories/product.repo.ts:76-89 | a price's text never reads as a category |
| ProductRepo.BoolText | apps/api/src/repositories/product.repo.ts:92 | a boolean is sent as "true" or "false" |
| ProductRepo.StockAsBool | apps/api/src/repositories/product.repo.ts:80-93 | a stock quantity reads as a boolean iff it is 0 or 1, and is true iff it is 1 |
| ProductRepo.ShiftedPatch | apps/api/src/repositories/product.repo.ts:67-97 | as written after a retitle: the statement is refused iff a price is given, a description does not read as an integer, a stock other than 0 or 1 is given, or the new slug does not read as an integer; otherwise the title takes the category, the price the description, the description the note, the note the active flag's text, the active flag the stock, and the stock the new slug |
| ProductRepo.Written | apps/api/src/repositories/product.repo.ts:73-98 | once the values are bound: a missing or deleted row gives null and changes nothing; a slug held by another row is a duplicate key; otherwise only that row changes, to the patch applied |
| ProductRepo.RetitledAsWritten | apps/api/src/repositories/product.repo.ts:67-98 | a retitle as written is refused with nothing written when a shifted value is invalid for its column, even for a missing row; otherwise the raw title becomes the slug and the shifted patch is written |
| ProductRepo.CandidateNotInt4 | apps/api/src/repositories/product.repo.ts:46-49 | when a slug does not read as an integer, none of its candidates does |
| ProductRepo.UpdateAsWritten | apps/api/src/repositories/product.repo.ts:61-99 | as written: without a title the values line up; with one, the first free candidate is picked and the shifted statement runs; a title whose slug does not read as an integer is always refused, with nothing written |
| ProductRepo.NumericRetitleSetsStock | apps/api/src/repositories/product.repo.ts:67-97 | as written, retitling to a free numeric slug keeps the old title, stores the raw title as the slug and the slug's number as the stock |
| ProductRepo.FindById | apps/api/src/repositories/product.repo.ts:101-108 | a row is found iff it exists and is not soft-deleted |
| ProductRepo.SoftDelete | apps/api/src/repositories/product.repo.ts:110-118 | a live row gets `deleted_at` and becomes inactive; a missing or deleted row is left alone |
| ProductRepo.SoftDeletedHidden | apps/api/src/repositories/product.repo.ts:101-118 | after a soft delete the row is no longer found, and its slug stays |
| ProductRepo.SortFor | apps/api/src/repositories/product.repo.ts:176-184 | each of the six known keys maps to its order, and every other key to created_at DESC |
| ProductRepo.AllFiltersListed | apps/api/src/repositories/product.repo.ts:137-174 | the filter list covers every filter |
| ProductRepo.Wanted | apps/api/src/repositories/product.repo.ts:137-174 | a filter is present iff the arguments ask for it, with its compared value |
| ProductRepo.WantedStep | apps/api/src/repositories/product.repo.ts:137-174 | each filter in turn adds itself exactly when asked for |
| ProductRepo.WantedFilters | apps/api/src/repositories/product.repo.ts:137-174 | `deleted_at IS NULL` is always there; category, q and dates when truthy; active and prices when of the right type; in-stock and has-images when true |
| ProductRepo.WantedValues | apps/api/src/repositories/product.repo.ts:141-174 | each present filter compares with its argument, q as `%q%` |
| ProductRepo.Page | apps/api/src/repositories/product.repo.ts:120-230 | as written: the filters decode to `Wanted`, sort and offset follow, LIMIT and OFFSET take the last two values; with `include = "images"` the images limit (default 5) is one more value in the array the count query is sent with |
| ProductRepo.Conditions | apps/api/src/repositories/product.repo.ts:137-174 | the WHERE list is numbered in push order and decodes to `Wanted` |
| ProductRepo.PushFilter | apps/api/src/repositories/product.repo.ts:141-174 | each push keeps the numbering and adds the next filter when asked |
| ProductRepo.CountParams | apps/api/src/repositories/product.repo.ts:222-227 | the count query's values are exactly as many as the WHERE clause's placeholders |
| ProductRepo.CountParamsBind | apps/api/src/repositories/product.repo.ts:222-227 | with only the filter values the count query binds and still decodes to `Wanted` |
| SearchRepo.AllFiltersListed | apps/api/src/repositories/search.repo.ts:36-61 | the filter list covers every filter |
| SearchRepo.Wanted | apps/api/src/repositories/search.repo.ts:36-61 | a filter is present iff the arguments ask for it, with its compared value |
| SearchRepo.WantedStep | apps/api/src/repositories/search.repo.ts:36-61 | each filter in turn adds itself exactly when asked for |
| SearchRepo.WantedFilters | apps/api/src/repositories/search.repo.ts:36-61 | deleted and inactive products are always excluded; q when truthy, category when a non-empty list, prices when numbers, in-stock and has-images when exactly true |
| SearchRepo.WantedValues | apps/api/src/repositories/search.repo.ts:40-55 | each present filter compares with its argument, q as `%q%` and category as the whole list |
| SearchRepo.Conditions | apps/api/src/repositories/search.repo.ts:36-61 | the WHERE list is numbered in push order and decodes to `Wanted` |
| SearchRepo.PushFilter | apps/api/src/repositories/search.repo.ts:40-55 | each push keeps the numbering and adds the next filter when asked |
| SearchRepo.Page | apps/api/src/repositories/search.repo.ts:34-123 | as written: the filters decode to `Wanted`; an unknown sort is created_at DESC; the primary image is included by default and for "primary", and omitted for "none"; LIMIT and OFFSET take the last two values with offset (page-1)×pageSize; with `include = "images"` the images limit (default 5) is one more value in the array the count query is sent with |
| SearchRepo.IncludeImages | apps/api/src/repositories/search.repo.ts:79-104 | "images" pushes the images limit (5 by default) after the filter values and reads it from that placeholder; any other value pushes nothing; the primary image is chosen exactly when `include` is absent or "primary" |
| SearchRepo.PageBinds | apps/api/src/repositories/search.repo.ts:90-119 | values pushed after the filter values (images limit, LIMIT, OFFSET) do not change what the WHERE clause reads |
| SearchRepo.CountParams | apps/api/src/repositories/search.repo.ts:115-120 | the count query's values are exactly as many as the WHERE clause's placeholders |
| SearchRepo.CountParamsBind | apps/api/src/repositories/search.repo.ts:115-120 | with only the filter values the count query binds and still decodes to `Wanted` |
| SearchRepo.Facets | apps/api/src/repositories/search.repo.ts:125-153 | the facet queries bind exactly their filter values and filter like the search |
| SearchRepo.Occurrences | apps/api/src/repositories/search.repo.ts:156-163 | the number of rows with a key is positive iff some row has it |
| SearchRepo.Group | apps/api/src/repositories/search.repo.ts:156-163 | GROUP BY: every group is a known key with its positive count of rows |
| SearchRepo.GroupCovers | apps/api/src/repositories/search.repo.ts:156-163 | every key that occurs gets a group |
| SearchRepo.GroupHas | apps/api/src/repositories/search.repo.ts:156-163 | a key has a group iff it occurs |
| SearchRepo.GroupSorted | apps/api/src/repositories/search.repo.ts:160-161 | the groups come in the order of the ranking |
| SearchRepo.GroupTotal | apps/api/src/repositories/search.repo.ts:156-163 | the group counts add up to the rows whose key is known |
| SearchRepo.GroupCountsEveryRow | apps/api/src/repositories/search.repo.ts:156-163 | when every key is known the group counts add up to the number of rows |
| SearchRepo.CategoryFacet | apps/api/src/repositories/search.repo.ts:156-163 | at most three category groups, each with the number of matching products |
| SearchRepo.CategoryFacetTotal | apps/api/src/repositories/search.repo.ts:156-163 | the category counts add up to the matching products |
| SearchRepo.CategoryFacetOrdered | apps/api/src/repositories/search.repo.ts:160-161 | the categories come in the enum's order, as PostgreSQL sorts an enum |
| SearchRepo.CategoryFacetCounts | apps/api/src/repositories/search.repo.ts:156-163 | a category is listed iff some matching product has it |
| SearchRepo.BucketAsWritten | apps/api/src/repositories/search.repo.ts:170-175 | as written: below 50000, 50000..99900, 100000..199900, and everything else, including 99901..99999, in "200000+" |
| SearchRepo.BucketOf | apps/api/src/repositories/search.repo.ts:170-175 | the intended CASE: every price falls in exactly one of the four ranges, split at 50000, 100000 and 200000 paise |
| SearchRepo.Rank | apps/api/src/repositories/search.repo.ts:180-186 | each bucket name ranks 1..4 |
| SearchRepo.RangesMatchLabels | apps/api/src/repositories/search.repo.ts:180-198 | each bucket's name maps back to its floor, only "200000+" has no maximum, names rank 1..4 in bucket order, and names are distinct |
| SearchRepo.Buckets | apps/api/src/repositories/search.repo.ts:170-176 | one bucket per product, by its price under the intended CASE |
| SearchRepo.Ranges | apps/api/src/repositories/search.repo.ts:192-199 | each group maps to its range with its count |
| SearchRepo.PriceFacet | apps/api/src/repositories/search.repo.ts:167-199 | with the intended CASE: at most four ranges, none empty |
| SearchRepo.RangesKeepCounts | apps/api/src/repositories/search.repo.ts:192-199 | mapping to ranges keeps the counts |
| SearchRepo.PriceFacetTotal | apps/api/src/repositories/search.repo.ts:167-199 | the range counts add up to the matching products |
| SearchRepo.PriceFacetOrdered | apps/api/src/repositories/search.repo.ts:180-186 | the ranges come in increasing price |
| SearchRepo.PriceFacetRanges | apps/api/src/repositories/search.repo.ts:167-199 | each range carries its bucket's floor and the number of products in it |
| SearchRepo.PriceFacetCounts | apps/api/src/repositories/search.repo.ts:167-199 | a range is listed iff some matching product's price falls in it |
| SearchRepo.RangeHasPrice | apps/api/src/repositories/search.repo.ts:167-199 | a listed range has a product in it |
| SearchRepo.PriceHasRange | apps/api/src/repositories/search.repo.ts:167-199 | a product's range is listed |
| SearchRepo.FloorInjective | apps/api/src/repositories/search.repo.ts:194-197 | different buckets have different floors |
| SearchRepo.BucketOfWithin | apps/api/src/repositories/search.repo.ts:166 | a price lies at or above its bucket's floor and below every higher floor |
| SearchRepo.BucketOfMonotone | apps/api/src/repositories/search.repo.ts:166 | a higher price never lands in a lower bucket |
| SearchRepo.BucketsAgree | apps/api/src/repositories/search.repo.ts:170-175 | the CASE as written and the intended split differ exactly for 99901..99999 and 199901..199999 paise |
| SearchRepo.WholeRupeesAgree | apps/api/src/repositories/search.repo.ts:170-175 | for whole-rupee prices the CASE as written is right |
| SearchRepo.BucketAsWrittenMisfiles | apps/api/src/repositories/search.repo.ts:170-175 | as written 99950 paise lands in "200000+", above its floor's range and ranked after 100000 paise |
| SearchRepo.Suggest | apps/api/src/repositories/search.repo.ts:203-226 | suggestions match live active products by `%q%` and bind the limit as `$2` |
| SearchService.Categories | apps/api/src/services/search.service.ts:31-35 | an array is kept, a non-empty single category becomes a one-element list, and an absent or empty one stays absent |
| SearchService.PageNumber | apps/api/src/services/search.service.ts:37 | the page is at least 1, 1 when absent, and a valid page is kept |
| SearchService.PageSize | apps/api/src/services/search.service.ts:38 | the page size lies in 1..100, is 20 when absent, and a size in range is kept |
| SearchService.PageRequest | apps/api/src/services/search.service.ts:37-51 | the search runs with the normalised categories, the clamped page and size, include defaulting to "primary" and sort to "-created_at" |
| SearchService.Respond | apps/api/src/services/search.service.ts:58-64 | the response echoes the clamped page and size, not the caller's |
| SearchService.EchoedPagingStable | apps/api/src/services/search.service.ts:37-64 | asking again with the echoed page and size runs the same query |
| SearchService.CategoryFilter | apps/api/src/services/search.service.ts:31-56 | a single category filters on that one category, a list on the list, and no category (absent, "" or an empty list) means no category filter |
| SearchService.Defaults | apps/api/src/services/search.service.ts:39-42 | with no include and no sort the search includes the primary image and sorts by creation, newest first |
| SearchService.SuggestLimit | apps/api/src/services/search.service.ts:68 | the limit is 8 when absent or 0, then clamped to 1..10; a limit in range is kept |
| SearchService.SuggestRequest | apps/api/src/services/search.service.ts:67-70 | the suggestion query binds `%q%` and the clamped limit |
| HomeService.CardOf | apps/api/src/services/home.service.ts:33-40 | a card copies the product's id, title, slug, category, price and primary image |
| HomeService.PostIds | apps/api/src/services/home.service.ts:26 | the ids of the posts, in order |
| HomeService.ListPosts | apps/api/src/services/home.service.ts:22-52 | linked products are queried iff there are posts; the feed has one entry per post in the same order, with its columns and exactly its own linked products in row order |
| HomeService.Attach | apps/api/src/services/home.service.ts:43-51 | one entry per post, in order, with the post's group or an empty list |
| HomeService.GroupByPost | apps/api/src/services/home.service.ts:30-41 | the map has a key iff some row is linked to that post, and each key holds that post's cards in row order |
| HomeService.NoRowsNoCards | apps/api/src/services/home.service.ts:50 | a post without linked rows gets no products |
| HomeService.LinkedToIsOwnRows | apps/api/src/services/home.service.ts:30-41 | every card of a post comes from one of that post's rows |
| HomeService.OtherPostsDropped | apps/api/src/services/home.service.ts:43-51 | a row linked to a post outside the list appears under no post |
| HomeService.NoCardsIffNoRows | apps/api/src/services/home.service.ts:30-50 | a post's product list is empty iff no row links to it |
| AddressesRepo.OwnedBy | apps/api/src/repositories/addresses.repo.ts:23 | exactly the ids of the addresses whose owner is the user |
| AddressesRepo.FindById | apps/api/src/repositories/addresses.repo.ts:29-33 | the row with that id, or nothing exactly when there is none |
| AddressesRepo.FindByIdForUser | apps/api/src/repositories/addresses.repo.ts:36-43 | the row only when it exists and belongs to the user; nothing otherwise |
| AddressesRepo.ForUserNarrowsFind | apps/api/src/repositories/addresses.repo.ts:29-43 | the ownership-checked fetch is the plain fetch with rows of other users hidden |
| AddressesRepo.Insert | apps/api/src/repositories/addresses.repo.ts:23 | placing one row into a list already in `is_default DESC, created_at DESC` order keeps that order and adds exactly that row |
| AddressesRepo.InsertHolds | apps/api/src/repositories/addresses.repo.ts:23 | inserting into the listing adds exactly that one row |
| AddressesRepo.List | apps/api/src/repositories/addresses.repo.ts:20-27 | the rows listed are exactly the user's addresses, each once, default first and then newest first |
| AddressesRepo.InsertedRow | apps/api/src/repositories/addresses.repo.ts:59-66 | the inserted row carries the given owner, label, lines, city, state, pincode, country and default flag, with both timestamps `now` |
| AddressesRepo.Create | apps/api/src/repositories/addresses.repo.ts:45-69 | a new id adds exactly that row; an id already present is refused as a duplicate key with the table unchanged |
| AddressesRepo.Patched | apps/api/src/repositories/addresses.repo.ts:83-92 | each column given in the patch is overwritten, every other column (owner and creation time included) keeps its value, and `updated_at` becomes `now` |
| AddressesRepo.EmptyPatchKeeps | apps/api/src/repositories/addresses.repo.ts:84-91 | a patch giving nothing changes only `updated_at` |
| AddressesRepo.PatchIdempotent | apps/api/src/repositories/addresses.repo.ts:84-91 | applying the same patch twice gives the same row as applying it once |
| AddressesRepo.Update | apps/api/src/repositories/addresses.repo.ts:71-102 | the user's own address is patched and returned; an unknown id or another user's address returns nothing and changes nothing |
| AddressesRepo.Delete | apps/api/src/repositories/addresses.repo.ts:104-108 | reports true exactly when the address existed and was the user's, and then removes only that row |
| AddressesRepo.Cleared | apps/api/src/repositories/addresses.repo.ts:112 | the same ids; the user's rows lose the default flag and every other row is unchanged |
| AddressesRepo.ClearedNoDefault | apps/api/src/repositories/addresses.repo.ts:112 | after clearing the user has no default address and no other user's address changed |
| AddressesRepo.ClearDefault | apps/api/src/repositories/addresses.repo.ts:110-113 | the table becomes the cleared table |
| AddressesRepo.SetDefault | apps/api/src/repositories/addresses.repo.ts:115-122 | the user's own address becomes default with `updated_at = now`; otherwise nothing is returned and nothing changes |
| AddressesService.NewRow | apps/api/src/services/addresses.service.ts:24-35 | the row to insert belongs to the user, and is default exactly when `makeDefault` is true |
| AddressesService.Create | apps/api/src/services/addresses.service.ts:11-37 | the new table and result are those of the create specification (clear the user's default first when asked, then insert) |
| AddressesService.CreateDefaultIsOnly | apps/api/src/services/addresses.service.ts:21-35 | creating with `makeDefault` leaves the new address as the user's only default |
| AddressesService.CreatePlainKeepsOthers | apps/api/src/services/addresses.service.ts:24-35 | creating without `makeDefault` adds one non-default row of the user and changes no other row |
| AddressesService.CreateKeepsOneDefault | apps/api/src/services/addresses.service.ts:11-37 | create keeps at most one default address per user and never touches other users' rows |
| AddressesService.Update | apps/api/src/services/addresses.service.ts:39-64 | the new table and result are those of the update specification |
| AddressesService.UpdateNotFoundStillClears | apps/api/src/services/addresses.service.ts:49-62 | an update with `makeDefault` on an address that is not the user's still clears the user's default before failing with "Address not found" |
| AddressesService.UpdateNotFoundUnchanged | apps/api/src/services/addresses.service.ts:52-62 | without `makeDefault`, an update of an address that is not the user's fails with "Address not found" and changes nothing |
| AddressesService.UpdateDefaultIsOnly | apps/api/src/services/addresses.service.ts:49-63 | an update with `makeDefault` of the user's own address leaves it as the only default |
| AddressesService.UpdateKeepsOneDefault | apps/api/src/services/addresses.service.ts:39-64 | update keeps at most one default address per user and never touches other users' rows |
| AddressesService.Remove | apps/api/src/services/addresses.service.ts:66-69 | the user's own address is deleted; otherwise "Address not found" and nothing changes |
| AddressesService.RemoveKeepsOneDefault | apps/api/src/services/addresses.service.ts:66-69 | removal keeps at most one default per user and leaves other users' rows alone |
| AddressesService.SetDefault | apps/api/src/services/addresses.service.ts:71-78 | the new table and result are those of the set-default specification |
| AddressesService.SetDefaultIsOnly | apps/api/src/services/addresses.service.ts:71-78 | succeeds exactly for the user's own address, which then is their only default with other users untouched; otherwise "Address not found" and nothing changes |
| SessionRepo.NewSession | apps/api/src/repositories/session.repo.ts:27-28 | the new row belongs to the user, holds the refresh hash, is created `now`, expires `ttlSec` seconds later, and is neither revoked nor replaced |
| SessionRepo.NewSessionLifetime | apps/api/src/repositories/session.repo.ts:28-39 | a new session with a positive lifetime is active from its creation until it expires, and not afterwards |
| SessionRepo.Create | apps/api/src/repositories/session.repo.ts:17-33 | a new id appends exactly the new session; an id in use is refused as a duplicate key and the table is unchanged |
| SessionRepo.FindActiveByHash | apps/api/src/repositories/session.repo.ts:35-43 | a row found has that hash, is in the table and is active (unrevoked and not expired); nothing is found exactly when no such row exists |
| SessionRepo.Revoke | apps/api/src/repositories/session.repo.ts:45-48 | the table becomes the table with that id revoked |
| SessionRepo.Replace | apps/api/src/repositories/session.repo.ts:50-53 | the table becomes the table with the old id revoked and pointed at the new id |
| SessionRepo.RevokeAllForUser | apps/api/src/repositories/session.repo.ts:55-58 | the table becomes the table with the user's unrevoked sessions revoked |
| SessionRepo.RevokedExactlyThatId | apps/api/src/repositories/session.repo.ts:47 | the rows with that id are never active again; every other row is as it was |
| SessionRepo.ReplacedSetsBoth | apps/api/src/repositories/session.repo.ts:52 | the old rows are revoked now and point at their successor, keeping their hash; every other row is as it was |
| SessionRepo.RevokedForUserOnlyUnrevoked | apps/api/src/repositories/session.repo.ts:57 | none of the user's sessions is active afterwards; already-revoked rows keep their stamp and other users' rows are untouched |
| SessionRepo.RevokedNotFound | apps/api/src/repositories/session.repo.ts:39-47 | after a revoke the lookup by hash never returns the revoked session, at any time |
| SessionRepo.RevokedForUserNotFound | apps/api/src/repositories/session.repo.ts:39-57 | after revoking all of a user's sessions no lookup by hash finds a session of that user |
| UserRepo.FindByEmail | apps/api/src/repositories/user.repo.ts:17-21 | the user with that e-mail, found exactly when one exists (e-mails being unique) |
| UserRepo.FindById | apps/api/src/repositories/user.repo.ts:23-27 | the user with that id, or nothing exactly when there is none |
| UserRepo.NewCustomer | apps/api/src/repositories/user.repo.ts:38-41 | the inserted user is an active CUSTOMER with the given e-mail and password hash |
| UserRepo.Create | apps/api/src/repositories/user.repo.ts:29-44 | a new id and an unused e-mail add exactly that customer; otherwise a duplicate key with the table unchanged |
| UserRepo.CreateKeepsEmailsUnique | apps/api/migrations/20251104101523_create-schema-v1.js:28 | inserting a customer whose e-mail is unused keeps e-mails unique |
| AuthService.Register | apps/api/src/services/auth.service.ts:25-52 | an e-mail in use gives CONFLICT "Email already in use" with nothing written; otherwise the customer is created and one session for the hash of the new refresh token is appended, and the result carries the safe user, the signed access token and the raw refresh token |
| AuthService.Login | apps/api/src/services/auth.service.ts:54-76 | unless the e-mail belongs to a user with a non-empty password hash that the password verifies against, UNAUTHORIZED "Invalid credentials" with no session written; otherwise one new session recording the user agent and IP, and the tokens |
| AuthService.Refresh | apps/api/src/services/auth.service.ts:78-104 | a missing token and a token with no active session are refused with nothing written; otherwise the session is rotated, and the result is new tokens, or UNAUTHORIZED "User not found" after the rotation when the user is gone |
| AuthService.RotationReplacesOld | apps/api/src/services/auth.service.ts:86-97 | after rotation the new session is appended and active, the old one is revoked and replaced by it so the old token never finds it again, and every other row is unchanged |
| AuthService.Logout | apps/api/src/services/auth.service.ts:106-111 | no token, or one with no active session, changes nothing; otherwise exactly that session is revoked |
| AuthService.LogoutAll | apps/api/src/services/auth.service.ts:113-115 | every unrevoked session of the user is revoked |
| AuthService.LogoutSpendsToken | apps/api/src/services/auth.service.ts:106-111 | after logout the token presented never finds the session it signed out |
| AppSettingsRepo.Find | apps/api/src/repositories/appSettings.repo.ts:38-44 | the singleton row when it exists, always under the id "settings" |
| AppSettingsRepo.Inserted | apps/api/src/repositories/appSettings.repo.ts:47-73 | the inserted row has the id "settings", the given business and UPI details, the currency defaulting to INR, and both stamps `now` |
| AppSettingsRepo.Create | apps/api/src/repositories/appSettings.repo.ts:46-81 | an existing row is returned unchanged with nothing written (ON CONFLICT DO NOTHING, then read back); otherwise the inserted row becomes the table's only row |
| AppSettingsRepo.AllColumnsListed | apps/api/src/repositories/appSettings.repo.ts:88-103 | the update's column map covers every updatable column |
| AppSettingsRepo.PatchedWritesOnlyGiven | apps/api/src/repositories/appSettings.repo.ts:105-110 | an update writes exactly the fields the body defines; every other column, the id and the creation stamp keep their values |
| AppSettingsRepo.NothingGivenKeeps | apps/api/src/repositories/appSettings.repo.ts:112-116 | a body defining no field leaves the row as it is |
| AppSettingsRepo.PatchedIdempotent | apps/api/src/repositories/appSettings.repo.ts:105-120 | applying the same update twice gives the same row as once |
| AppSettingsRepo.AssignedExtend | apps/api/src/repositories/appSettings.repo.ts:118-121 | values pushed after the SET placeholders' range (the WHERE id) change no assignment |
| AppSettingsRepo.GivenAmongHas | apps/api/src/repositories/appSettings.repo.ts:105-110 | the map of defined fields holds a column exactly when the body defines it, with that value |
| AppSettingsRepo.OverwriteIsPatched | apps/api/src/repositories/appSettings.repo.ts:105-120 | overwriting a row with exactly the defined fields is the intended patch |
| AppSettingsRepo.OverwriteGivenIsPatched | apps/api/src/repositories/appSettings.repo.ts:105-120 | overwriting a row with the fields the loop collects is the intended patch |
| AppSettingsRepo.Assignments | apps/api/src/repositories/appSettings.repo.ts:84-118 | the loop builds no SET pair exactly when no field is defined; the k-th pair uses `$k`, the id is bound last as `$i`, and the pairs assign exactly the defined fields with their values |
| AppSettingsRepo.PushAssignment | apps/api/src/repositories/appSettings.repo.ts:107-108 | pushing `col = $i` together with its value assigns that value to that column and changes nothing else |
| AppSettingsRepo.GivenAmongSnoc | apps/api/src/repositories/appSettings.repo.ts:105-110 | one more column of the map adds it to the defined fields exactly when the body defines it |
| AppSettingsRepo.NoneGiven | apps/api/src/repositories/appSettings.repo.ts:112 | the SET list built from the defined columns is empty exactly when the body defines no field at all |
| AppSettingsRepo.Update | apps/api/src/repositories/appSettings.repo.ts:83-125 | with no row "Settings not found" and nothing changes; otherwise the row becomes the patched row stamped `now`, or stays as it is when no field is defined |
| AppSettingsRepo.SetQrUrl | apps/api/src/repositories/appSettings.repo.ts:127-134 | with no row "Settings not found" and nothing changes; otherwise only the QR URL and the update stamp change |
| AppSettingsRepo.SetQrUrlIsUpdate | apps/api/src/repositories/appSettings.repo.ts:127-134 | setting the QR URL is the general update with only the QR URL defined: no other column changes |
| AppSettingsService.Get | apps/api/src/services/appSettings.service.ts:18-20 | the singleton row, or nothing |
| AppSettingsService.CreateIfEmpty | apps/api/src/services/appSettings.service.ts:22-36 | an existing row is returned with no write and no audit row; otherwise the row is created and exactly one CREATE audit row (before null, after the new row) is appended |
| AppSettingsService.Update | apps/api/src/services/appSettings.service.ts:38-52 | with no row "Settings not found" and nothing written; otherwise the updated row is stored and returned, and one UPDATE audit row holds the row before and after |
| AppSettingsService.SetQr | apps/api/src/services/appSettings.service.ts:54-88 | with no row "Settings not found" and nothing written; otherwise the QR URL is stored and one audit row under the given action holds the row before and after |
| AppSettingsService.SetQrFromUrl | apps/api/src/services/appSettings.service.ts:54-68 | the QR update with the given URL, audited as UPDATE_QR_URL |
| AppSettingsService.SetQrFromFile | apps/api/src/services/appSettings.service.ts:70-88 | the QR update with the uploaded file's URL, audited as UPDATE_QR_FILE |
| AppSettingsService.PublicPaymentsConfig | apps/api/src/services/appSettings.service.ts:90-99 | nothing exactly when there is no row; otherwise exactly the business name, UPI VPA, payee name and QR URL of the row |
| AppSettingsService.QrUpdateIsPublic | apps/api/src/services/appSettings.service.ts:58-97 | after a QR update the public configuration shows the new URL and its other fields are unchanged |
| AppSettingsService.PrivateUpdateKeepsPublicConfig | apps/api/src/services/appSettings.service.ts:42-97 | an update defining none of the four public fields leaves the public configuration unchanged |
| AppSettingsService.CreatedIsPublic | apps/api/src/services/appSettings.service.ts:26-97 | once created, the public configuration shows the payee details it was created with |
| Security.UnitSeconds | apps/api/src/config/security.ts:10-11 | s, m, h and d (in either case) are worth 1, 60, 3600 and 86400 seconds; every other character is no unit |
| Security.ParseTtl | apps/api/src/config/security.ts:4-13 | succeeds exactly on a string of digits or digits followed by one unit letter, and otherwise fails with "Invalid TTL: " and the input |
| Security.ParseSeconds | apps/api/src/config/security.ts:6 | a plain decimal number of seconds parses to itself |
| Security.ParseWithUnit | apps/api/src/config/security.ts:7-12 | a number followed by a unit parses to the number times that unit's seconds |
| Security.DefaultLifetimes | apps/api/src/config/security.ts:5 | "15m" is 900 seconds and "14d" is 1209600 seconds |
| Errors.DefaultStatus | apps/api/src/utils/errors.ts:14-23 | every code's default status is an HTTP error status between 400 and 500 |
| Errors.DefaultStatusInjective | apps/api/src/utils/errors.ts:14-23 | no two codes share a default status |
| Errors.DefaultMessage | apps/api/src/utils/errors.ts:26-35 | every code has a non-empty default message |
| Errors.New | apps/api/src/utils/errors.ts:49-75 | a numeric second argument is the status (legacy order) with a string third argument as the message; otherwise the second argument is the message and a numeric third the status; missing ones take the code's defaults |
| Errors.Legacy | apps/api/src/utils/errors.ts:59-62 | the legacy order `(code, status, message)` gives exactly that code, status and message, with no details |
| Errors.FactoryYieldsDefaults | apps/api/src/utils/errors.ts:79-109 | each factory gives its code with the code's default status, the given message or the default one, and the given details |
| Errors.Throw | apps/api/src/utils/errors.ts:130-147 | the `Errors.*` shims throw an AppError with that code and message and the code's default status |
| Errors.ThrowLegacy | apps/api/src/utils/errors.ts:49-75 | the legacy constructor throws exactly the error with that code, status and message |
| Errors.FromUnknown | apps/api/src/utils/errors.ts:112-118 | an AppError is returned as it is; anything else becomes INTERNAL with status 500 carrying the original as details, with its message when it has one and "Something went wrong" otherwise |
| Errors.FromUnknownIdempotent | apps/api/src/utils/errors.ts:112-118 | converting a converted error changes nothing |
| Errors.SignaturesAgree | apps/api/src/utils/errors.ts:49-67 | the new and the legacy argument orders build the same error |
| Window.CalcNextPage | apps/api/src/utils/window.ts:25-27 | there is a next page, numbered page + 1, exactly when the pages so far hold fewer rows than the total |
| Window.NextPageStartsInside | apps/api/src/utils/window.ts:25-27 | when a next page is offered its first row exists |
| Window.LastPageCoversTotal | apps/api/src/utils/window.ts:25-27 | when no next page is offered the pages so far cover every row |
| Window.EmptyHasNoNextPage | apps/api/src/utils/window.ts:25-27 | an empty result never offers a next page |
| DashboardRange.IsoStart | apps/mobile/src/features/dashboard/range.ts:12 | the day followed by the start-of-day time |
| DashboardRange.IsoEnd | apps/mobile/src/features/dashboard/range.ts:13 | the day followed by the end-of-day time |
| DashboardRange.ToQueryParams | apps/mobile/src/features/dashboard/range.ts:27-47 | the range sent is one the server accepts; it is "custom" exactly for the custom and 90-day ranges, and only then are `from` and `to` sent, spanning the chosen days (89 days ago to today for 90 days) |
| DashboardRange.Last90IsCustom | apps/mobile/src/features/dashboard/range.ts:35-45 | the 90-day preset sends the same parameters as the custom range over the same days |
| DashboardRange.CustomDaysRecoverable | apps/mobile/src/features/dashboard/range.ts:44-45 | the custom range's days can be read back from its `from` and `to` |
| DashboardRange.TodayRange | apps/mobile/src/features/dashboard/range.ts:17-20 | a custom range whose first and last day are both today |
| DashboardRange.LabelForAsWritten | apps/mobile/src/features/dashboard/range.ts:49-61 | the presets get their names; a custom range gets its days joined by the three characters the file holds |
| DashboardRange.LabelAsWrittenLacksArrow | apps/mobile/src/features/dashboard/range.ts:60 | the custom label as written contains no arrow character and differs from the arrow-joined label |
| DashboardRange.LabelFor | apps/mobile/src/features/dashboard/range.ts:49-61 | the presets get their names; a custom range gets its days joined by " → " |
| DashboardRange.LabelsDistinguishRanges | apps/mobile/src/features/dashboard/range.ts:51-58 | different presets get different labels |
| DashboardRange.CustomLabelSplits | apps/mobile/src/features/dashboard/range.ts:60 | the custom label is the start day, the arrow and the end day, each recoverable |
| Query.Field.Or | apps/api/src/repositories/payments.repo.ts:97-107 | a defined argument replaces the column's value; an undefined one keeps it |
| Query.AsList | apps/api/src/repositories/orders.repo.ts:22 | an array is kept and a single value becomes a one-element list |
| Query.Offset | apps/api/src/repositories/orders.repo.ts:66 | the offset of page 1 onwards is non-negative and a page's offset plus its size is where the next page starts |
| Query.OffsetsAdjacent | apps/api/src/repositories/orders.repo.ts:66 | consecutive pages are adjacent: no row is skipped or shown twice |
| Query.Clamp | apps/api/src/services/orders.service.ts:23 | the result lies in the bounds, equals the input when it already does, and is the nearer bound otherwise |
| Query.ClampIdempotent | apps/api/src/services/orders.service.ts:22-23 | clamping twice is clamping once |
| Digits.DigitValue | apps/api/src/repositories/product.repo.ts:49 | a decimal digit's value is below 10 |
| Digits.DigitChar | apps/api/src/repositories/product.repo.ts:49 | the digit written for a value below 10 reads back as that value |
| Digits.ToDecimal | apps/api/src/repositories/product.repo.ts:49 | the decimal text of a number is a non-empty string of digits, with a leading zero only for 0 |
| Digits.ValueOfToDecimal | apps/api/src/repositories/product.repo.ts:49 | the decimal text of a number reads back as that number |
| Digits.ToDecimalInjective | apps/api/src/repositories/product.repo.ts:49 | different numbers have different decimal texts, so the `-i` suffixes are all different |
| Db.Database.constructor | apps/api/src/modules/db.ts:14-23 | the shared client starts over empty tables, no settings row and no pending transaction |

## Left out

- Concurrency: each call runs alone. Guards read before a transaction opens (`payments.service.ts:20` before `:29`) cannot be raced by another request.
- Payment and shipment rows are keyed by their order id. `order_id` is `UNIQUE` in both tables, so the row a statement finds by its own `id` is the one keyed by its order.
- SQL text, joins and JSON aggregation are not interpreted. Listing queries are modelled as the WHERE conditions, bound values, sort and offset they build. Rows are returned from the tables in insertion order.
- Database errors other than a duplicate primary or unique key, and a bound value invalid for its column in the product update, are not modelled, nor are lost connections.
- ProductRepo.ParseInt4: the blanks, underscores and `0x`/`0o`/`0b` prefixes that newer PostgreSQL releases also accept in an integer are not modelled; only an optional sign and decimal digits are.
- ProductRepo.StockAsBool: PostgreSQL's boolean spellings are not modelled in general, only which integer texts ("0" and "1") are among them.
- The random order number (`toOrderNumber`, which uses `Math.random`) is a parameter.
- `toINRString`, `buildUpiIntentUrl` and `buildUpiQrPayload` (float formatting and URL encoding) are not modelled; the checkout takes the UPI intent as given.
- Password hashing, refresh-token generation and hashing, and JWT signing are fields of `AuthService.Crypto` or fresh parameters.
- Blob uploads and `ensureContainer` are not modelled: `setQrFromFile` and proof submission take the uploaded URL as a parameter.
- `OrdersService.getDetail`, `OrdersRepo.listItems` and `PaymentsService.listRejectReasons` are reads that add no logic, and are not modelled.
- `OrdersRepo.updateStatus` and `OrdersRepo.enqueueNotification` (the versions without a transaction) are not called by the lifecycle services and are not modelled.
- `CustomerOrdersRepo.getByIdForUserWithShipment` and `ProductRepo.findActiveBySlug` are read-only lookups outside the lifecycle, and are not modelled.
- The search facets' linked rows and the home feed's linked products are parameters (the rows the SQL selects). The grouping and counting done on them are modelled.
- `has_images` and `in_stock` are modelled as the filter conditions they add, not evaluated against image or stock rows.
- The zod request validators, controllers, routes and middlewares are not modelled. Inputs arrive as already-typed values.
- Migrations are not modelled, except the `UNIQUE` constraints the model keeps as invariants or checks on insert.
- The dashboard and analytics services, `computeWindow` (time zones, luxon), and the mobile app apart from `range.ts` are not modelled.
- The checkout's idempotency key is not modelled, because the source does not persist it.
- `AppSettingsRepo.getOwner` is `find` on a fresh client, and is covered by `AppSettingsRepo.Find`.
- UserRepo.Create: the `UNIQUE` constraint on `users.phone` is not modelled; only the id and the e-mail are checked.
- AppSettingsRepo.Update: a field given as an explicit `null`, which the source writes as SQL NULL, is not modelled; a field is either a string or left undefined.
- DashboardRange.ToQueryParams: the clock's two days for the 90-day preset (today and 89 days earlier) are a parameter, so the date arithmetic is not modelled.
- AddressesRepo.List: rows with equal `is_default` and `created_at` may come in any order; the model states the order only up to such ties.

## Findings

| source | as written | input that shows it | evidently intended | confidence | as-written member | corrected member |
|---|---|---|---|---|---|---|
| apps/api/src/repositories/customerOrders.repo.ts:142-167 | each item's VALUES tuple has `gen_random_uuid()` and 7 placeholders for a 9-column insert, while 8 values are pushed per item | any cart with one item: the tuple has 8 expressions for 9 columns, and the 8th value has no placeholder | 8 placeholders per item, item k using `$8k+1..$8k+8` | high; not executed | CustomerOrdersRepo.ItemsInsertAsWritten | CustomerOrdersRepo.ItemsInsert |
| apps/api/src/repositories/search.repo.ts:170-175 | the price facet's CASE tests `< 50000`, `BETWEEN 50000 AND 99900` and `BETWEEN 100000 AND 199900`, and puts everything else in "200000+" | a price of 99950 paise falls in "200000+" | every price below 200000 lands in the bucket whose range contains it | medium; not executed | SearchRepo.BucketAsWrittenMisfiles | SearchRepo.BucketOfWithin |
| apps/mobile/src/features/dashboard/range.ts:60 | the custom label joins the days with "â†’", the UTF-8 bytes of "→" read as Windows-1252 | `Custom("2025-01-01", "2025-01-31")` is labelled "2025-01-01 â†’ 2025-01-31" | "2025-01-01 → 2025-01-31" | high; not executed | DashboardRange.LabelAsWrittenLacksArrow | DashboardRange.LabelFor |
| apps/api/src/repositories/product.repo.ts:197-227 | `images_limit` is pushed into `values` for the page query, and the count query reuses `values` | any listing with an image limit: the count query gets one more value than it has placeholders | the count query binds only the filter values | high; not executed | Placeholders.ExtraValueRefused | ProductRepo.CountParamsBind |
| apps/api/src/repositories/search.repo.ts:90-120 | the same: `images_limit` is pushed into the values the count query reuses | any search with an image limit | the count query binds only the filter values | high; not executed | Placeholders.ExtraValueRefused | SearchRepo.CountParamsBind |
| apps/api/src/repositories/product.repo.ts:67-97 | with a title, `slug = $${idx++}` takes `$1`, so the SET list reads `$2..$8` and the WHERE `$9` while the values are still title, category, price, description, note, active, stock, new slug, id | retitling to "Red Coral": `stock_qty` reads the slug "red-coral" as an integer and the statement is refused | each column reads its own value and `slug` the new slug | high; not executed | ProductRepo.UpdateAsWritten | ProductRepo.Update |
| apps/api/src/services/customer.orders.service.ts:119-126 | checkout calls `ProductVariantRepo.findById`, which `productVariant.repo.ts` does not define | any cart line with a `variantId` throws a TypeError | the variant is looked up by id, and its price is used when it is a number | high; not executed | CustomerOrdersService.VariantLinesFailAsWritten | CustomerOrdersService.PriceLine |
