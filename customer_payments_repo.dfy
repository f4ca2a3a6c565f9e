/**
 * The customer-side payments repository: `submitProof`, which records a
 * payment proof on the payment row and moves the order to
 * PAYMENT_SUBMITTED, both inside one BEGIN/COMMIT on the shared client.
 */
module CustomerPaymentsRepo {
  import opened Wrappers
  import opened Db
  import opened Errors
  import opened Tx
  import OrdersRepo

  /**
   * The payments table after `UPDATE payments SET status = 'SUBMITTED',
   * screenshot_url, reference_text, submitted_at, updated_at WHERE order_id`:
   * verdict columns (verified_at, verified_by, rejection_reason) keep their
   * values, so an earlier rejection reason survives a new proof.
   */
  function WithProof(payments: map<Id, Payment>, orderId: Id, screenshotUrl: string, referenceText: Option<string>, now: Time)
    : (r: map<Id, Payment>)
    ensures r.Keys == payments.Keys
    ensures forall k :: k in payments && k != orderId ==> r[k] == payments[k]
    ensures orderId in payments ==>
      var p, q := payments[orderId], r[orderId];
      && q.status == PaySubmitted && q.screenshotUrl == Some(screenshotUrl) && q.referenceText == referenceText
      && q.submittedAt == Some(now) && q.updatedAt == now
      && q.(status := p.status, screenshotUrl := p.screenshotUrl, referenceText := p.referenceText,
            submittedAt := p.submittedAt, updatedAt := p.updatedAt) == p
  {
    if orderId in payments then
      var p := payments[orderId];
      payments[orderId := p.(status := PaySubmitted, screenshotUrl := Some(screenshotUrl), referenceText := referenceText,
                             submittedAt := Some(now), updatedAt := now)]
    else payments
  }

  /** The order columns the proof sets: status PAYMENT_SUBMITTED and payment_status SUBMITTED. */
  const ProofFields := OrdersRepo.StatusFields(Some(PaySubmitted), Some(PaymentSubmitted))

  /** What `submitProof` returns: the updated payment and order rows (absent when no row matched). */
  datatype Submitted = Submitted(payment: Option<Payment>, order: Option<Order>)

  /**
   * `submitProof({orderId, screenshotUrl, referenceText})`: BEGIN, update
   * the payment, update the order, COMMIT. No prior state is checked here;
   * the caller's guards decide whether a proof is acceptable.
   */
  function SubmitProofOutcome(s: Snapshot, orderId: Id, screenshotUrl: string, referenceText: Option<string>, now: Time)
    : Outcome<Submitted>
  {
    var payments := WithProof(s.payments, orderId, screenshotUrl, referenceText, now);
    var orders := OrdersRepo.WithStatuses(s.orders, orderId, ProofFields, now);
    var after := s.(payments := payments, orders := orders);
    WithTx(s, after, Ok(Submitted(if orderId in payments then Some(payments[orderId]) else None,
                                  if orderId in orders then Some(orders[orderId]) else None)))
  }

  /**
   * What `submitProof` promises from every state: both rows change in the
   * one committed transaction, the payment carries the proof and the order
   * is PAYMENT_SUBMITTED/SUBMITTED, and no other table or row changes.
   */
  lemma SubmitProofSpec(s: Snapshot, orderId: Id, screenshotUrl: string, referenceText: Option<string>, now: Time)
    ensures var o := SubmitProofOutcome(s, orderId, screenshotUrl, referenceText, now);
      && o.journal == [BeginStmt, CommitStmt] && o.result.Ok?
      && o.state.items == s.items && o.state.shipments == s.shipments
      && o.state.audit == s.audit && o.state.outbox == s.outbox
      && o.state.orders.Keys == s.orders.Keys && o.state.payments.Keys == s.payments.Keys
      && (forall k :: k in s.orders && k != orderId ==> o.state.orders[k] == s.orders[k])
      && (forall k :: k in s.payments && k != orderId ==> o.state.payments[k] == s.payments[k])
    ensures var o := SubmitProofOutcome(s, orderId, screenshotUrl, referenceText, now);
      orderId in s.payments ==>
      var q := o.state.payments[orderId];
      && o.result.value.payment == Some(q)
      && q.status == PaySubmitted && q.screenshotUrl == Some(screenshotUrl) && q.referenceText == referenceText
      && q.submittedAt == Some(now) && q.id == s.payments[orderId].id
    ensures var o := SubmitProofOutcome(s, orderId, screenshotUrl, referenceText, now);
      orderId in s.orders ==>
      var ord := o.state.orders[orderId];
      && o.result.value.order == Some(ord)
      && ord.status == PaymentSubmitted && ord.paymentStatus == PaySubmitted
      && ord.userId == s.orders[orderId].userId && ord.shipTo == s.orders[orderId].shipTo
  {
  }

  /** A new proof leaves the verdict columns alone: a prior rejection reason is not cleared. */
  lemma ProofKeepsVerdictColumns(s: Snapshot, orderId: Id, screenshotUrl: string, referenceText: Option<string>, now: Time)
    requires orderId in s.payments
    ensures var q := SubmitProofOutcome(s, orderId, screenshotUrl, referenceText, now).state.payments[orderId];
      var p := s.payments[orderId];
      q.rejectionReason == p.rejectionReason && q.verifiedAt == p.verifiedAt && q.verifiedBy == p.verifiedBy
  {
  }

  /** The transaction of `submitProof`, statement by statement on the shared client. */
  method SubmitProof(db: Database, orderId: Id, screenshotUrl: string, referenceText: Option<string>, now: Time)
    returns (r: Result<Submitted>)
    modifies db`payments, db`orders, db`journal, db`savepoint
    ensures var o := SubmitProofOutcome(old(db.View()), orderId, screenshotUrl, referenceText, now);
      db.View() == o.state && r == o.result && db.journal == old(db.journal) + o.journal
  {
    Begin(db);
    db.payments := WithProof(db.payments, orderId, screenshotUrl, referenceText, now);
    var payment := if orderId in db.payments then Some(db.payments[orderId]) else None;
    var order := OrdersRepo.UpdateStatusesTx(db, orderId, ProofFields, now);
    Commit(db);
    r := Ok(Submitted(payment, order));
  }
}
