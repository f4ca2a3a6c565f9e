/**
 * The owner-side payments repository: the verification queue listing, the
 * lookup of an order's payment, and the verdict update used inside the
 * confirm and reject transactions.
 */
module PaymentsRepo {
  import opened Wrappers
  import opened Db
  import opened Query
  import opened Placeholders

  /** `getByOrderId(orderId)`: the order's payment row, or null when there is none. */
  function GetByOrderId(db: Database, orderId: Id): (r: Option<Payment>)
    reads db`payments
    ensures r.None? <==> orderId !in db.payments
    ensures r.Some? ==> r.value == db.payments[orderId]
  {
    if orderId in db.payments then Some(db.payments[orderId]) else None
  }

  /** The optional columns of `updateStatusTx`. */
  datatype Extras = Extras(
    verifiedAt: Option<Time>,
    verifiedBy: Field<Option<Id>>,
    rejectionReason: Field<string>,
    referenceText: Field<Option<string>>)

  /** A verdict is CONFIRMED or REJECTED; the other payment states are not accepted. */
  predicate IsVerdict(status: PaymentStatus) {
    status == PayConfirmed || status == PayRejected
  }

  /**
   * The payments table after `updateStatusTx`: status and updated_at are
   * always written, verified_at only when a date was given, the other
   * extras only when not undefined, and no other column changes.
   */
  function WithVerdict(payments: map<Id, Payment>, orderId: Id, status: PaymentStatus, extras: Extras, now: Time)
    : (r: map<Id, Payment>)
    requires IsVerdict(status)
    ensures r.Keys == payments.Keys
    ensures forall k :: k in payments && k != orderId ==> r[k] == payments[k]
    ensures orderId in payments ==>
      var p, q := payments[orderId], r[orderId];
      && q.status == status && q.updatedAt == now
      && (extras.verifiedAt.Some? ==> q.verifiedAt == extras.verifiedAt)
      && (extras.verifiedAt.None? ==> q.verifiedAt == p.verifiedAt)
      && (extras.verifiedBy.Defined? ==> q.verifiedBy == extras.verifiedBy.value)
      && (extras.verifiedBy.Undefined? ==> q.verifiedBy == p.verifiedBy)
      && (extras.rejectionReason.Defined? ==> q.rejectionReason == Some(extras.rejectionReason.value))
      && (extras.rejectionReason.Undefined? ==> q.rejectionReason == p.rejectionReason)
      && (extras.referenceText.Defined? ==> q.referenceText == extras.referenceText.value)
      && (extras.referenceText.Undefined? ==> q.referenceText == p.referenceText)
      && q.(status := p.status, updatedAt := p.updatedAt, verifiedAt := p.verifiedAt, verifiedBy := p.verifiedBy,
            rejectionReason := p.rejectionReason, referenceText := p.referenceText) == p
  {
    if orderId in payments then
      var p := payments[orderId];
      payments[orderId := p.(
        status := status,
        updatedAt := now,
        verifiedAt := if extras.verifiedAt.Some? then extras.verifiedAt else p.verifiedAt,
        verifiedBy := extras.verifiedBy.Or(p.verifiedBy),
        rejectionReason := if extras.rejectionReason.Defined? then Some(extras.rejectionReason.value) else p.rejectionReason,
        referenceText := extras.referenceText.Or(p.referenceText))]
    else payments
  }

  /** A verdict with no extras touches only status and updated_at, so a second identical verdict changes nothing more. */
  lemma VerdictWithoutExtras(payments: map<Id, Payment>, orderId: Id, status: PaymentStatus, now: Time)
    requires IsVerdict(status)
    ensures var r := WithVerdict(payments, orderId, status, Extras(None, Undefined, Undefined, Undefined), now);
      WithVerdict(r, orderId, status, Extras(None, Undefined, Undefined, Undefined), now) == r
  {
  }

  /** `updateStatusTx(tx, paymentId, status, extras)`, the row addressed through its order. */
  method UpdateStatusTx(db: Database, orderId: Id, status: PaymentStatus, extras: Extras, now: Time)
    returns (r: Option<Payment>)
    requires IsVerdict(status)
    modifies db`payments
    ensures db.payments == WithVerdict(old(db.payments), orderId, status, extras, now)
    ensures r == GetByOrderId(db, orderId)
  {
    db.payments := WithVerdict(db.payments, orderId, status, extras, now);
    r := GetByOrderId(db, orderId);
  }

  /** The filters of the payments listing. */
  datatype PaymentFilter = StatusIn | CreatedFrom | CreatedBefore | TextLike

  /** The payments listing arguments. */
  datatype ListArgs = ListArgs(
    status: Option<OneOrMany>,
    from: Option<string>,
    to: Option<string>,
    q: Option<string>,
    page: int,
    limit: int,
    sort: Option<string>)

  /** The count and page statements `list` sends. */
  datatype ListPlan = ListPlan(
    where: seq<Cond<PaymentFilter>>,
    sort: Dir,
    countParams: seq<Value>,
    listParams: seq<Value>,
    limitParam: nat,
    offsetParam: nat,
    page: int,
    pageSize: int)

  /** The verification queue: without a status filter only SUBMITTED payments are listed. */
  const DefaultQueue := VTextList(["SUBMITTED"])

  /** Newest first only for "-created_at"; every other key sorts oldest first. */
  function SortFor(sort: Option<string>): (d: Dir)
    ensures d == Desc <==> sort == Some("-created_at")
  {
    if sort == Some("-created_at") then Desc else Asc
  }

  /** The filters the arguments ask for; the status filter is always there, defaulting to the queue. */
  function Wanted(args: ListArgs): (w: map<PaymentFilter, Value>)
    ensures StatusIn in w
    ensures w[StatusIn] == if PresentList(args.status) then VTextList(AsList(args.status.value)) else DefaultQueue
    ensures CreatedFrom in w <==> Present(args.from)
    ensures CreatedBefore in w <==> Present(args.to)
    ensures TextLike in w <==> Present(args.q)
    ensures CreatedFrom in w ==> w[CreatedFrom] == VText(args.from.value)
    ensures CreatedBefore in w ==> w[CreatedBefore] == VText(args.to.value)
    ensures TextLike in w ==> w[TextLike] == VText("%" + args.q.value + "%")
  {
    var w0: map<PaymentFilter, Value> := map[];
    var w1 := if PresentList(args.status) then w0[StatusIn := VTextList(AsList(args.status.GetOr(Many([]))))]
              else w0[StatusIn := DefaultQueue];
    var w2 := if Present(args.from) then w1[CreatedFrom := VText(args.from.GetOr(""))] else w1;
    var w3 := if Present(args.to) then w2[CreatedBefore := VText(args.to.GetOr(""))] else w2;
    if Present(args.q) then w3[TextLike := VText("%" + args.q.GetOr("") + "%")] else w3
  }

  /**
   * `list(args)`: a status filter binds the next placeholder, and its
   * absence adds the literal SUBMITTED condition instead; LIMIT and
   * OFFSET take the two placeholders after the filters.
   */
  method BuildList(args: ListArgs) returns (plan: ListPlan)
    ensures WellNumbered(plan.where, plan.countParams) && Binds(plan.where, plan.countParams)
    ensures Decode(plan.where, plan.countParams) == Wanted(args)
    ensures plan.sort == SortFor(args.sort)
    ensures plan.listParams == plan.countParams + [VInt(args.limit), VInt(Offset(args.page, args.limit))]
    ensures plan.limitParam == |plan.listParams| - 1 && plan.offsetParam == |plan.listParams|
    ensures plan.page == args.page && plan.pageSize == args.limit
  {
    var where: seq<Cond<PaymentFilter>> := [];
    var params: seq<Value> := [];
    where, params := PushBound(PresentList(args.status), where, params,
      StatusIn, VTextList(AsList(args.status.GetOr(Many([])))));
    where, params := PushFixed(!PresentList(args.status), where, params, StatusIn, DefaultQueue);
    where, params := PushBound(Present(args.from), where, params, CreatedFrom, VText(args.from.GetOr("")));
    where, params := PushBound(Present(args.to), where, params, CreatedBefore, VText(args.to.GetOr("")));
    where, params := PushBound(Present(args.q), where, params, TextLike, VText("%" + args.q.GetOr("") + "%"));
    var countParams := params;
    WellNumberedBinds(where, countParams);
    params := params + [VInt(args.limit), VInt(Offset(args.page, args.limit))];
    plan := ListPlan(where, SortFor(args.sort), countParams, params, |params| - 1, |params|, args.page, args.limit);
  }
}
