/**
 * The tables of the shop and the database calls the services make on them.
 * Every function below is one call or one transaction: it happens entirely or,
 * when it returns None, not at all.
 */
module Store {
  import opened Prelude

  type OrderId = nat
  type JobId = nat
  type GrantId = nat
  type VariantId = nat
  type ProductId = nat
  type IntentId = nat
  type EventId = nat
  type Time = nat

  // ---------------------------------------------------------------- rows

  datatype OrderStatus =
    | PENDING_PAYMENT | PAID | IN_PRODUCTION | SHIPPED
    | DELIVERED | CANCELLED | REFUNDED | NEEDS_REVIEW

  datatype Fulfillment = POD | INVENTORY | DIGITAL

  /** An order line: what was bought, copied at the moment of the sale. */
  datatype Line = Line(
    variantId: VariantId,
    productName: string,
    kind: Fulfillment,
    asset: Option<string>,
    unitPriceCents: nat,
    quantity: nat,
    lineTotalCents: nat)

  datatype Order = Order(
    status: OrderStatus,
    paymentIntent: Option<IntentId>,
    paidAt: Option<Time>,
    submittedAt: Option<Time>,
    createdAt: Time,
    customerEmail: string,
    lines: seq<Line>)

  datatype JobKind =
    | FULFILL_ORDER | DELIVER_DIGITAL | SEND_ORDER_CONFIRMATION
    | SEND_SHIPPING_NOTIFICATION | SEND_ADMIN_ALERT | SEND_CONTACT_MESSAGE

  datatype JobStatus = PENDING | PROCESSING | DONE | FAILED

  /** The unique column "<type>:<ref>" is the pair (kind, ref). */
  datatype Job = Job(
    kind: JobKind,
    ref: nat,
    orderId: Option<OrderId>,
    status: JobStatus,
    attempts: nat,
    maxAttempts: nat,
    nextAttemptAt: Time,
    completedAt: Option<Time>)

  /** An order line is named by its order and its position in it. */
  datatype ItemKey = ItemKey(order: OrderId, index: nat)

  /** A download permission. Its key in the table stands for the token hash. */
  datatype Grant = Grant(
    item: ItemKey,
    maxDownloads: nat,
    downloadCount: nat,
    expiresAt: Time,
    revokedAt: Option<Time>)

  datatype Db = Db(
    products: set<ProductId>,
    variants: map<VariantId, ProductId>,
    orders: map<OrderId, Order>,
    jobs: map<JobId, Job>,
    grants: map<GrantId, Grant>,
    events: set<EventId>)

  const EMPTY_DB := Db({}, map[], map[], map[], map[], {})

  const MAX_ATTEMPTS := 5
  const BATCH_SIZE := 10
  const DOWNLOAD_GRANT_MAX_USES := 5
  const DOWNLOAD_GRANT_TTL_MS := 72 * 60 * 60 * 1000
  const MS_PER_DAY := 24 * 60 * 60 * 1000
  const DIAS_RETENCION_SIN_COBRO := 30
  const DIAS_RETENCION_TRABAJOS_HECHOS := 90

  // ---------------------------------------------------------------- orders

  /** NUNCA_COBRADO: the three signals that no money ever came in. */
  predicate NeverCharged(o: Order) {
    o.status in {PENDING_PAYMENT, CANCELLED} && o.paymentIntent.None? && o.paidAt.None?
  }

  /** COMPRADOS: the states that count as a purchase. */
  predicate Purchased(o: Order) {
    o.status in {PAID, IN_PRODUCTION, SHIPPED, DELIVERED}
  }

  predicate SoloDigital(lines: seq<Line>) {
    |lines| > 0 && forall i :: 0 <= i < |lines| ==> lines[i].kind == DIGITAL
  }

  function DeliveryKind(lines: seq<Line>): JobKind {
    if SoloDigital(lines) then DELIVER_DIGITAL else FULFILL_ORDER
  }

  predicate IsDelivery(kind: JobKind) {
    kind == FULFILL_ORDER || kind == DELIVER_DIGITAL
  }

  /** Unique columns: no other order holds this PaymentIntent. */
  predicate IntentFree(orders: map<OrderId, Order>, o: OrderId, intent: IntentId) {
    forall other :: other in orders && other != o ==> orders[other].paymentIntent != Some(intent)
  }

  function SetOrder(db: Db, o: OrderId, row: Order): Db {
    db.(orders := db.orders[o := row])
  }

  /** The row the payment transaction writes. */
  function PaidRow(row: Order, intent: IntentId, now: Time): Order {
    row.(status := PAID, paidAt := Some(now), paymentIntent := Some(intent))
  }

  /**
   * The payment transaction. It aborts when the order is gone or the
   * PaymentIntent already belongs to another order; it never looks at the
   * order's status again. `lines` are the ones read before the transaction.
   */
  function CommitPayment(db: Db, o: OrderId, intent: IntentId, lines: seq<Line>,
                         j1: JobId, j2: JobId, now: Time): Option<Db> {
    if o !in db.orders || !IntentFree(db.orders, o, intent) then None
    else
      var jobs1 := Enqueue(db.jobs, j1, SEND_ORDER_CONFIRMATION, o, Some(o), now);
      var jobs2 := Enqueue(jobs1, j2, DeliveryKind(lines), o, Some(o), now);
      Some(db.(orders := db.orders[o := PaidRow(db.orders[o], intent, now)], jobs := jobs2))
  }

  /** The row a finished delivery writes; a download is delivered, the rest goes to production. */
  function SubmittedRow(row: Order, kind: JobKind, now: Time): Order {
    row.(status := if kind == DELIVER_DIGITAL then DELIVERED else IN_PRODUCTION, submittedAt := Some(now))
  }

  /** handleSessionExpired: a conditional update on the status alone. */
  function ExpireSession(db: Db, o: OrderId): Db {
    if o in db.orders && db.orders[o].status == PENDING_PAYMENT
    then SetOrder(db, o, db.orders[o].(status := CANCELLED)) else db
  }

  /** Reconciliation's cancelar: a conditional update on all three signals. */
  function CancelUnpaid(db: Db, o: OrderId): Db {
    if o in db.orders && NeverCharged(db.orders[o])
    then SetOrder(db, o, db.orders[o].(status := CANCELLED)) else db
  }

  /** The refund transaction: the order and every live grant of its lines. */
  function CommitRefund(db: Db, o: OrderId, now: Time): Option<Db> {
    if o !in db.orders then None
    else Some(db.(
      orders := db.orders[o := db.orders[o].(status := REFUNDED)],
      grants := RevokeLive(db.grants, set i | 0 <= i < |db.orders[o].lines| :: ItemKey(o, i), now)))
  }

  /**
   * DELETE on orders, as the database runs it: the trigger rejects the whole
   * statement unless every row is never-charged, and the cascade takes the
   * lines, the jobs and the grants of what goes.
   */
  function DeleteOrders(db: Db, victims: set<OrderId>): Option<Db> {
    if exists o :: o in victims && o in db.orders && !NeverCharged(db.orders[o]) then None
    else Some(db.(
      orders := map o | o in db.orders && o !in victims :: db.orders[o],
      jobs := map j | j in db.jobs && !(db.jobs[j].orderId.Some? && db.jobs[j].orderId.value in victims) :: db.jobs[j],
      grants := map g | g in db.grants && db.grants[g].item.order !in victims :: db.grants[g]))
  }

  /** The ids an abandoned-checkout purge selects. */
  function StaleUnpaid(db: Db, limit: Time): set<OrderId> {
    set o | o in db.orders && NeverCharged(db.orders[o]) && db.orders[o].createdAt < limit
  }

  // ---------------------------------------------------------------- catalogue

  predicate RefersTo(db: Db, o: OrderId, product: ProductId)
    requires o in db.orders
  {
    exists i :: 0 <= i < |db.orders[o].lines|
      && db.orders[o].lines[i].variantId in db.variants
      && db.variants[db.orders[o].lines[i].variantId] == product
  }

  /** The sales guard of deleteProduct: some line of a charged order. */
  predicate HasSales(db: Db, product: ProductId) {
    exists o :: o in db.orders && !NeverCharged(db.orders[o]) && RefersTo(db, o, product)
  }

  function UnpaidOf(db: Db, product: ProductId): set<OrderId> {
    set o | o in db.orders && NeverCharged(db.orders[o]) && RefersTo(db, o, product)
  }

  /** Deleting a product cascades to its variants; a line restricts the variant. */
  function DropProduct(db: Db, product: ProductId): Option<Db> {
    if product !in db.products || (exists o :: o in db.orders && RefersTo(db, o, product)) then None
    else Some(db.(
      products := db.products - {product},
      variants := map v | v in db.variants && db.variants[v] != product :: db.variants[v]))
  }

  /** deleteProduct's transaction: abandoned attempts first, then the product. */
  function DeleteProduct(db: Db, product: ProductId): Option<Db> {
    match DeleteOrders(db, UnpaidOf(db, product))
    case None => None
    case Some(db1) => DropProduct(db1, product)
  }

  predicate VariantReferenced(db: Db, v: VariantId) {
    exists o, i :: o in db.orders && 0 <= i < |db.orders[o].lines| && db.orders[o].lines[i].variantId == v
  }

  function DeleteVariant(db: Db, v: VariantId): Option<Db> {
    if v !in db.variants || VariantReferenced(db, v) then None
    else Some(db.(variants := map w | w in db.variants && w != v :: db.variants[w]))
  }

  // ---------------------------------------------------------------- jobs

  predicate KeyTaken(jobs: map<JobId, Job>, kind: JobKind, ref: nat) {
    exists j :: j in jobs && jobs[j].kind == kind && jobs[j].ref == ref
  }

  function NewJob(kind: JobKind, ref: nat, orderId: Option<OrderId>, now: Time): Job {
    Job(kind, ref, orderId, PENDING, 0, MAX_ATTEMPTS, now, None)
  }

  /** createMany with skipDuplicates over the unique key. */
  function Enqueue(jobs: map<JobId, Job>, id: JobId, kind: JobKind, ref: nat,
                   orderId: Option<OrderId>, now: Time): map<JobId, Job> {
    if KeyTaken(jobs, kind, ref) then jobs else jobs[id := NewJob(kind, ref, orderId, now)]
  }

  predicate Due(jobs: map<JobId, Job>, j: JobId, now: Time) {
    j in jobs && jobs[j].status == PENDING && jobs[j].nextAttemptAt <= now
  }

  /** What findMany answers in claimBatch: the first due jobs, oldest first. */
  predicate IsBatch(jobs: map<JobId, Job>, now: Time, ids: seq<JobId>) {
    && NoDup(ids)
    && |ids| <= BATCH_SIZE
    && (forall j :: j in ids ==> Due(jobs, j, now))
    && (forall i, k :: 0 <= i < k < |ids| && ids[i] in jobs && ids[k] in jobs ==>
          jobs[ids[i]].nextAttemptAt <= jobs[ids[k]].nextAttemptAt)
    && (forall j :: j in jobs && Due(jobs, j, now) && j !in ids ==>
          |ids| == BATCH_SIZE
          && forall i :: 0 <= i < |ids| && ids[i] in jobs ==> jobs[ids[i]].nextAttemptAt <= jobs[j].nextAttemptAt)
  }

  /** The rows claimBatch's updateMany hits. */
  function Claimable(jobs: map<JobId, Job>, ids: seq<JobId>): set<JobId> {
    set j | j in ids && j in jobs && jobs[j].status == PENDING
  }

  function SetProcessing(jobs: map<JobId, Job>, hit: set<JobId>): map<JobId, Job> {
    map j | j in jobs :: if j in hit then jobs[j].(status := PROCESSING) else jobs[j]
  }

  function Completed(job: Job, now: Time): Job {
    job.(status := DONE, completedAt := Some(now), attempts := job.attempts + 1)
  }

  /** What recordFailure writes, from the attempts it read before. */
  function FailedOnce(job: Job, attemptsRead: nat, maxRead: nat, nextAt: Time): Job {
    job.(status := if attemptsRead + 1 >= maxRead then FAILED else PENDING,
         attempts := attemptsRead + 1,
         nextAttemptAt := nextAt)
  }

  predicate Exhausted(jobs: map<JobId, Job>, o: OrderId, j: JobId) {
    j in jobs && jobs[j].orderId == Some(o) && jobs[j].status == FAILED
  }

  /** reencolarFallidos: the same rows go back to the queue. */
  function RequeueFailed(jobs: map<JobId, Job>, o: OrderId, now: Time): map<JobId, Job> {
    map j | j in jobs ::
      if Exhausted(jobs, o, j) then jobs[j].(status := PENDING, attempts := 0, nextAttemptAt := now) else jobs[j]
  }

  function FailedOf(jobs: map<JobId, Job>, o: OrderId): set<JobId> {
    set j | j in jobs && Exhausted(jobs, o, j)
  }

  predicate OldDone(job: Job, limit: Time) {
    job.status == DONE && job.completedAt.Some? && job.completedAt.value < limit
  }

  function PurgeDone(jobs: map<JobId, Job>, limit: Time): map<JobId, Job> {
    map j | j in jobs && !OldDone(jobs[j], limit) :: jobs[j]
  }

  // ---------------------------------------------------------------- grants

  predicate Live(g: Grant) {
    g.revokedAt.None?
  }

  function RevokeLive(grants: map<GrantId, Grant>, items: set<ItemKey>, now: Time): map<GrantId, Grant> {
    map g | g in grants ::
      if grants[g].item in items && Live(grants[g]) then grants[g].(revokedAt := Some(now)) else grants[g]
  }

  predicate Deliverable(line: Line) {
    line.kind == DIGITAL && Truthy(line.asset)
  }

  /** Positions of the lines emitirEnlaces keeps, in order. */
  function Deliverables(lines: seq<Line>, from: nat := 0): seq<nat>
    decreases |lines| - from
  {
    if from >= |lines| then []
    else if Deliverable(lines[from]) then [from] + Deliverables(lines, from + 1)
    else Deliverables(lines, from + 1)
  }

  function NewGrant(item: ItemKey, now: Time): Grant {
    Grant(item, DOWNLOAD_GRANT_MAX_USES, 0, now + DOWNLOAD_GRANT_TTL_MS, None)
  }

  /** One fresh grant per position. */
  function AddGrants(grants: map<GrantId, Grant>, o: OrderId, idx: seq<nat>, ids: seq<GrantId>, now: Time)
      : map<GrantId, Grant>
    requires |ids| == |idx|
  {
    if idx == [] then grants
    else
      AddGrants(grants, o, idx[..|idx|-1], ids[..|ids|-1], now)[
        ids[|ids|-1] := NewGrant(ItemKey(o, idx[|idx|-1]), now)]
  }

  /** emitirEnlaces' transaction: revoke what is live, then issue. */
  function EmitLinks(grants: map<GrantId, Grant>, o: OrderId, lines: seq<Line>, ids: seq<GrantId>, now: Time)
      : map<GrantId, Grant>
    requires |ids| == |Deliverables(lines)|
  {
    var idx := Deliverables(lines);
    AddGrants(RevokeLive(grants, set i | i in idx :: ItemKey(o, i), now), o, idx, ids, now)
  }

  /** The checks of download() before the counter moves. */
  predicate Downloadable(db: Db, g: GrantId, now: Time) {
    && g in db.grants
    && Live(db.grants[g])
    && now <= db.grants[g].expiresAt
    && db.grants[g].downloadCount < db.grants[g].maxDownloads
    && db.grants[g].item.order in db.orders
    && db.grants[g].item.index < |db.orders[db.grants[g].item.order].lines|
    && Truthy(db.orders[db.grants[g].item.order].lines[db.grants[g].item.index].asset)
  }

  /** The conditional increment; `max` is the limit read beforehand. */
  predicate CanCount(grants: map<GrantId, Grant>, g: GrantId, max: nat) {
    g in grants && grants[g].downloadCount < max
  }

  function CountDownload(grants: map<GrantId, Grant>, g: GrantId): map<GrantId, Grant>
    requires g in grants
  {
    grants[g := grants[g].(downloadCount := grants[g].downloadCount + 1)]
  }
}
