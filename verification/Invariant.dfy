/**
 * What holds in every state the paid-order protocol can reach, table by table.
 * Each predicate names only the tables it talks about.
 */
module Invariant {
  import opened Prelude
  import opened Store
  import opened Protocol

  // ---------------------------------------------------------------- orders

  ghost predicate OrderRowOk(o: Order) {
    && (o.paidAt.Some? <==> o.paymentIntent.Some?)
    && (o.paidAt.Some? ==> o.status != PENDING_PAYMENT && o.status != CANCELLED)
    && (o.paidAt.None? ==> o.submittedAt.None? && o.status in {PENDING_PAYMENT, CANCELLED, REFUNDED})
    && (o.paidAt.Some? && o.submittedAt.None? ==> o.status in {PAID, NEEDS_REVIEW, REFUNDED})
    && o.lines != []
    && forall i :: 0 <= i < |o.lines| && o.lines[i].kind == DIGITAL ==> Truthy(o.lines[i].asset)
  }

  ghost predicate OrdersOk(orders: map<OrderId, Order>) {
    forall o :: o in orders ==> OrderRowOk(orders[o])
  }

  ghost predicate IntentsUnique(orders: map<OrderId, Order>) {
    forall a, b ::
      (a in orders && b in orders && orders[a].paymentIntent.Some?
        && orders[a].paymentIntent == orders[b].paymentIntent)
      ==> a == b
  }

  predicate IsPaid(orders: map<OrderId, Order>, o: OrderId) {
    o in orders && orders[o].paidAt.Some?
  }

  // ---------------------------------------------------------------- catalogue

  ghost predicate LinesOk(orders: map<OrderId, Order>, variants: map<VariantId, ProductId>) {
    forall o, i :: o in orders && 0 <= i < |orders[o].lines| ==> orders[o].lines[i].variantId in variants
  }

  ghost predicate VariantsOk(variants: map<VariantId, ProductId>, products: set<ProductId>) {
    forall v :: v in variants ==> variants[v] in products
  }

  // ---------------------------------------------------------------- jobs

  ghost predicate JobRowOk(orders: map<OrderId, Order>, job: Job) {
    && job.maxAttempts == MAX_ATTEMPTS
    && (job.status == PENDING || job.status == PROCESSING ==> job.attempts < job.maxAttempts)
    && (job.status == FAILED ==> job.attempts == job.maxAttempts)
    && (job.status == DONE ==> job.attempts <= job.maxAttempts)
    && (job.orderId.None? ==> job.kind == SEND_CONTACT_MESSAGE)
    && (job.orderId.Some? ==>
          && job.kind != SEND_CONTACT_MESSAGE
          && job.ref == job.orderId.value
          && IsPaid(orders, job.orderId.value))
    && (job.orderId.Some? && IsDelivery(job.kind) ==>
          && job.kind == DeliveryKind(orders[job.orderId.value].lines)
          && (job.status == DONE ==> orders[job.orderId.value].submittedAt.Some?))
  }

  ghost predicate JobsOk(orders: map<OrderId, Order>, jobs: map<JobId, Job>) {
    forall j :: j in jobs ==> JobRowOk(orders, jobs[j])
  }

  ghost predicate KeysUnique(jobs: map<JobId, Job>) {
    forall a, b :: a in jobs && b in jobs && jobs[a].kind == jobs[b].kind && jobs[a].ref == jobs[b].ref ==> a == b
  }

  /** Some row still owes this order its delivery. */
  ghost predicate Owed(jobs: map<JobId, Job>, o: OrderId, kind: JobKind) {
    exists j :: j in jobs && jobs[j].orderId == Some(o) && jobs[j].kind == kind && jobs[j].status != DONE
  }

  ghost predicate Covered(orders: map<OrderId, Order>, jobs: map<JobId, Job>) {
    forall o :: IsPaid(orders, o) && orders[o].submittedAt.None? ==> Owed(jobs, o, DeliveryKind(orders[o].lines))
  }

  /** Executions that have been accounted for in the row. */
  function Settled(job: Job, requeues: nat): nat {
    MAX_ATTEMPTS * requeues + job.attempts
  }

  ghost predicate CountsOk(jobs: map<JobId, Job>, executions: map<JobId, nat>, requeues: map<JobId, nat>) {
    forall j :: j in jobs ==>
      && j in executions && j in requeues
      && Settled(jobs[j], requeues[j]) <= executions[j]
      && executions[j] <= Settled(jobs[j], requeues[j]) + (if jobs[j].status == PROCESSING then 1 else 0)
  }

  // ---------------------------------------------------------------- workers

  /** The jobs a pass holds: the one in hand and the ones not begun. */
  function Owned(worker: Worker): seq<JobId> {
    match worker
    case Reading(_) => []
    case Idle(q) => q
    case Running(j, _, q) => [j] + q
    case Finished(j, q) => [j] + q
    case Raised(j, q) => [j] + q
    case Counted(j, _, _, q) => [j] + q
    case Escalating(_, q) => q
  }

  predicate InHand(worker: Worker) {
    worker.Running? || worker.Finished? || worker.Raised? || worker.Counted?
  }

  ghost predicate StageOk(orders: map<OrderId, Order>, job: Job, stage: Stage) {
    match stage
    case Started => true
    case Loaded(lines) => job.orderId.Some? && job.orderId.value in orders ==> lines == orders[job.orderId.value].lines
    case Linked(n) => job.kind == DELIVER_DIGITAL && n > 0
    case Mailed => IsDelivery(job.kind)
  }

  ghost predicate WorkerOk(p: Pid, worker: Worker, orders: map<OrderId, Order>, jobs: map<JobId, Job>,
                           owner: map<JobId, Pid>, executions: map<JobId, nat>, requeues: map<JobId, nat>) {
    var held := Owned(worker);
    && (worker.Reading? ==> NoDup(worker.ids))
    && NoDup(held)
    && (forall i :: 0 <= i < |held| ==>
          && held[i] in jobs && jobs[held[i]].status == PROCESSING
          && held[i] in owner && owner[held[i]] == p
          && held[i] in executions && held[i] in requeues
          && executions[held[i]] ==
             Settled(jobs[held[i]], requeues[held[i]]) + (if i == 0 && InHand(worker) then 1 else 0))
    && (InHand(worker) ==> worker.job in jobs)
    && (worker.Running? ==> StageOk(orders, jobs[worker.job], worker.stage))
    && (worker.Finished? && IsDelivery(jobs[worker.job].kind) && jobs[worker.job].orderId.Some? ==>
          jobs[worker.job].orderId.value in orders && orders[jobs[worker.job].orderId.value].submittedAt.Some?)
    && (worker.Counted? ==>
        worker.attempts == jobs[worker.job].attempts && worker.maxAttempts == jobs[worker.job].maxAttempts)
    && (worker.Escalating? ==> IsPaid(orders, worker.order))
  }

  ghost predicate WorkersOk(workers: map<Pid, Worker>, orders: map<OrderId, Order>, jobs: map<JobId, Job>,
                            owner: map<JobId, Pid>, executions: map<JobId, nat>, requeues: map<JobId, nat>) {
    forall p :: p in workers ==> WorkerOk(p, workers[p], orders, jobs, owner, executions, requeues)
  }

  // ---------------------------------------------------------------- requests

  ghost predicate RequestOk(r: Request, orders: map<OrderId, Order>, used: set<OrderId>) {
    match r
    case PaymentRead(o, _, lines) => o in used && (o in orders ==> orders[o].lines == lines)
    case RetryChecked(o) => IsPaid(orders, o)
    case RetryRequeued(o) => IsPaid(orders, o)
    case ResendRead(o, lines) => IsPaid(orders, o) && orders[o].lines == lines
    case _ => true
  }

  ghost predicate RequestsOk(requests: map<Pid, Request>, orders: map<OrderId, Order>, used: set<OrderId>) {
    && orders.Keys <= used
    && forall p :: p in requests ==> RequestOk(requests[p], orders, used)
  }

  // ---------------------------------------------------------------- grants

  ghost predicate GrantsOk(orders: map<OrderId, Order>, grants: map<GrantId, Grant>) {
    forall g :: g in grants ==>
      && IsPaid(orders, grants[g].item.order)
      && grants[g].item.index < |orders[grants[g].item.order].lines|
      && grants[g].downloadCount <= grants[g].maxDownloads == 5
  }

  ghost predicate OneLive(grants: map<GrantId, Grant>) {
    forall a, b ::
      (a in grants && b in grants && Live(grants[a]) && Live(grants[b]) && grants[a].item == grants[b].item) ==> a == b
  }

  /** The requests that moved a grant's counter and have not handed out a URL yet. */
  function Pending(downloads: map<Pid, Download>, g: GrantId): set<Pid> {
    set p | p in downloads && downloads[p] == Signing(g)
  }

  ghost predicate DownloadsOk(downloads: map<Pid, Download>, grants: map<GrantId, Grant>) {
    forall p :: p in downloads ==>
      && downloads[p].grant in grants
      && (downloads[p].GrantRead? ==> downloads[p].max == grants[downloads[p].grant].maxDownloads)
  }

  ghost predicate BudgetOk(downloads: map<Pid, Download>, grants: map<GrantId, Grant>, handed: map<GrantId, nat>) {
    forall g :: g in grants ==> g in handed && handed[g] + |Pending(downloads, g)| <= grants[g].downloadCount
  }

  // ---------------------------------------------------------------- events

  ghost predicate EventsOk(requests: map<Pid, Request>, events: set<EventId>, dispatched: map<EventId, nat>) {
    && (forall e :: e in dispatched ==> e in events && dispatched[e] <= 1)
    && (forall p :: p in requests && requests[p].EventClaimed? ==>
          requests[p].event in dispatched && dispatched[requests[p].event] == 0)
    && (forall p, q ::
          (p in requests && q in requests && requests[p].EventClaimed? && requests[q].EventClaimed?
           && requests[p].event == requests[q].event)
          ==> p == q)
  }

  // ---------------------------------------------------------------- all of it

  ghost predicate QueueInv(w: World) {
    && JobsOk(w.db.orders, w.db.jobs)
    && KeysUnique(w.db.jobs)
    && Covered(w.db.orders, w.db.jobs)
    && CountsOk(w.db.jobs, w.executions, w.requeues)
    && WorkersOk(w.workers, w.db.orders, w.db.jobs, w.owner, w.executions, w.requeues)
  }

  ghost predicate OrderInv(w: World) {
    && OrdersOk(w.db.orders)
    && IntentsUnique(w.db.orders)
    && LinesOk(w.db.orders, w.db.variants)
    && VariantsOk(w.db.variants, w.db.products)
    && RequestsOk(w.requests, w.db.orders, w.usedOrders)
  }

  ghost predicate GrantInv(w: World) {
    && GrantsOk(w.db.orders, w.db.grants)
    && OneLive(w.db.grants)
    && DownloadsOk(w.downloads, w.db.grants)
    && BudgetOk(w.downloads, w.db.grants, w.handed)
  }

  ghost predicate Inv(w: World) {
    && OrderInv(w)
    && QueueInv(w)
    && GrantInv(w)
    && EventsOk(w.requests, w.db.events, w.dispatched)
  }

  // ---------------------------------------------------------------- what only grows

  /** A charge, a submission and the frozen lines are never undone. */
  predicate Evolves(a: Order, b: Order) {
    && b.lines == a.lines
    && (a.paidAt.Some? ==> b.paidAt.Some?)
    && (a.submittedAt.Some? ==> b.submittedAt.Some?)
  }

  /** Only orders without a charge may disappear. */
  ghost predicate OrdersLater(before: map<OrderId, Order>, after: map<OrderId, Order>) {
    && (forall o :: IsPaid(before, o) ==> o in after)
    && (forall o :: o in before && o in after ==> Evolves(before[o], after[o]))
  }

  /** Grants stay, keep their line and limit, and a revocation stays. */
  ghost predicate GrantsLater(before: map<GrantId, Grant>, after: map<GrantId, Grant>) {
    forall g :: g in before ==>
      && g in after
      && after[g].item == before[g].item
      && after[g].maxDownloads == before[g].maxDownloads
      && before[g].downloadCount <= after[g].downloadCount
      && (!Live(before[g]) ==> after[g].revokedAt == before[g].revokedAt)
  }

  ghost predicate Later(w: World, w': World) {
    && w.now <= w'.now
    && OrdersLater(w.db.orders, w'.db.orders)
    && GrantsLater(w.db.grants, w'.db.grants)
    && w.usedOrders <= w'.usedOrders
    && (forall o :: o in w'.db.orders && o !in w.db.orders ==> o !in w.usedOrders)
  }
}
