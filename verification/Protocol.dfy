/**
 * The paid-order protocol: every actor of the shop as a process that makes one
 * database call, or runs one transaction, per step. Between two steps of one
 * actor any other actor may move, and any actor may stop for good (Crash).
 *
 * Outcomes the shop does not decide (mail, Stripe, random waits, fresh ids)
 * are parameters of the step.
 */
module Protocol {
  import opened Prelude
  import opened Store
  import opened Backoff

  type Pid = nat

  // ---------------------------------------------------------------- actors

  /** How far `execute` got with the job in hand. */
  datatype Stage =
    | Started
    | Loaded(lines: seq<Line>)
    | Linked(links: nat)
    | Mailed

  /** One runPending pass. `queue` holds the claimed jobs not yet begun. */
  datatype Worker =
    | Reading(ids: seq<JobId>)
    | Idle(queue: seq<JobId>)
    | Running(job: JobId, stage: Stage, queue: seq<JobId>)
    | Finished(job: JobId, queue: seq<JobId>)
    | Raised(job: JobId, queue: seq<JobId>)
    | Counted(job: JobId, attempts: nat, maxAttempts: nat, queue: seq<JobId>)
    | Escalating(order: OrderId, queue: seq<JobId>)

  /** The events the webhook acts on. */
  datatype Payload =
    | PaymentSucceeded(paid: OrderId, intent: IntentId)
    | SessionExpired(expired: OrderId)
    | ChargeRefunded(refunded: OrderId, total: bool)
    | Other

  /** A request between two of its database calls. */
  datatype Request =
    | EventClaimed(event: EventId, payload: Payload)
    | PaymentRead(order: OrderId, intent: IntentId, lines: seq<Line>)
    | RefundRead(order: OrderId)
    | RetryChecked(order: OrderId)
    | RetryRequeued(order: OrderId)
    | ResendRead(order: OrderId, lines: seq<Line>)
    | DeletionChecked(product: ProductId)
    | VariantChecked(variant: VariantId)

  datatype Download =
    | GrantRead(grant: GrantId, max: nat)
    | Signing(grant: GrantId)

  /**
   * The whole system. The last six fields are bookkeeping no code reads: ids
   * ever used for orders, which pass claimed a job, how often each job was
   * executed and requeued, URLs handed out per grant, dispatches per event.
   */
  datatype World = World(
    db: Db,
    now: Time,
    workers: map<Pid, Worker>,
    requests: map<Pid, Request>,
    downloads: map<Pid, Download>,
    usedOrders: set<OrderId>,
    owner: map<JobId, Pid>,
    executions: map<JobId, nat>,
    requeues: map<JobId, nat>,
    handed: map<GrantId, nat>,
    dispatched: map<EventId, nat>)

  const INIT := World(EMPTY_DB, 0, map[], map[], map[], {}, map[], map[], map[], map[], map[])

  // ---------------------------------------------------------------- steps

  datatype Step =
    | Tick(t: Time)
    | AddProduct(product: ProductId)
    | AddVariant(variant: VariantId, product: ProductId)
    | Checkout(order: OrderId, lines: seq<Line>, email: string)
    // payments
    | ReceiveEvent(p: Pid, event: EventId, payload: Payload)
    | DispatchEvent(p: Pid)
    | ReconcilePaid(p: Pid, order: OrderId, intent: IntentId)
    | ReconcileExpired(order: OrderId)
    | ReconcileNoSession(order: OrderId)
    | PaymentCommit(p: Pid, j1: JobId, j2: JobId)
    | RefundCommit(p: Pid)
    // maintenance and administration
    | PurgeUnpaid
    | PurgeJobs
    | EnqueueContact(job: JobId, ref: nat)
    | CheckRetry(p: Pid, order: OrderId)
    | RequeueRetry(p: Pid)
    | MoveRetry(p: Pid)
    | CheckDeletion(p: Pid, product: ProductId)
    | CommitDeletion(p: Pid)
    | CheckVariant(p: Pid, variant: VariantId)
    | CommitVariant(p: Pid)
    | ReadResend(p: Pid, order: OrderId, email: string)
    | IssueResend(p: Pid, ids: seq<GrantId>)
    // the queue
    | ReadBatch(p: Pid, ids: seq<JobId>)
    | ClaimBatch(p: Pid)
    | BeginJob(p: Pid)
    | LoadOrder(p: Pid)
    | IssueLinks(p: Pid, ids: seq<GrantId>)
    | SendMail(p: Pid)
    | Submit(p: Pid)
    | Throw(p: Pid)
    | WriteDone(p: Pid)
    | ReadAttempts(p: Pid)
    | WriteFailure(p: Pid, random: real)
    | Escalate(p: Pid)
    // downloads
    | ReadGrant(p: Pid, grant: GrantId)
    | CountUse(p: Pid)
    | HandOut(p: Pid)
    // any actor may die between two of its calls
    | CrashWorker(p: Pid)
    | CrashRequest(p: Pid)
    | CrashDownload(p: Pid)

  // ---------------------------------------------------------------- helpers

  function Drop<T>(m: map<Pid, T>, p: Pid): map<Pid, T> {
    map q | q in m && q != p :: m[q]
  }

  function SetWorker(w: World, p: Pid, next: Worker): World {
    w.(workers := w.workers[p := next])
  }

  function EndRequest(w: World, p: Pid): World {
    w.(requests := Drop(w.requests, p))
  }

  /** A line checkout accepts: its variant exists and a download has its file. */
  predicate Sellable(db: Db, line: Line) {
    line.variantId in db.variants && (line.kind == DIGITAL ==> Truthy(line.asset))
  }

  predicate FreshGrants(w: World, ids: seq<GrantId>) {
    NoDup(ids) && forall g :: g in ids ==> g !in w.handed && g !in w.db.grants
  }

  function IssueGrants(w: World, o: OrderId, lines: seq<Line>, ids: seq<GrantId>): World
    requires |ids| == |Deliverables(lines)|
  {
    w.(db := w.db.(grants := EmitLinks(w.db.grants, o, lines, ids, w.now)),
       handed := w.handed + map g | g in ids :: 0)
  }

  function NewJobs(w: World, jobs: map<JobId, Job>): World {
    var born := jobs.Keys - w.db.jobs.Keys;
    w.(db := w.db.(jobs := jobs),
       executions := w.executions + map j | j in born :: 0,
       requeues := w.requeues + map j | j in born :: 0)
  }

  predicate FreshJob(w: World, j: JobId) {
    j !in w.executions && j !in w.requeues && j !in w.db.jobs
  }

  // ---------------------------------------------------------------- shop

  /** Creating an order: one nested insert; the foreign key needs the variants. */
  function DoCheckout(w: World, o: OrderId, lines: seq<Line>, email: string): World {
    if o in w.usedOrders || lines == [] || (exists i :: 0 <= i < |lines| && !Sellable(w.db, lines[i])) then w
    else w.(
      db := SetOrder(w.db, o, Order(PENDING_PAYMENT, None, None, None, w.now, email, lines)),
      usedOrders := w.usedOrders + {o})
  }

  // ---------------------------------------------------------------- payments

  /** claimEvent: the unique event id turns a duplicate into nothing. */
  function DoReceive(w: World, p: Pid, e: EventId, payload: Payload): World {
    if p in w.requests || e in w.db.events then w
    else w.(db := w.db.(events := w.db.events + {e}),
            requests := w.requests[p := EventClaimed(e, payload)],
            dispatched := w.dispatched[e := 0])
  }

  /** handlePaymentSucceeded up to its transaction. */
  function ReadPayment(w: World, p: Pid, o: OrderId, intent: IntentId): World {
    if o in w.db.orders && w.db.orders[o].status == PENDING_PAYMENT
    then w.(requests := w.requests[p := PaymentRead(o, intent, w.db.orders[o].lines)])
    else EndRequest(w, p)
  }

  /** handleChargeRefunded up to its transaction; a partial refund stops here. */
  function ReadRefund(w: World, p: Pid, o: OrderId, total: bool): World {
    if o in w.db.orders && total
    then w.(requests := w.requests[p := RefundRead(o)])
    else EndRequest(w, p)
  }

  function DoDispatch(w: World, p: Pid): World {
    if p !in w.requests || !w.requests[p].EventClaimed? then w
    else
      var e := w.requests[p].event;
      var w1 := w.(requests := Drop(w.requests, p),
                   dispatched := w.dispatched[e := if e in w.dispatched then w.dispatched[e] + 1 else 1]);
      match w.requests[p].payload
      case PaymentSucceeded(o, intent) => ReadPayment(w1, p, o, intent)
      case SessionExpired(o) => w1.(db := ExpireSession(w1.db, o))
      case ChargeRefunded(o, total) => ReadRefund(w1, p, o, total)
      case Other => w1
  }

  function DoPaymentCommit(w: World, p: Pid, j1: JobId, j2: JobId): World {
    if p !in w.requests || !w.requests[p].PaymentRead? || !FreshJob(w, j1) || !FreshJob(w, j2) || j1 == j2 then w
    else
      var r := w.requests[p];
      match CommitPayment(w.db, r.order, r.intent, r.lines, j1, j2, w.now)
      case None => EndRequest(w, p)
      case Some(db1) => EndRequest(NewJobs(w, db1.jobs).(db := db1), p)
  }

  function DoRefundCommit(w: World, p: Pid): World {
    if p !in w.requests || !w.requests[p].RefundRead? then w
    else
      match CommitRefund(w.db, w.requests[p].order, w.now)
      case None => EndRequest(w, p)
      case Some(db1) => EndRequest(w.(db := db1), p)
  }

  // ---------------------------------------------------------------- maintenance

  function Before(now: Time, days: nat): Time {
    if now >= days * MS_PER_DAY then now - days * MS_PER_DAY else 0
  }

  function DoPurgeUnpaid(w: World): World {
    match DeleteOrders(w.db, StaleUnpaid(w.db, Before(w.now, DIAS_RETENCION_SIN_COBRO)))
    case None => w
    case Some(db1) => w.(db := db1)
  }

  function DoCheckRetry(w: World, p: Pid, o: OrderId): World {
    if p in w.requests || o !in w.db.orders || w.db.orders[o].status != NEEDS_REVIEW then w
    else w.(requests := w.requests[p := RetryChecked(o)])
  }

  function DoRequeueRetry(w: World, p: Pid): World {
    if p !in w.requests || !w.requests[p].RetryChecked? then w
    else
      var o := w.requests[p].order;
      var hit := FailedOf(w.db.jobs, o);
      if hit == {} then EndRequest(w, p)
      else w.(db := w.db.(jobs := RequeueFailed(w.db.jobs, o, w.now)),
              requests := w.requests[p := RetryRequeued(o)],
              requeues := map j | j in w.requeues :: if j in hit then w.requeues[j] + 1 else w.requeues[j])
  }

  function DoMoveRetry(w: World, p: Pid): World {
    if p !in w.requests || !w.requests[p].RetryRequeued? then w
    else
      var o := w.requests[p].order;
      if o !in w.db.orders then EndRequest(w, p)
      else EndRequest(w.(db := SetOrder(w.db, o, w.db.orders[o].(status := PAID))), p)
  }

  function DoCheckDeletion(w: World, p: Pid, product: ProductId): World {
    if p in w.requests || product !in w.db.products || HasSales(w.db, product) then w
    else w.(requests := w.requests[p := DeletionChecked(product)])
  }

  function DoCommitDeletion(w: World, p: Pid): World {
    if p !in w.requests || !w.requests[p].DeletionChecked? then w
    else
      match DeleteProduct(w.db, w.requests[p].product)
      case None => EndRequest(w, p)
      case Some(db1) => EndRequest(w.(db := db1), p)
  }

  function DoCheckVariant(w: World, p: Pid, v: VariantId): World {
    if p in w.requests || v !in w.db.variants || VariantReferenced(w.db, v) then w
    else w.(requests := w.requests[p := VariantChecked(v)])
  }

  function DoCommitVariant(w: World, p: Pid): World {
    if p !in w.requests || !w.requests[p].VariantChecked? then w
    else
      match DeleteVariant(w.db, w.requests[p].variant)
      case None => EndRequest(w, p)
      case Some(db1) => EndRequest(w.(db := db1), p)
  }

  function DoReadResend(w: World, p: Pid, o: OrderId, email: string): World {
    if p in w.requests || o !in w.db.orders || !Purchased(w.db.orders[o]) || w.db.orders[o].customerEmail != email
    then w
    else w.(requests := w.requests[p := ResendRead(o, w.db.orders[o].lines)])
  }

  function DoIssueResend(w: World, p: Pid, ids: seq<GrantId>): World {
    if p !in w.requests || !w.requests[p].ResendRead? then w
    else if Deliverables(w.requests[p].lines) == [] then EndRequest(w, p)
    else if |ids| != |Deliverables(w.requests[p].lines)| || !FreshGrants(w, ids) then w
    else EndRequest(IssueGrants(w, w.requests[p].order, w.requests[p].lines, ids), p)
  }

  // ---------------------------------------------------------------- the queue

  function DoReadBatch(w: World, p: Pid, ids: seq<JobId>): World {
    if p in w.workers || !IsBatch(w.db.jobs, w.now, ids) then w
    else SetWorker(w, p, Reading(ids))
  }

  /** The pass goes on only if the update hit as many rows as it asked for. */
  function DoClaim(w: World, p: Pid): World {
    if p !in w.workers || !w.workers[p].Reading? then w
    else
      var ids := w.workers[p].ids;
      var hit := Claimable(w.db.jobs, ids);
      var w1 := w.(db := w.db.(jobs := SetProcessing(w.db.jobs, hit)));
      if |hit| == |ids|
      then SetWorker(w1, p, Idle(ids)).(owner := w.owner + map j | j in ids :: p)
      else w1.(workers := Drop(w.workers, p))
  }

  function DoBegin(w: World, p: Pid): World {
    if p !in w.workers || !w.workers[p].Idle? then w
    else
      var q := w.workers[p].queue;
      if q == [] then w.(workers := Drop(w.workers, p))
      else SetWorker(w, p, Running(q[0], Started, q[1..])).(
             executions := w.executions[q[0] := if q[0] in w.executions then w.executions[q[0]] + 1 else 1])
  }

  /** execute reads the order first; a missing order throws. */
  function DoLoad(w: World, p: Pid): World {
    if p !in w.workers || !w.workers[p].Running? || !w.workers[p].stage.Started? then w
    else
      var Running(j, _, q) := w.workers[p];
      if j !in w.db.jobs then SetWorker(w, p, Raised(j, q))
      else if w.db.jobs[j].kind == SEND_CONTACT_MESSAGE then SetWorker(w, p, Running(j, Loaded([]), q))
      else if w.db.jobs[j].orderId.None? || w.db.jobs[j].orderId.value !in w.db.orders
      then SetWorker(w, p, Raised(j, q))
      else SetWorker(w, p, Running(j, Loaded(w.db.orders[w.db.jobs[j].orderId.value].lines), q))
  }

  /** The emission inside DELIVER_DIGITAL; nothing to deliver is an error. */
  function DoIssueLinks(w: World, p: Pid, ids: seq<GrantId>): World {
    if p !in w.workers || !w.workers[p].Running? || !w.workers[p].stage.Loaded? then w
    else
      var Running(j, Loaded(lines), q) := w.workers[p];
      if j !in w.db.jobs || w.db.jobs[j].kind != DELIVER_DIGITAL || w.db.jobs[j].orderId.None? then w
      else if Deliverables(lines) == [] then SetWorker(w, p, Raised(j, q))
      else if |ids| != |Deliverables(lines)| || !FreshGrants(w, ids) then w
      else SetWorker(IssueGrants(w, w.db.jobs[j].orderId.value, lines, ids), p, Running(j, Linked(|ids|), q))
  }

  /** The mail went out. What only sends mail is then finished. */
  function DoSendMail(w: World, p: Pid): World {
    if p !in w.workers || !w.workers[p].Running? || w.workers[p].job !in w.db.jobs then w
    else
      var Running(j, stage, q) := w.workers[p];
      match w.db.jobs[j].kind
      case FULFILL_ORDER => if stage.Loaded? then SetWorker(w, p, Running(j, Mailed, q)) else w
      case DELIVER_DIGITAL => if stage.Linked? then SetWorker(w, p, Running(j, Mailed, q)) else w
      case _ => if stage.Loaded? then SetWorker(w, p, Finished(j, q)) else w
  }

  function DoSubmit(w: World, p: Pid): World {
    if p !in w.workers || !w.workers[p].Running? || !w.workers[p].stage.Mailed? then w
    else
      var Running(j, _, q) := w.workers[p];
      if j !in w.db.jobs || !IsDelivery(w.db.jobs[j].kind) || w.db.jobs[j].orderId.None?
         || w.db.jobs[j].orderId.value !in w.db.orders then w
      else
        var o := w.db.jobs[j].orderId.value;
        SetWorker(w.(db := SetOrder(w.db, o, SubmittedRow(w.db.orders[o], w.db.jobs[j].kind, w.now))),
                  p, Finished(j, q))
  }

  /** Anything inside process' try may throw, the write of DONE included. */
  function DoThrow(w: World, p: Pid): World {
    if p !in w.workers || !(w.workers[p].Running? || w.workers[p].Finished?) then w
    else SetWorker(w, p, Raised(w.workers[p].job, w.workers[p].queue))
  }

  function DoWriteDone(w: World, p: Pid): World {
    if p !in w.workers || !w.workers[p].Finished? || w.workers[p].job !in w.db.jobs then w
    else
      var Finished(j, q) := w.workers[p];
      SetWorker(w.(db := w.db.(jobs := w.db.jobs[j := Completed(w.db.jobs[j], w.now)])), p, Idle(q))
  }

  /** recordFailure reads the attempts in one call and writes them in another. */
  function DoReadAttempts(w: World, p: Pid): World {
    if p !in w.workers || !w.workers[p].Raised? then w
    else
      var Raised(j, q) := w.workers[p];
      if j !in w.db.jobs then w.(workers := Drop(w.workers, p))
      else SetWorker(w, p, Counted(j, w.db.jobs[j].attempts, w.db.jobs[j].maxAttempts, q))
  }

  function DoWriteFailure(w: World, p: Pid, random: real): World {
    if p !in w.workers || !w.workers[p].Counted? || !(0.0 <= random < 1.0) then w
    else
      var Counted(j, a, max, q) := w.workers[p];
      if j !in w.db.jobs then w.(workers := Drop(w.workers, p))
      else
        var row := FailedOnce(w.db.jobs[j], a, max, w.now + BackoffMs(a + 1, random));
        var w1 := w.(db := w.db.(jobs := w.db.jobs[j := row]));
        if row.status == FAILED && row.orderId.Some?
        then SetWorker(w1, p, Escalating(row.orderId.value, q))
        else SetWorker(w1, p, Idle(q))
  }

  function DoEscalate(w: World, p: Pid): World {
    if p !in w.workers || !w.workers[p].Escalating? then w
    else
      var Escalating(o, q) := w.workers[p];
      if o !in w.db.orders then w.(workers := Drop(w.workers, p))
      else SetWorker(w.(db := SetOrder(w.db, o, w.db.orders[o].(status := NEEDS_REVIEW))), p, Idle(q))
  }

  // ---------------------------------------------------------------- downloads

  function DoReadGrant(w: World, p: Pid, g: GrantId): World {
    if p in w.downloads || !Downloadable(w.db, g, w.now) then w
    else w.(downloads := w.downloads[p := GrantRead(g, w.db.grants[g].maxDownloads)])
  }

  function DoCountUse(w: World, p: Pid): World {
    if p !in w.downloads || !w.downloads[p].GrantRead? then w
    else
      var GrantRead(g, max) := w.downloads[p];
      if CanCount(w.db.grants, g, max)
      then w.(db := w.db.(grants := CountDownload(w.db.grants, g)), downloads := w.downloads[p := Signing(g)])
      else w.(downloads := Drop(w.downloads, p))
  }

  function DoHandOut(w: World, p: Pid): World {
    if p !in w.downloads || !w.downloads[p].Signing? then w
    else
      var g := w.downloads[p].grant;
      w.(downloads := Drop(w.downloads, p),
         handed := w.handed[g := if g in w.handed then w.handed[g] + 1 else 1])
  }

  // ---------------------------------------------------------------- the machine

  /** Checkout, Stripe's events and the two commits they lead to. */
  predicate IsPaymentStep(s: Step) {
    || s.Tick? || s.AddProduct? || s.AddVariant? || s.Checkout? || s.ReceiveEvent? || s.DispatchEvent?
    || s.ReconcilePaid? || s.ReconcileExpired? || s.ReconcileNoSession? || s.PaymentCommit? || s.RefundCommit?
  }

  function ApplyPayment(w: World, s: Step): World
    requires IsPaymentStep(s)
  {
    match s
    case Tick(t) => if t >= w.now then w.(now := t) else w
    case AddProduct(x) => w.(db := w.db.(products := w.db.products + {x}))
    case AddVariant(v, x) =>
      if x in w.db.products && v !in w.db.variants then w.(db := w.db.(variants := w.db.variants[v := x])) else w
    case Checkout(o, lines, email) => DoCheckout(w, o, lines, email)
    case ReceiveEvent(p, e, payload) => DoReceive(w, p, e, payload)
    case DispatchEvent(p) => DoDispatch(w, p)
    case ReconcilePaid(p, o, intent) => if p in w.requests then w else ReadPayment(w, p, o, intent)
    case ReconcileExpired(o) => w.(db := ExpireSession(w.db, o))
    case ReconcileNoSession(o) => w.(db := CancelUnpaid(w.db, o))
    case PaymentCommit(p, j1, j2) => DoPaymentCommit(w, p, j1, j2)
    case RefundCommit(p) => DoRefundCommit(w, p)
  }

  /** The purges, the contact form and the retry from the panel. */
  predicate IsUpkeepStep(s: Step) {
    || s.PurgeUnpaid? || s.PurgeJobs? || s.EnqueueContact? || s.CheckRetry? || s.RequeueRetry? || s.MoveRetry?
  }

  function ApplyUpkeep(w: World, s: Step): World
    requires IsUpkeepStep(s)
  {
    match s
    case PurgeUnpaid => DoPurgeUnpaid(w)
    case PurgeJobs => w.(db := w.db.(jobs := PurgeDone(w.db.jobs, Before(w.now, DIAS_RETENCION_TRABAJOS_HECHOS))))
    case EnqueueContact(j, ref) =>
      if FreshJob(w, j) then NewJobs(w, Enqueue(w.db.jobs, j, SEND_CONTACT_MESSAGE, ref, None, w.now)) else w
    case CheckRetry(p, o) => DoCheckRetry(w, p, o)
    case RequeueRetry(p) => DoRequeueRetry(w, p)
    case MoveRetry(p) => DoMoveRetry(w, p)
  }

  /** Deletions, resends, and requests that die. */
  predicate IsAdminStep(s: Step) {
    || s.CheckDeletion? || s.CommitDeletion? || s.CheckVariant? || s.CommitVariant? || s.ReadResend? || s.IssueResend?
    || s.CrashRequest?
  }

  function ApplyAdmin(w: World, s: Step): World
    requires IsAdminStep(s)
  {
    match s
    case CheckDeletion(p, x) => DoCheckDeletion(w, p, x)
    case CommitDeletion(p) => DoCommitDeletion(w, p)
    case CheckVariant(p, v) => DoCheckVariant(w, p, v)
    case CommitVariant(p) => DoCommitVariant(w, p)
    case ReadResend(p, o, email) => DoReadResend(w, p, o, email)
    case IssueResend(p, ids) => DoIssueResend(w, p, ids)
    case CrashRequest(p) => EndRequest(w, p)
  }

  /** Downloads. */
  predicate IsDownloadStep(s: Step) {
    s.ReadGrant? || s.CountUse? || s.HandOut? || s.CrashDownload?
  }

  function ApplyDownload(w: World, s: Step): World
    requires IsDownloadStep(s)
  {
    match s
    case ReadGrant(p, g) => DoReadGrant(w, p, g)
    case CountUse(p) => DoCountUse(w, p)
    case HandOut(p) => DoHandOut(w, p)
    case CrashDownload(p) => w.(downloads := Drop(w.downloads, p))
  }

  /** The passes over the queue. */
  predicate IsQueueStep(s: Step) {
    || s.ReadBatch? || s.ClaimBatch? || s.BeginJob? || s.LoadOrder? || s.IssueLinks? || s.SendMail? || s.Submit?
    || s.Throw? || s.WriteDone? || s.ReadAttempts? || s.WriteFailure? || s.Escalate? || s.CrashWorker?
  }

  function ApplyQueue(w: World, s: Step): World
    requires IsQueueStep(s)
  {
    match s
    case ReadBatch(p, ids) => DoReadBatch(w, p, ids)
    case ClaimBatch(p) => DoClaim(w, p)
    case BeginJob(p) => DoBegin(w, p)
    case LoadOrder(p) => DoLoad(w, p)
    case IssueLinks(p, ids) => DoIssueLinks(w, p, ids)
    case SendMail(p) => DoSendMail(w, p)
    case Submit(p) => DoSubmit(w, p)
    case Throw(p) => DoThrow(w, p)
    case WriteDone(p) => DoWriteDone(w, p)
    case ReadAttempts(p) => DoReadAttempts(w, p)
    case WriteFailure(p, r) => DoWriteFailure(w, p, r)
    case Escalate(p) => DoEscalate(w, p)
    case CrashWorker(p) => w.(workers := Drop(w.workers, p))
  }

  function Apply(w: World, s: Step): World {
    if IsPaymentStep(s) then ApplyPayment(w, s)
    else if IsUpkeepStep(s) then ApplyUpkeep(w, s)
    else if IsAdminStep(s) then ApplyAdmin(w, s)
    else if IsDownloadStep(s) then ApplyDownload(w, s)
    else ApplyQueue(w, s)
  }

  /** Where a run of steps ends. */
  function Run(w: World, steps: seq<Step>): World {
    if steps == [] then w else Apply(Run(w, steps[..|steps|-1]), steps[|steps|-1])
  }
}
