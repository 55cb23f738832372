/**
 * What the world outside has seen of a delivery before the shop says it was made.
 *
 * A mail leaves no trace in the tables. It is recorded here along the run, named by
 * the job that asked for it, and every order that says it was submitted, and every
 * job that says it is done, turns out to have its mail among them; a download has
 * besides a link for each of its files. Most steps change no row and no pass that
 * says so; the four that do are followed one by one.
 */
module MailTrail {
  import opened Prelude
  import opened Store
  import opened Protocol
  import opened Invariant
  import opened GrantProof
  import opened OrderProof
  import opened WorkerSteps
  import opened ProtocolTheorems
  import Backoff

  /** The job that asked for it: its kind and what it is about. */
  type Mail = (JobKind, nat)

  /** A pass has come to its mail: a download is announced once its links exist, anything else at once. */
  predicate Sends(w: World, p: Pid) {
    && p in w.workers && w.workers[p].Running? && w.workers[p].job in w.db.jobs
    && (if w.db.jobs[w.workers[p].job].kind == DELIVER_DIGITAL
        then w.workers[p].stage.Linked? else w.workers[p].stage.Loaded?)
  }

  function InHandKey(w: World, p: Pid): Mail
    requires Sends(w, p)
  {
    (w.db.jobs[w.workers[p].job].kind, w.db.jobs[w.workers[p].job].ref)
  }

  /** The mail a step sends, if it sends one. */
  function Sent(w: World, s: Step): set<Mail> {
    if s.SendMail? && Sends(w, s.p) then {InHandKey(w, s.p)} else {}
  }

  /** Every mail of a run that starts in an empty shop. */
  function Mails(steps: seq<Step>): set<Mail> {
    if steps == [] then {}
    else
      var before := steps[..|steps|-1];
      Mails(before) + Sent(Run(INIT, before), steps[|steps|-1])
  }

  /** Each file of this order has been given a link. */
  ghost predicate AllLinked(orders: map<OrderId, Order>, grants: map<GrantId, Grant>, o: OrderId) {
    o in orders ==> forall i :: 0 <= i < |orders[o].lines| && Deliverable(orders[o].lines[i]) ==> HasLink(grants, o, i)
  }

  predicate HasLink(grants: map<GrantId, Grant>, o: OrderId, i: nat) {
    exists g :: g in grants && grants[g].item == ItemKey(o, i)
  }

  /** The links are out, or the mail is. */
  predicate Claims(worker: Worker) {
    (worker.Running? && (worker.stage.Linked? || worker.stage.Mailed?)) || worker.Finished?
  }

  /** What this pass has got to is true of the world. */
  ghost predicate Honest(worker: Worker, orders: map<OrderId, Order>, jobs: map<JobId, Job>,
                         grants: map<GrantId, Grant>, mails: set<Mail>) {
    Claims(worker) && worker.job in jobs ==>
      var job := jobs[worker.job];
      && (worker.Finished? || worker.stage.Mailed? ==> (job.kind, job.ref) in mails)
      && (job.kind == DELIVER_DIGITAL ==> AllLinked(orders, grants, job.ref))
  }

  ghost predicate SubmittedOk(orders: map<OrderId, Order>, grants: map<GrantId, Grant>, mails: set<Mail>) {
    forall o :: o in orders && orders[o].submittedAt.Some? ==>
      && (DeliveryKind(orders[o].lines), o) in mails
      && (DeliveryKind(orders[o].lines) == DELIVER_DIGITAL ==> AllLinked(orders, grants, o))
  }

  ghost predicate DoneOk(jobs: map<JobId, Job>, mails: set<Mail>) {
    forall j :: j in jobs && jobs[j].status == DONE ==> (jobs[j].kind, jobs[j].ref) in mails
  }

  ghost predicate PassesHonest(w: World, mails: set<Mail>) {
    forall p :: p in w.workers ==> Honest(w.workers[p], w.db.orders, w.db.jobs, w.db.grants, mails)
  }

  ghost predicate Trail(w: World, mails: set<Mail>) {
    SubmittedOk(w.db.orders, w.db.grants, mails) && DoneOk(w.db.jobs, mails) && PassesHonest(w, mails)
  }

  // ---------------------------------------------------------------- steps that say nothing new

  ghost predicate NoneSubmitted(before: map<OrderId, Order>, after: map<OrderId, Order>) {
    forall o :: o in after && after[o].submittedAt.Some? ==> o in before && before[o].submittedAt.Some?
  }

  /** No job is done, and none turns into another. */
  ghost predicate NoneDone(before: map<JobId, Job>, after: map<JobId, Job>) {
    && (forall j :: j in after && after[j].status == DONE ==> j in before && before[j].status == DONE)
    && SameNames(before, after)
  }

  ghost predicate SameNames(before: map<JobId, Job>, after: map<JobId, Job>) {
    forall j :: j in after && j in before ==> after[j].kind == before[j].kind && after[j].ref == before[j].ref
  }

  ghost predicate NoneClaims(before: map<Pid, Worker>, after: map<Pid, Worker>) {
    forall p :: p in after && Claims(after[p]) ==> p in before && before[p] == after[p]
  }

  ghost predicate Silent(w: World, w': World) {
    && NoneSubmitted(w.db.orders, w'.db.orders)
    && NoneDone(w.db.jobs, w'.db.jobs)
    && NoneClaims(w.workers, w'.workers)
  }

  lemma LinksStay(before: World, after: World, o: OrderId)
    requires OrdersLater(before.db.orders, after.db.orders) && GrantsLater(before.db.grants, after.db.grants)
    requires AllLinked(before.db.orders, before.db.grants, o) && o in before.db.orders
    ensures AllLinked(after.db.orders, after.db.grants, o)
  {
    if o in after.db.orders {
      forall i | 0 <= i < |after.db.orders[o].lines| && Deliverable(after.db.orders[o].lines[i])
        ensures HasLink(after.db.grants, o, i)
      {
        assert HasLink(before.db.grants, o, i);
        var g :| g in before.db.grants && before.db.grants[g].item == ItemKey(o, i);
        assert g in after.db.grants;
      }
    }
  }

  lemma SubmittedStay(w: World, w': World, mails: set<Mail>)
    requires SubmittedOk(w.db.orders, w.db.grants, mails) && NoneSubmitted(w.db.orders, w'.db.orders)
    requires OrdersLater(w.db.orders, w'.db.orders) && GrantsLater(w.db.grants, w'.db.grants)
    ensures SubmittedOk(w'.db.orders, w'.db.grants, mails)
  {
    hide AllLinked, GrantsLater, DeliveryKind;
    forall o | o in w'.db.orders && w'.db.orders[o].submittedAt.Some?
      ensures (DeliveryKind(w'.db.orders[o].lines), o) in mails
      ensures DeliveryKind(w'.db.orders[o].lines) == DELIVER_DIGITAL ==> AllLinked(w'.db.orders, w'.db.grants, o)
    {
      assert w'.db.orders[o].lines == w.db.orders[o].lines;
      if DeliveryKind(w'.db.orders[o].lines) == DELIVER_DIGITAL {
        LinksStay(w, w', o);
      }
    }
  }

  /** A pass that did not move is as honest as it was. */
  lemma HonestStays(w: World, w': World, p: Pid, mails: set<Mail>)
    requires Inv(w) && OrdersLater(w.db.orders, w'.db.orders) && GrantsLater(w.db.grants, w'.db.grants)
    requires SameNames(w.db.jobs, w'.db.jobs)
    requires p in w.workers && Honest(w.workers[p], w.db.orders, w.db.jobs, w.db.grants, mails)
    ensures Honest(w.workers[p], w'.db.orders, w'.db.jobs, w'.db.grants, mails)
  {
    hide Inv, AllLinked, OrdersLater, GrantsLater;
    if Claims(w.workers[p]) {
      HandIsThere(w, p);
      var job := w.db.jobs[w.workers[p].job];
      if job.kind == DELIVER_DIGITAL {
        LinksStay(w, w', job.ref);
      }
    }
  }

  /** The job a pass has in hand is there, and so is the order it delivers. */
  lemma HandIsThere(w: World, p: Pid)
    requires Inv(w) && p in w.workers && Claims(w.workers[p])
    ensures w.workers[p].job in w.db.jobs
    ensures IsDelivery(w.db.jobs[w.workers[p].job].kind) ==>
              var job := w.db.jobs[w.workers[p].job];
              && job.orderId == Some(job.ref) && IsPaid(w.db.orders, job.ref)
              && job.kind == DeliveryKind(w.db.orders[job.ref].lines)
  {
    hide OrderInv, GrantInv, EventsOk, Covered, KeysUnique, CountsOk, JobRowOk, WorkerOk, DeliveryKind;
    assert WorkerOk(p, w.workers[p], w.db.orders, w.db.jobs, w.owner, w.executions, w.requeues);
    InHandThere(p, w.workers[p], w.db.orders, w.db.jobs, w.owner, w.executions, w.requeues);
    DeliveryRow(w.db.orders, w.db.jobs[w.workers[p].job]);
  }

  lemma InHandThere(p: Pid, worker: Worker, orders: map<OrderId, Order>, jobs: map<JobId, Job>,
                    owner: map<JobId, Pid>, executions: map<JobId, nat>, requeues: map<JobId, nat>)
    requires WorkerOk(p, worker, orders, jobs, owner, executions, requeues) && Claims(worker)
    ensures worker.job in jobs
  {
    hide StageOk, Owned, IsPaid;
  }

  lemma DeliveryRow(orders: map<OrderId, Order>, job: Job)
    requires JobRowOk(orders, job)
    ensures IsDelivery(job.kind) ==>
              job.orderId == Some(job.ref) && IsPaid(orders, job.ref) && job.kind == DeliveryKind(orders[job.ref].lines)
  {
    hide DeliveryKind;
  }

  /** A silent step leaves the trail as good as it was. */
  lemma SilentTrail(w: World, w': World, mails: set<Mail>)
    requires Inv(w) && Trail(w, mails) && Silent(w, w')
    requires OrdersLater(w.db.orders, w'.db.orders) && GrantsLater(w.db.grants, w'.db.grants)
    ensures Trail(w', mails)
  {
    hide Inv, SubmittedOk, Honest, OrdersLater, GrantsLater;
    SubmittedStay(w, w', mails);
    forall p | p in w'.workers
      ensures Honest(w'.workers[p], w'.db.orders, w'.db.jobs, w'.db.grants, mails)
    {
      if Claims(w'.workers[p]) {
        HonestStays(w, w', p, mails);
      } else {
        SaysNothing(w', p, mails);
      }
    }
  }

  lemma SaysNothing(w: World, p: Pid, mails: set<Mail>)
    requires p in w.workers && !Claims(w.workers[p])
    ensures Honest(w.workers[p], w.db.orders, w.db.jobs, w.db.grants, mails)
  {
  }

  // ---------------------------------------------------------------- what silent steps are made of

  lemma SilentSame(w: World, w': World)
    requires w'.db.orders == w.db.orders && w'.db.jobs == w.db.jobs && w'.workers == w.workers
    ensures Silent(w, w')
  {
  }

  lemma SilentTables(w: World, w': World)
    requires NoneSubmitted(w.db.orders, w'.db.orders) && NoneDone(w.db.jobs, w'.db.jobs) && w'.workers == w.workers
    ensures Silent(w, w')
  {
  }

  lemma SilentRow(w: World, w': World, x: OrderId, row: Order)
    requires w'.db.orders == w.db.orders[x := row] && w'.db.jobs == w.db.jobs && w'.workers == w.workers
    requires row.submittedAt.None? || (x in w.db.orders && w.db.orders[x].submittedAt == row.submittedAt)
    ensures Silent(w, w')
  {
  }

  /** A row of the queue is rewritten, not to DONE, and the pass goes on to something else. */
  lemma SilentHand(w: World, w': World, p: Pid, next: Worker)
    requires w'.workers == w.workers[p := next] && !Claims(next)
    requires NoneSubmitted(w.db.orders, w'.db.orders) && NoneDone(w.db.jobs, w'.db.jobs)
    ensures Silent(w, w')
  {
  }

  lemma SilentDrop(w: World, w': World, p: Pid)
    requires w'.workers == Drop(w.workers, p)
    requires NoneSubmitted(w.db.orders, w'.db.orders) && NoneDone(w.db.jobs, w'.db.jobs)
    ensures Silent(w, w')
  {
  }

  lemma Unwritten(orders: map<OrderId, Order>, jobs: map<JobId, Job>)
    ensures NoneSubmitted(orders, orders) && NoneDone(jobs, jobs)
  {
  }

  // ---------------------------------------------------------------- payments

  lemma CheckoutSilent(w: World, x: OrderId, lines: seq<Line>, email: string)
    ensures Silent(w, DoCheckout(w, x, lines, email))
  {
    hide Silent, Sellable;
    SilentSame(w, w);
    var w' := DoCheckout(w, x, lines, email);
    if w' != w {
      SilentRow(w, w', x, Order(PENDING_PAYMENT, None, None, None, w.now, email, lines));
    }
  }

  lemma ExpireSilent(w: World, x: OrderId)
    ensures Silent(w, w.(db := ExpireSession(w.db, x)))
  {
    hide Silent;
    SilentSame(w, w);
    if x in w.db.orders {
      SilentRow(w, w.(db := SetOrder(w.db, x, w.db.orders[x].(status := CANCELLED))), x,
                w.db.orders[x].(status := CANCELLED));
    }
  }

  lemma CancelSilent(w: World, x: OrderId)
    ensures Silent(w, w.(db := CancelUnpaid(w.db, x)))
  {
    hide Silent, NeverCharged;
    SilentSame(w, w);
    if x in w.db.orders {
      SilentRow(w, w.(db := SetOrder(w.db, x, w.db.orders[x].(status := CANCELLED))), x,
                w.db.orders[x].(status := CANCELLED));
    }
  }

  /** A request that ends, or waits for its next call, changes no table and no pass. */
  lemma RequestSilent(w: World, p: Pid)
    ensures Silent(w, w) && Silent(w, EndRequest(w, p))
    ensures forall w': World :: w'.db == w.db && w'.workers == w.workers ==> Silent(w, w')
  {
    hide Drop;
  }

  lemma ReadsSilent(w: World, p: Pid, x: OrderId, intent: IntentId)
    ensures Silent(w, ReadPayment(w, p, x, intent))
  {
    hide Silent, EndRequest;
    RequestSilent(w, p);
  }

  lemma ReadRefundSilent(w: World, p: Pid, x: OrderId, total: bool)
    ensures Silent(w, ReadRefund(w, p, x, total))
  {
    hide Silent, EndRequest;
    RequestSilent(w, p);
  }

  lemma DispatchSilent(w: World, p: Pid)
    ensures Silent(w, DoDispatch(w, p))
  {
    hide Silent, ExpireSession, ReadPayment, ReadRefund, Drop;
    SilentSame(w, w);
    if p in w.requests && w.requests[p].EventClaimed? {
      var e := w.requests[p].event;
      var w1 := w.(requests := Drop(w.requests, p),
                   dispatched := w.dispatched[e := if e in w.dispatched then w.dispatched[e] + 1 else 1]);
      SilentSame(w, w1);
      match w.requests[p].payload
      case PaymentSucceeded(x, intent) =>
        ReadsSilent(w1, p, x, intent);
        SameStart(w, w1, ReadPayment(w1, p, x, intent));
      case SessionExpired(x) =>
        ExpireSilent(w1, x);
        SameStart(w, w1, w1.(db := ExpireSession(w1.db, x)));
      case ChargeRefunded(x, total) =>
        ReadRefundSilent(w1, p, x, total);
        SameStart(w, w1, ReadRefund(w1, p, x, total));
      case Other =>
    }
  }

  lemma SameStart(w: World, w1: World, w': World)
    requires w1.db == w.db && w1.workers == w.workers && Silent(w1, w')
    ensures Silent(w, w')
  {
  }

  lemma EnqueueSilent(jobs: map<JobId, Job>, id: JobId, kind: JobKind, ref: nat, x: Option<OrderId>, now: Time)
    requires id !in jobs
    ensures NoneDone(jobs, Enqueue(jobs, id, kind, ref, x, now))
    ensures forall j :: j in Enqueue(jobs, id, kind, ref, x, now) ==> j in jobs || j == id
  {
  }

  lemma NoneDoneTwice(a: map<JobId, Job>, b: map<JobId, Job>, c: map<JobId, Job>)
    requires NoneDone(a, b) && NoneDone(b, c) && forall j :: j in a ==> j in b
    ensures NoneDone(a, c)
  {
  }

  /** Tables written, then the request over. */
  lemma WrittenThenOver(w: World, w1: World, p: Pid)
    requires Silent(w, w1)
    ensures Silent(w, EndRequest(w1, p))
  {
    hide Drop, NoneSubmitted, NoneDone, NoneClaims;
  }

  lemma PaidTables(w: World, x: OrderId, intent: IntentId, lines: seq<Line>, j1: JobId, j2: JobId)
    requires FreshJob(w, j1) && FreshJob(w, j2) && j1 != j2
    requires CommitPayment(w.db, x, intent, lines, j1, j2, w.now).Some?
    ensures var db1 := CommitPayment(w.db, x, intent, lines, j1, j2, w.now).value;
            NoneSubmitted(w.db.orders, db1.orders) && NoneDone(w.db.jobs, db1.jobs)
  {
    var jobs1 := Enqueue(w.db.jobs, j1, SEND_ORDER_CONFIRMATION, x, Some(x), w.now);
    EnqueueSilent(w.db.jobs, j1, SEND_ORDER_CONFIRMATION, x, Some(x), w.now);
    EnqueueSilent(jobs1, j2, DeliveryKind(lines), x, Some(x), w.now);
    NoneDoneTwice(w.db.jobs, jobs1, Enqueue(jobs1, j2, DeliveryKind(lines), x, Some(x), w.now));
    hide Enqueue, DeliveryKind, NoneDone, IntentFree;
  }

  lemma CommitSilent(w: World, p: Pid, j1: JobId, j2: JobId)
    ensures Silent(w, DoPaymentCommit(w, p, j1, j2))
  {
    hide Silent, CommitPayment, NoneDone, NoneSubmitted, EndRequest, NewJobs;
    RequestSilent(w, p);
    if p in w.requests && w.requests[p].PaymentRead? && FreshJob(w, j1) && FreshJob(w, j2) && j1 != j2 {
      var PaymentRead(x, intent, lines) := w.requests[p];
      var result := CommitPayment(w.db, x, intent, lines, j1, j2, w.now);
      if result.Some? {
        PaidTables(w, x, intent, lines, j1, j2);
        BornJobs(w, result.value);
        WrittenThenOver(w, NewJobs(w, result.value.jobs).(db := result.value), p);
      }
    }
    hide FreshJob;
  }

  lemma BornJobs(w: World, db: Db)
    requires NoneSubmitted(w.db.orders, db.orders) && NoneDone(w.db.jobs, db.jobs)
    ensures Silent(w, NewJobs(w, db.jobs).(db := db))
  {
    hide NoneSubmitted, NoneDone, Silent;
    SilentTables(w, NewJobs(w, db.jobs).(db := db));
  }

  lemma RefundSilent(w: World, p: Pid)
    ensures Silent(w, DoRefundCommit(w, p))
  {
    hide Silent, RevokeLive, EndRequest;
    RequestSilent(w, p);
    if p in w.requests && w.requests[p].RefundRead? && w.requests[p].order in w.db.orders {
      var x := w.requests[p].order;
      var w1 := w.(db := CommitRefund(w.db, x, w.now).value);
      SilentRow(w, w1, x, w.db.orders[x].(status := REFUNDED));
      hide CommitRefund;
      WrittenThenOver(w, w1, p);
    }
  }

  /** The clock and the catalogue. */
  lemma ShelfSilent(w: World, s: Step)
    requires s.Tick? || s.AddProduct? || s.AddVariant?
    ensures Silent(w, ApplyPayment(w, s))
  {
    hide Silent;
    RequestSilent(w, 0);
    match s
    case Tick(t) =>
    case AddProduct(x) => SilentSame(w, w.(db := w.db.(products := w.db.products + {x})));
    case AddVariant(v, x) => SilentSame(w, w.(db := w.db.(variants := w.db.variants[v := x])));
  }

  lemma PaymentSilent(w: World, s: Step)
    requires IsPaymentStep(s)
    ensures Silent(w, ApplyPayment(w, s))
  {
    hide Silent, DoCheckout, DoReceive, DoDispatch, DoPaymentCommit, DoRefundCommit, ReadPayment;
    hide ExpireSession, CancelUnpaid;
    if s.Tick? || s.AddProduct? || s.AddVariant? {
      ShelfSilent(w, s);
    } else {
      RequestSilent(w, 0);
      match s
      case Checkout(x, lines, email) => CheckoutSilent(w, x, lines, email);
      case ReceiveEvent(p, e, payload) => ReceiveSilent(w, p, e, payload);
      case DispatchEvent(p) => DispatchSilent(w, p);
      case ReconcilePaid(p, x, intent) => ReadsSilent(w, p, x, intent);
      case ReconcileExpired(x) => ExpireSilent(w, x);
      case ReconcileNoSession(x) => CancelSilent(w, x);
      case PaymentCommit(p, j1, j2) => CommitSilent(w, p, j1, j2);
      case RefundCommit(p) => RefundSilent(w, p);
    }
  }

  lemma ReceiveSilent(w: World, p: Pid, e: EventId, payload: Payload)
    ensures Silent(w, DoReceive(w, p, e, payload))
  {
    hide Silent;
    SilentSame(w, DoReceive(w, p, e, payload));
  }

  // ---------------------------------------------------------------- upkeep, administration and downloads

  lemma DeletedSilent(w: World, w': World, victims: set<OrderId>)
    requires DeleteOrders(w.db, victims).Some? && w'.workers == w.workers
    requires w'.db.orders == DeleteOrders(w.db, victims).value.orders
    requires w'.db.jobs == DeleteOrders(w.db, victims).value.jobs
    ensures Silent(w, w')
  {
  }

  lemma PurgeSilent(w: World)
    ensures Silent(w, DoPurgeUnpaid(w))
  {
    hide Silent;
    SilentSame(w, w);
    var victims := StaleUnpaid(w.db, Before(w.now, DIAS_RETENCION_SIN_COBRO));
    hide StaleUnpaid;
    if DeleteOrders(w.db, victims).Some? {
      DeletedSilent(w, DoPurgeUnpaid(w), victims);
    }
  }

  lemma PurgeJobsSilent(w: World, limit: Time)
    ensures Silent(w, w.(db := w.db.(jobs := PurgeDone(w.db.jobs, limit))))
  {
  }

  lemma ContactSilent(w: World, j: JobId, ref: nat)
    requires FreshJob(w, j)
    ensures Silent(w, NewJobs(w, Enqueue(w.db.jobs, j, SEND_CONTACT_MESSAGE, ref, None, w.now)))
  {
    EnqueueSilent(w.db.jobs, j, SEND_CONTACT_MESSAGE, ref, None, w.now);
    Unwritten(w.db.orders, w.db.jobs);
    hide Silent, Enqueue, NoneDone, NoneSubmitted;
    SilentTables(w, NewJobs(w, Enqueue(w.db.jobs, j, SEND_CONTACT_MESSAGE, ref, None, w.now)));
  }

  lemma RequeuedJobs(jobs: map<JobId, Job>, x: OrderId, now: Time)
    ensures NoneDone(jobs, RequeueFailed(jobs, x, now))
  {
  }

  lemma RequeueSilent(w: World, p: Pid)
    ensures Silent(w, DoRequeueRetry(w, p))
  {
    hide FailedOf, Silent, EndRequest, RequeueFailed, NoneDone, NoneSubmitted;
    RequestSilent(w, p);
    if p in w.requests && w.requests[p].RetryChecked? && FailedOf(w.db.jobs, w.requests[p].order) != {} {
      Unwritten(w.db.orders, w.db.jobs);
      RequeuedJobs(w.db.jobs, w.requests[p].order, w.now);
      var w' := DoRequeueRetry(w, p);
      assert w'.db == w.db.(jobs := RequeueFailed(w.db.jobs, w.requests[p].order, w.now)) && w'.workers == w.workers;
      hide DoRequeueRetry;
      SilentTables(w, w');
    }
  }

  lemma MoveSilent(w: World, p: Pid)
    ensures Silent(w, DoMoveRetry(w, p))
  {
    hide Silent, EndRequest;
    RequestSilent(w, p);
    if p in w.requests && w.requests[p].RetryRequeued? && w.requests[p].order in w.db.orders {
      var x := w.requests[p].order;
      var row := w.db.orders[x].(status := PAID);
      SilentRow(w, w.(db := SetOrder(w.db, x, row)), x, row);
      WrittenThenOver(w, w.(db := SetOrder(w.db, x, row)), p);
    }
  }

  lemma UpkeepSilent(w: World, s: Step)
    requires IsUpkeepStep(s)
    ensures Silent(w, ApplyUpkeep(w, s))
  {
    hide Silent, DoPurgeUnpaid, DoCheckRetry, DoRequeueRetry, DoMoveRetry, PurgeDone, Enqueue, FreshJob, NewJobs;
    SilentSame(w, w);
    match s
    case PurgeUnpaid => PurgeSilent(w);
    case PurgeJobs => PurgeJobsSilent(w, Before(w.now, DIAS_RETENCION_TRABAJOS_HECHOS));
    case EnqueueContact(j, ref) => if FreshJob(w, j) { ContactSilent(w, j, ref); }
    case CheckRetry(p, x) => CheckRetrySilent(w, p, x);
    case RequeueRetry(p) => RequeueSilent(w, p);
    case MoveRetry(p) => MoveSilent(w, p);
  }

  lemma CheckRetrySilent(w: World, p: Pid, x: OrderId)
    ensures Silent(w, DoCheckRetry(w, p, x))
  {
    hide Silent, EndRequest;
    RequestSilent(w, p);
  }

  lemma DeletionSilent(w: World, p: Pid)
    ensures Silent(w, DoCommitDeletion(w, p))
  {
    hide Silent, EndRequest, DeleteOrders, UnpaidOf, DropProduct;
    RequestSilent(w, p);
    if p in w.requests && w.requests[p].DeletionChecked? {
      var x := w.requests[p].product;
      if DeleteProduct(w.db, x).Some? {
        var w1 := w.(db := DeleteProduct(w.db, x).value);
        DroppedRest(DeleteOrders(w.db, UnpaidOf(w.db, x)).value, x);
        DeletedSilent(w, w1, UnpaidOf(w.db, x));
        hide DeleteProduct;
        WrittenThenOver(w, w1, p);
      }
    }
  }

  lemma DroppedRest(db: Db, x: ProductId)
    ensures DropProduct(db, x).Some? ==>
              DropProduct(db, x).value.orders == db.orders && DropProduct(db, x).value.jobs == db.jobs
  {
    hide RefersTo;
  }

  lemma VariantSilent(w: World, p: Pid)
    ensures Silent(w, DoCommitVariant(w, p))
  {
    hide Silent, EndRequest, VariantReferenced;
    RequestSilent(w, p);
    if p in w.requests && w.requests[p].VariantChecked? {
      var result := DeleteVariant(w.db, w.requests[p].variant);
      if result.Some? {
        var w1 := w.(db := result.value);
        SilentSame(w, w1);
        hide DeleteVariant;
        WrittenThenOver(w, w1, p);
      }
    }
  }

  lemma IssuedSilent(w: World, x: OrderId, lines: seq<Line>, ids: seq<GrantId>)
    requires |ids| == |Deliverables(lines)|
    ensures Silent(w, IssueGrants(w, x, lines, ids))
  {
    hide Silent, EmitLinks, Deliverables;
    SilentSame(w, IssueGrants(w, x, lines, ids));
  }

  lemma ResendSilent(w: World, p: Pid, ids: seq<GrantId>)
    ensures Silent(w, DoIssueResend(w, p, ids))
  {
    hide Silent, EndRequest, IssueGrants, FreshGrants, Deliverables;
    RequestSilent(w, p);
    if p in w.requests && w.requests[p].ResendRead? && |ids| == |Deliverables(w.requests[p].lines)| {
      var r := w.requests[p];
      IssuedSilent(w, r.order, r.lines, ids);
      WrittenThenOver(w, IssueGrants(w, r.order, r.lines, ids), p);
    }
  }

  lemma ChecksSilent(w: World, p: Pid, x: ProductId, v: VariantId)
    ensures Silent(w, DoCheckDeletion(w, p, x)) && Silent(w, DoCheckVariant(w, p, v))
  {
    hide Silent, HasSales, VariantReferenced, EndRequest;
    RequestSilent(w, p);
  }

  lemma ReadResendSilent(w: World, p: Pid, o: OrderId, email: string)
    ensures Silent(w, DoReadResend(w, p, o, email))
  {
    hide Silent, Purchased, EndRequest;
    RequestSilent(w, p);
  }

  lemma AdminSilent(w: World, s: Step)
    requires IsAdminStep(s)
    ensures Silent(w, ApplyAdmin(w, s))
  {
    hide Silent, DoCheckDeletion, DoCommitDeletion, DoCheckVariant, DoCommitVariant, DoReadResend, DoIssueResend;
    hide EndRequest;
    match s
    case CheckDeletion(p, x) => ChecksSilent(w, p, x, 0);
    case CommitDeletion(p) => DeletionSilent(w, p);
    case CheckVariant(p, v) => ChecksSilent(w, p, 0, v);
    case CommitVariant(p) => VariantSilent(w, p);
    case ReadResend(p, o, email) => ReadResendSilent(w, p, o, email);
    case IssueResend(p, ids) => ResendSilent(w, p, ids);
    case CrashRequest(p) => RequestSilent(w, p);
  }

  lemma ReadGrantSilent(w: World, p: Pid, g: GrantId)
    ensures Silent(w, DoReadGrant(w, p, g))
  {
    hide Silent, Downloadable;
    SilentSame(w, DoReadGrant(w, p, g));
  }

  lemma CountSilent(w: World, p: Pid)
    ensures Silent(w, DoCountUse(w, p))
  {
    hide Silent, CanCount, CountDownload, Drop;
    if p in w.downloads && w.downloads[p].GrantRead? {
      var GrantRead(g, max) := w.downloads[p];
      if CanCount(w.db.grants, g, max) {
        SilentSame(w, DoCountUse(w, p));
      } else {
        SilentSame(w, w.(downloads := Drop(w.downloads, p)));
      }
    } else {
      SilentSame(w, w);
    }
  }

  lemma HandOutSilent(w: World, p: Pid)
    ensures Silent(w, DoHandOut(w, p))
  {
    hide Silent, Drop;
    SilentSame(w, DoHandOut(w, p));
  }

  lemma DownloadSilent(w: World, s: Step)
    requires IsDownloadStep(s)
    ensures Silent(w, ApplyDownload(w, s))
  {
    hide Silent, DoReadGrant, DoCountUse, DoHandOut, Drop;
    match s
    case ReadGrant(p, g) => ReadGrantSilent(w, p, g);
    case CountUse(p) => CountSilent(w, p);
    case HandOut(p) => HandOutSilent(w, p);
    case CrashDownload(p) => SilentSame(w, w.(downloads := Drop(w.downloads, p)));
  }

  // ---------------------------------------------------------------- the queue

  lemma ReadBatchSilent(w: World, p: Pid, ids: seq<JobId>)
    ensures Silent(w, DoReadBatch(w, p, ids))
  {
    hide Silent, IsBatch;
    SilentSame(w, w);
    Unwritten(w.db.orders, w.db.jobs);
    SilentHand(w, SetWorker(w, p, Reading(ids)), p, Reading(ids));
  }

  lemma ClaimedJobs(jobs: map<JobId, Job>, hit: set<JobId>)
    ensures NoneDone(jobs, SetProcessing(jobs, hit))
  {
  }

  lemma ClaimOutcome(w: World, p: Pid)
    requires p in w.workers && w.workers[p].Reading?
    ensures var ids := w.workers[p].ids;
            var hit := Claimable(w.db.jobs, ids);
            && DoClaim(w, p).db == w.db.(jobs := SetProcessing(w.db.jobs, hit))
            && DoClaim(w, p).workers == if |hit| == |ids| then w.workers[p := Idle(ids)] else Drop(w.workers, p)
  {
    hide Claimable, SetProcessing, Drop, SetWorker;
    var ids := w.workers[p].ids;
    var hit := Claimable(w.db.jobs, ids);
    var w1 := w.(db := w.db.(jobs := SetProcessing(w.db.jobs, hit)));
    if |hit| == |ids| {
      SetOnly(w1, p, Idle(ids));
      assert DoClaim(w, p) == SetWorker(w1, p, Idle(ids)).(owner := w.owner + map j | j in ids :: p);
    } else {
      assert DoClaim(w, p) == w1.(workers := Drop(w.workers, p));
    }
  }

  lemma ClaimSilent(w: World, p: Pid)
    ensures Silent(w, DoClaim(w, p))
  {
    if p in w.workers && w.workers[p].Reading? {
      var ids := w.workers[p].ids;
      var hit := Claimable(w.db.jobs, ids);
      hide Silent, Claimable, SetProcessing, NoneDone, NoneSubmitted, Drop, DoClaim;
      ClaimOutcome(w, p);
      ClaimedJobs(w.db.jobs, hit);
      Unwritten(w.db.orders, w.db.jobs);
      if |hit| == |ids| {
        SilentHand(w, DoClaim(w, p), p, Idle(ids));
      } else {
        SilentDrop(w, DoClaim(w, p), p);
      }
    } else {
      SilentSame(w, w);
    }
  }

  lemma BeginSilent(w: World, p: Pid)
    ensures Silent(w, DoBegin(w, p))
  {
    hide Silent, NoneDone, NoneSubmitted, Drop;
    SilentSame(w, w);
    Unwritten(w.db.orders, w.db.jobs);
    if p in w.workers && w.workers[p].Idle? {
      var q := w.workers[p].queue;
      if q == [] {
        SilentDrop(w, DoBegin(w, p), p);
      } else {
        SilentHand(w, DoBegin(w, p), p, Running(q[0], Started, q[1..]));
      }
    }
  }

  /** A pass that only goes on, to a place that claims nothing. */
  lemma GoesOn(w: World, p: Pid, next: Worker)
    requires !Claims(next)
    ensures Silent(w, SetWorker(w, p, next))
  {
    hide Silent, NoneDone, NoneSubmitted;
    Unwritten(w.db.orders, w.db.jobs);
    SilentHand(w, SetWorker(w, p, next), p, next);
  }

  lemma GivesUp(w: World, p: Pid)
    ensures Silent(w, w.(workers := Drop(w.workers, p)))
  {
    hide Silent, NoneDone, NoneSubmitted, Drop;
    Unwritten(w.db.orders, w.db.jobs);
    SilentDrop(w, w.(workers := Drop(w.workers, p)), p);
  }

  lemma LoadSilent(w: World, p: Pid)
    ensures Silent(w, DoLoad(w, p))
  {
    hide Silent, SetWorker;
    SilentSame(w, w);
    if p in w.workers && w.workers[p].Running? && w.workers[p].stage.Started? {
      var Running(j, _, q) := w.workers[p];
      GoesOn(w, p, Raised(j, q));
      GoesOn(w, p, Running(j, Loaded([]), q));
      if j in w.db.jobs && w.db.jobs[j].orderId.Some? && w.db.jobs[j].orderId.value in w.db.orders {
        GoesOn(w, p, Running(j, Loaded(w.db.orders[w.db.jobs[j].orderId.value].lines), q));
      }
    }
  }

  lemma ThrowSilent(w: World, p: Pid)
    ensures Silent(w, DoThrow(w, p))
  {
    hide Silent, SetWorker;
    SilentSame(w, w);
    if p in w.workers && (w.workers[p].Running? || w.workers[p].Finished?) {
      GoesOn(w, p, Raised(w.workers[p].job, w.workers[p].queue));
    }
  }

  lemma AttemptsSilent(w: World, p: Pid)
    ensures Silent(w, DoReadAttempts(w, p))
  {
    hide Silent, SetWorker, Drop;
    SilentSame(w, w);
    GivesUp(w, p);
    if p in w.workers && w.workers[p].Raised? && w.workers[p].job in w.db.jobs {
      var Raised(j, q) := w.workers[p];
      GoesOn(w, p, Counted(j, w.db.jobs[j].attempts, w.db.jobs[j].maxAttempts, q));
    }
  }

  lemma FailedRow(jobs: map<JobId, Job>, j: JobId, a: nat, max: nat, at: Time)
    requires j in jobs
    ensures NoneDone(jobs, jobs[j := FailedOnce(jobs[j], a, max, at)])
  {
  }

  lemma FailureSilent(w: World, p: Pid, random: real)
    ensures Silent(w, DoWriteFailure(w, p, random))
  {
    hide Silent, Drop, NoneDone, NoneSubmitted, FailedOnce, Backoff.BackoffMs;
    SilentSame(w, w);
    GivesUp(w, p);
    if p in w.workers && w.workers[p].Counted? && 0.0 <= random < 1.0 && w.workers[p].job in w.db.jobs {
      var Counted(j, a, max, q) := w.workers[p];
      var at := w.now + Backoff.BackoffMs(a + 1, random);
      FailedRow(w.db.jobs, j, a, max, at);
      Unwritten(w.db.orders, w.db.jobs);
      var row := FailedOnce(w.db.jobs[j], a, max, at);
      var w1 := w.(db := w.db.(jobs := w.db.jobs[j := row]));
      SilentHand(w, SetWorker(w1, p, Idle(q)), p, Idle(q));
      if row.orderId.Some? {
        var next := Escalating(row.orderId.value, q);
        SilentHand(w, SetWorker(w1, p, next), p, next);
      }
    }
  }

  lemma RowWritten(orders: map<OrderId, Order>, x: OrderId, row: Order)
    requires x in orders && row.submittedAt == orders[x].submittedAt
    ensures NoneSubmitted(orders, orders[x := row])
  {
  }

  lemma EscalateSilent(w: World, p: Pid)
    ensures Silent(w, DoEscalate(w, p))
  {
    hide Silent, Drop, NoneDone, NoneSubmitted;
    SilentSame(w, w);
    GivesUp(w, p);
    if p in w.workers && w.workers[p].Escalating? && w.workers[p].order in w.db.orders {
      var Escalating(x, q) := w.workers[p];
      var row := w.db.orders[x].(status := NEEDS_REVIEW);
      RowWritten(w.db.orders, x, row);
      Unwritten(w.db.orders, w.db.jobs);
      SilentHand(w, DoEscalate(w, p), p, Idle(q));
    }
  }

  /** The four steps after which a pass, an order or a job says something it did not say before. */
  predicate Speaks(s: Step) {
    s.IssueLinks? || s.SendMail? || s.Submit? || s.WriteDone?
  }

  lemma QueueSilent(w: World, s: Step)
    requires IsQueueStep(s) && !Speaks(s)
    ensures Silent(w, ApplyQueue(w, s))
  {
    hide Silent, DoReadBatch, DoClaim, DoBegin, DoLoad, DoThrow, DoReadAttempts, DoWriteFailure, DoEscalate, Drop;
    match s
    case ReadBatch(p, ids) => ReadBatchSilent(w, p, ids);
    case ClaimBatch(p) => ClaimSilent(w, p);
    case BeginJob(p) => BeginSilent(w, p);
    case LoadOrder(p) => LoadSilent(w, p);
    case Throw(p) => ThrowSilent(w, p);
    case ReadAttempts(p) => AttemptsSilent(w, p);
    case WriteFailure(p, r) => FailureSilent(w, p, r);
    case Escalate(p) => EscalateSilent(w, p);
    case CrashWorker(p) => GivesUp(w, p);
  }

  lemma StepSilent(w: World, s: Step)
    requires !Speaks(s)
    ensures Silent(w, Apply(w, s))
  {
    hide Silent, ApplyPayment, ApplyUpkeep, ApplyAdmin, ApplyDownload, ApplyQueue;
    if IsPaymentStep(s) {
      PaymentSilent(w, s);
    } else if IsUpkeepStep(s) {
      UpkeepSilent(w, s);
    } else if IsAdminStep(s) {
      AdminSilent(w, s);
    } else if IsDownloadStep(s) {
      DownloadSilent(w, s);
    } else {
      QueueSilent(w, s);
    }
  }

  // ---------------------------------------------------------------- steps that speak

  lemma TrailGrows(w: World, mails: set<Mail>, more: set<Mail>)
    requires Trail(w, mails)
    ensures Trail(w, mails + more)
  {
    hide AllLinked, DeliveryKind;
  }

  /** The passes after one of them went on to `next`, which is as honest as the rest. */
  lemma OthersHonest(w: World, w': World, p: Pid, next: Worker, mails: set<Mail>)
    requires Inv(w) && PassesHonest(w, mails) && SameNames(w.db.jobs, w'.db.jobs)
    requires OrdersLater(w.db.orders, w'.db.orders) && GrantsLater(w.db.grants, w'.db.grants)
    requires w'.workers == w.workers[p := next]
    requires Honest(next, w'.db.orders, w'.db.jobs, w'.db.grants, mails)
    ensures PassesHonest(w', mails)
  {
    hide Inv, Honest, OrdersLater, GrantsLater, SameNames;
    forall q | q in w'.workers ensures Honest(w'.workers[q], w'.db.orders, w'.db.jobs, w'.db.grants, mails) {
      if q != p {
        HonestStays(w, w', q, mails);
      }
    }
  }

  /** After the emission every file of the order has its link. */
  lemma EmittedLinks(orders: map<OrderId, Order>, grants: map<GrantId, Grant>, o: OrderId, ids: seq<GrantId>, now: Time)
    requires o in orders && |ids| == |Deliverables(orders[o].lines)| && NoDup(ids)
    requires forall g :: g in ids ==> g !in grants
    ensures AllLinked(orders, EmitLinks(grants, o, orders[o].lines, ids, now), o)
  {
    hide EmitLinks, Deliverables;
    var lines := orders[o].lines;
    var after := EmitLinks(grants, o, lines, ids, now);
    EmittedExactly(grants, o, lines, ids, now);
    DeliverablesExact(lines, 0);
    forall i | 0 <= i < |lines| && Deliverable(lines[i]) ensures HasLink(after, o, i) {
      assert i in Deliverables(lines);
      var k :| 0 <= k < |ids| && Deliverables(lines)[k] == i;
      assert ids[k] in ids && ids[k] in after && after[ids[k]].item == ItemKey(o, i);
    }
  }

  /** A pass that has its order's lines in hand read them from the order. */
  lemma LoadedLines(w: World, p: Pid)
    requires Inv(w) && p in w.workers && w.workers[p].Running? && w.workers[p].stage.Loaded?
    ensures w.workers[p].job in w.db.jobs
    ensures var job := w.db.jobs[w.workers[p].job];
            job.kind == DELIVER_DIGITAL ==>
              && job.orderId == Some(job.ref) && job.ref in w.db.orders
              && w.workers[p].stage.lines == w.db.orders[job.ref].lines
  {
    hide OrderInv, GrantInv, EventsOk, Covered, KeysUnique, CountsOk, JobRowOk, WorkerOk, DeliveryKind;
    assert WorkerOk(p, w.workers[p], w.db.orders, w.db.jobs, w.owner, w.executions, w.requeues);
    RunningThere(p, w.workers[p], w.db.orders, w.db.jobs, w.owner, w.executions, w.requeues);
    DeliveryRow(w.db.orders, w.db.jobs[w.workers[p].job]);
  }

  lemma RunningThere(p: Pid, worker: Worker, orders: map<OrderId, Order>, jobs: map<JobId, Job>,
                     owner: map<JobId, Pid>, executions: map<JobId, nat>, requeues: map<JobId, nat>)
    requires WorkerOk(p, worker, orders, jobs, owner, executions, requeues) && worker.Running?
    ensures worker.job in jobs && StageOk(orders, jobs[worker.job], worker.stage)
  {
    hide StageOk, Owned, IsPaid;
  }

  /** The emission goes through. */
  predicate Issues(w: World, p: Pid, ids: seq<GrantId>) {
    && p in w.workers && w.workers[p].Running? && w.workers[p].stage.Loaded? && w.workers[p].job in w.db.jobs
    && w.db.jobs[w.workers[p].job].kind == DELIVER_DIGITAL && w.db.jobs[w.workers[p].job].orderId.Some?
    && Deliverables(w.workers[p].stage.lines) != []
    && |ids| == |Deliverables(w.workers[p].stage.lines)| && FreshGrants(w, ids)
  }

  lemma IssuesNothing(w: World, p: Pid, ids: seq<GrantId>)
    requires !Issues(w, p, ids)
    ensures Silent(w, DoIssueLinks(w, p, ids))
  {
    hide Silent, SetWorker, IssueGrants, FreshGrants, Deliverables;
    SilentSame(w, w);
    if p in w.workers && w.workers[p].Running? {
      GoesOn(w, p, Raised(w.workers[p].job, w.workers[p].queue));
    }
  }

  lemma IssueOutcome(w: World, p: Pid, ids: seq<GrantId>)
    requires Issues(w, p, ids)
    ensures var Running(j, Loaded(lines), q) := w.workers[p];
            var w' := DoIssueLinks(w, p, ids);
            && w'.db == w.db.(grants := EmitLinks(w.db.grants, w.db.jobs[j].orderId.value, lines, ids, w.now))
            && w'.workers == w.workers[p := Running(j, Linked(|ids|), q)]
  {
    hide EmitLinks, Deliverables, FreshGrants;
  }

  lemma IssueTrail(w: World, w': World, p: Pid, ids: seq<GrantId>, mails: set<Mail>)
    requires Inv(w) && Trail(w, mails) && w' == DoIssueLinks(w, p, ids) && Issues(w, p, ids)
    requires OrdersLater(w.db.orders, w'.db.orders) && GrantsLater(w.db.grants, w'.db.grants)
    ensures Trail(w', mails)
  {
    hide Inv, SubmittedOk, OrdersLater, GrantsLater, PassesHonest, DoneOk, EmitLinks, Deliverables, AllLinked;
    hide DoIssueLinks, NoneDone;
    IssueOutcome(w, p, ids);
    LoadedLines(w, p);
    var Running(j, Loaded(_), q) := w.workers[p];
    EmittedLinks(w.db.orders, w.db.grants, w.db.jobs[j].ref, ids, w.now);
    Unwritten(w.db.orders, w.db.jobs);
    OthersHonest(w, w', p, Running(j, Linked(|ids|), q), mails);
    SubmittedStay(w, w', mails);
  }

  lemma SendOutcome(w: World, p: Pid)
    requires Sends(w, p)
    ensures var Running(j, _, q) := w.workers[p];
            var w' := DoSendMail(w, p);
            w'.db == w.db && w'.workers ==
              w.workers[p := if IsDelivery(w.db.jobs[j].kind) then Running(j, Mailed, q) else Finished(j, q)]
  {
    var Running(j, _, q) := w.workers[p];
    hide SetWorker;
    assert DoSendMail(w, p) == SetWorker(w, p, if IsDelivery(w.db.jobs[j].kind) then Running(j, Mailed, q)
                                               else Finished(j, q));
    hide DoSendMail;
    SetOnly(w, p, if IsDelivery(w.db.jobs[j].kind) then Running(j, Mailed, q) else Finished(j, q));
  }

  lemma SetOnly(w: World, p: Pid, next: Worker)
    ensures SetWorker(w, p, next).db == w.db && SetWorker(w, p, next).workers == w.workers[p := next]
  {
  }

  lemma SendsNothing(w: World, p: Pid)
    requires !Sends(w, p)
    ensures DoSendMail(w, p) == w
  {
    hide SetWorker;
  }

  lemma SendTrail(w: World, w': World, p: Pid, mails: set<Mail>)
    requires Inv(w) && Trail(w, mails) && w' == DoSendMail(w, p) && Sends(w, p)
    ensures Trail(w', mails + {InHandKey(w, p)})
  {
    hide Inv, SubmittedOk, DoneOk, AllLinked, DoSendMail;
    SendOutcome(w, p);
    TrailGrows(w, mails, {InHandKey(w, p)});
    OrdersStay(w.db.orders);
    GrantsStay(w.db.grants);
    hide OrdersLater, GrantsLater;
    assert Honest(w.workers[p], w.db.orders, w.db.jobs, w.db.grants, mails);
    hide PassesHonest;
    OthersHonest(w, w', p, w'.workers[p], mails + {InHandKey(w, p)});
  }

  predicate Submits(w: World, p: Pid) {
    && p in w.workers && w.workers[p].Running? && w.workers[p].stage.Mailed? && w.workers[p].job in w.db.jobs
    && IsDelivery(w.db.jobs[w.workers[p].job].kind) && w.db.jobs[w.workers[p].job].orderId.Some?
    && w.db.jobs[w.workers[p].job].orderId.value in w.db.orders
  }

  lemma SubmitOutcome(w: World, p: Pid)
    requires Submits(w, p)
    ensures var Running(j, _, q) := w.workers[p];
            var x := w.db.jobs[j].orderId.value;
            var w' := DoSubmit(w, p);
            && w'.db == SetOrder(w.db, x, SubmittedRow(w.db.orders[x], w.db.jobs[j].kind, w.now))
            && w'.workers == w.workers[p := Finished(j, q)]
  {
    hide SubmittedRow, SetOrder;
  }

  /** One more order says it was submitted, and it was. */
  lemma OneMoreSubmitted(w: World, w': World, x: OrderId, mails: set<Mail>)
    requires SubmittedOk(w.db.orders, w.db.grants, mails) && x in w.db.orders
    requires x in w'.db.orders && w'.db.orders == w.db.orders[x := w'.db.orders[x]] && w'.db.grants == w.db.grants
    requires w'.db.orders[x].lines == w.db.orders[x].lines
    requires (DeliveryKind(w.db.orders[x].lines), x) in mails
    requires DeliveryKind(w.db.orders[x].lines) == DELIVER_DIGITAL ==> AllLinked(w.db.orders, w.db.grants, x)
    ensures SubmittedOk(w'.db.orders, w'.db.grants, mails)
  {
    hide DeliveryKind, HasLink;
  }

  lemma SubmitTrail(w: World, w': World, p: Pid, mails: set<Mail>)
    requires Inv(w) && Trail(w, mails) && Submits(w, p) && w' == DoSubmit(w, p)
    requires OrdersLater(w.db.orders, w'.db.orders) && GrantsLater(w.db.grants, w'.db.grants)
    ensures Trail(w', mails)
  {
    hide Inv, SubmittedOk, DoneOk, AllLinked, DoSubmit, OrdersLater, GrantsLater, DeliveryKind;
    SubmitOutcome(w, p);
    HandIsThere(w, p);
    var Running(j, _, q) := w.workers[p];
    var x := w.db.jobs[j].ref;
    assert Honest(w.workers[p], w.db.orders, w.db.jobs, w.db.grants, mails);
    hide PassesHonest;
    OneMoreSubmitted(w, w', x, mails);
    if w.db.jobs[j].kind == DELIVER_DIGITAL {
      LinksStay(w, w', x);
    }
    OthersHonest(w, w', p, Finished(j, q), mails);
  }

  lemma DoneOutcome(w: World, p: Pid)
    requires p in w.workers && w.workers[p].Finished? && w.workers[p].job in w.db.jobs
    ensures var Finished(j, q) := w.workers[p];
            var w' := DoWriteDone(w, p);
            && w'.db == w.db.(jobs := w.db.jobs[j := Completed(w.db.jobs[j], w.now)])
            && w'.workers == w.workers[p := Idle(q)]
  {
    hide Completed;
  }

  lemma DoneTrail(w: World, w': World, p: Pid, mails: set<Mail>)
    requires Inv(w) && Trail(w, mails) && w' == DoWriteDone(w, p)
    requires p in w.workers && w.workers[p].Finished? && w.workers[p].job in w.db.jobs
    ensures Trail(w', mails)
  {
    hide Inv, SubmittedOk, AllLinked, DoWriteDone;
    DoneOutcome(w, p);
    var Finished(j, q) := w.workers[p];
    assert Honest(w.workers[p], w.db.orders, w.db.jobs, w.db.grants, mails);
    hide PassesHonest;
    OrdersStay(w.db.orders);
    GrantsStay(w.db.grants);
    hide OrdersLater, GrantsLater;
    OthersHonest(w, w', p, Idle(q), mails);
  }

  lemma NothingSubmitted(w: World, p: Pid)
    requires !Submits(w, p)
    ensures DoSubmit(w, p) == w
  {
    hide SetOrder, SetWorker;
  }

  lemma NothingWritten(w: World, p: Pid)
    requires !(p in w.workers && w.workers[p].Finished? && w.workers[p].job in w.db.jobs)
    ensures DoWriteDone(w, p) == w
  {
    hide SetWorker;
  }

  /** Links issued or a mail sent. */
  lemma CarriedTrail(w: World, s: Step, mails: set<Mail>)
    requires Inv(w) && Trail(w, mails) && (s.IssueLinks? || s.SendMail?)
    requires OrdersLater(w.db.orders, ApplyQueue(w, s).db.orders)
    requires GrantsLater(w.db.grants, ApplyQueue(w, s).db.grants)
    ensures Trail(ApplyQueue(w, s), mails + Sent(w, s))
  {
    hide Inv, Trail, Silent, Issues, Sends, OrdersLater, GrantsLater, DoIssueLinks, DoSendMail;
    TrailGrows(w, mails, Sent(w, s));
    if s.IssueLinks? && Issues(w, s.p, s.ids) {
      IssueTrail(w, DoIssueLinks(w, s.p, s.ids), s.p, s.ids, mails);
      TrailGrows(DoIssueLinks(w, s.p, s.ids), mails, {});
    } else if s.IssueLinks? {
      IssuesNothing(w, s.p, s.ids);
      SilentTrail(w, DoIssueLinks(w, s.p, s.ids), mails + Sent(w, s));
    } else if Sends(w, s.p) {
      SendTrail(w, DoSendMail(w, s.p), s.p, mails);
    } else {
      SendsNothing(w, s.p);
    }
  }

  /** A delivery or a job written down as over. */
  lemma WrittenTrail(w: World, s: Step, mails: set<Mail>)
    requires Inv(w) && Trail(w, mails) && (s.Submit? || s.WriteDone?)
    requires OrdersLater(w.db.orders, ApplyQueue(w, s).db.orders)
    requires GrantsLater(w.db.grants, ApplyQueue(w, s).db.grants)
    ensures Trail(ApplyQueue(w, s), mails)
  {
    hide Inv, Trail, Submits, OrdersLater, GrantsLater, DoSubmit, DoWriteDone;
    if s.Submit? && Submits(w, s.p) {
      SubmitTrail(w, DoSubmit(w, s.p), s.p, mails);
    } else if s.Submit? {
      NothingSubmitted(w, s.p);
    } else if s.p in w.workers && w.workers[s.p].Finished? && w.workers[s.p].job in w.db.jobs {
      DoneTrail(w, DoWriteDone(w, s.p), s.p, mails);
    } else {
      NothingWritten(w, s.p);
    }
  }

  /** One step of anybody. */
  lemma StepTrail(w: World, s: Step, mails: set<Mail>)
    requires Inv(w) && Trail(w, mails)
    ensures Trail(Apply(w, s), mails + Sent(w, s))
  {
    hide Inv, Trail, Silent, Sends, OrdersLater, GrantsLater, ApplyQueue;
    StepKeeps(w, s);
    if !Speaks(s) {
      StepSilent(w, s);
      hide Apply;
      SilentTrail(w, Apply(w, s), mails);
      TrailGrows(Apply(w, s), mails, {});
    } else if s.IssueLinks? || s.SendMail? {
      CarriedTrail(w, s, mails);
    } else {
      WrittenTrail(w, s, mails);
      TrailGrows(ApplyQueue(w, s), mails, {});
    }
  }

  lemma {:induction false} RunTrail(steps: seq<Step>)
    ensures Trail(Run(INIT, steps), Mails(steps))
  {
    hide Inv, Trail, Apply, Sent;
    if steps == [] {
      FirstTrail();
    } else {
      var before := steps[..|steps|-1];
      ReachableOk(before);
      RunTrail(before);
      StepTrail(Run(INIT, before), steps[|steps|-1], Mails(before));
    }
  }

  lemma FirstTrail()
    ensures Trail(INIT, {})
  {
  }

  // ---------------------------------------------------------------- over every run

  lemma LinkedLines(db: Db, o: OrderId)
    requires o in db.orders && OrderRowOk(db.orders[o]) && AllLinked(db.orders, db.grants, o)
    requires forall i :: 0 <= i < |db.orders[o].lines| ==> db.orders[o].lines[i].kind == DIGITAL
    ensures forall i :: 0 <= i < |db.orders[o].lines| ==> HasLink(db.grants, o, i)
  {
    hide HasLink;
    assert forall i :: 0 <= i < |db.orders[o].lines| ==> Deliverable(db.orders[o].lines[i]);
  }

  /**
   * An order says it was submitted only after the mail of its delivery went out, and
   * a download only after each of its files was given a link.
   */
  lemma SubmittedWasMailed(steps: seq<Step>, o: OrderId)
    ensures var db := Run(INIT, steps).db;
            o in db.orders && db.orders[o].submittedAt.Some? ==>
              if forall i :: 0 <= i < |db.orders[o].lines| ==> db.orders[o].lines[i].kind == DIGITAL
              then (DELIVER_DIGITAL, o) in Mails(steps)
                && forall i :: 0 <= i < |db.orders[o].lines| ==> HasLink(db.grants, o, i)
              else (FULFILL_ORDER, o) in Mails(steps)
  {
    hide Run, Mails, HasLink;
    var db := Run(INIT, steps).db;
    RunTrail(steps);
    ReachableOk(steps);
    if o in db.orders && db.orders[o].submittedAt.Some? {
      assert SubmittedOk(db.orders, db.grants, Mails(steps));
      RowFacts(Run(INIT, steps), o);
      hide Inv, Trail, SubmittedOk, AllLinked;
      if DeliveryKind(db.orders[o].lines) == DELIVER_DIGITAL {
        LinkedLines(db, o);
      }
    }
  }

  /** A job says it is done only after its own mail went out. */
  lemma DoneWasMailed(steps: seq<Step>, j: JobId)
    ensures var jobs := Run(INIT, steps).db.jobs;
            j in jobs && jobs[j].status == DONE ==> (jobs[j].kind, jobs[j].ref) in Mails(steps)
  {
    hide Run, Mails, SubmittedOk, PassesHonest;
    RunTrail(steps);
  }
}
