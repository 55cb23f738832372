/** What holds in every state any steps can lead to from an empty shop, whatever is interleaved, repeated or dies. */
module ProtocolTheorems {
  import opened Prelude
  import opened Store
  import opened Protocol
  import opened Invariant
  import opened OrderProof
  import opened QueueProof
  import opened GrantProof
  import opened ShopSteps
  import opened QueueSteps
  import opened WorkerSteps

  // ---------------------------------------------------------------- induction over runs

  lemma PaymentStep(w: World, s: Step)
    requires Inv(w) && IsPaymentStep(s)
    ensures Inv(ApplyPayment(w, s)) && Later(w, ApplyPayment(w, s))
  {
    hide Inv, Later, DoCheckout, DoReceive, DoDispatch, ReadPayment, DoPaymentCommit, DoRefundCommit, ExpireSession,
         CancelUnpaid;
    StayKeeps(w);
    match s
    case Tick(t) => TickKeeps(w, t);
    case AddProduct(x) => AddProductKeeps(w, x);
    case AddVariant(v, x) => AddVariantKeeps(w, v, x);
    case Checkout(o, lines, email) => CheckoutKeeps(w, o, lines, email);
    case ReceiveEvent(p, e, payload) => ReceiveKeeps(w, p, e, payload);
    case DispatchEvent(p) => DispatchKeeps(w, p);
    case ReconcilePaid(p, o, intent) => ReadPaymentKeeps(w, p, o, intent);
    case ReconcileExpired(o) => SessionKeeps(w, o);
    case ReconcileNoSession(o) => SessionKeeps(w, o);
    case PaymentCommit(p, j1, j2) => PaymentCommitKeeps(w, p, j1, j2);
    case RefundCommit(p) => RefundKeeps(w, p);
  }

  lemma TickKeeps(w: World, t: Time)
    requires Inv(w)
    ensures Inv(ApplyPayment(w, Tick(t))) && Later(w, ApplyPayment(w, Tick(t)))
  {
    hide OrdersOk, IntentsUnique, LinesOk, VariantsOk, RequestsOk, JobsOk, KeysUnique, Covered, CountsOk,
         WorkersOk, GrantsOk, OneLive, DownloadsOk, BudgetOk, EventsOk, OrdersLater, GrantsLater;
    OrdersStay(w.db.orders);
    GrantsStay(w.db.grants);
  }

  lemma UpkeepStep(w: World, s: Step)
    requires Inv(w) && IsUpkeepStep(s)
    ensures Inv(ApplyUpkeep(w, s)) && Later(w, ApplyUpkeep(w, s))
  {
    hide Inv, Later, DoPurgeUnpaid, PurgeDone, Enqueue, NewJobs, FreshJob, DoCheckRetry, DoRequeueRetry, DoMoveRetry;
    StayKeeps(w);
    match s
    case PurgeUnpaid => PurgeUnpaidKeeps(w);
    case PurgeJobs => PurgeJobsKeeps(w, Before(w.now, DIAS_RETENCION_TRABAJOS_HECHOS));
    case EnqueueContact(j, ref) => if FreshJob(w, j) { EnqueueContactKeeps(w, j, ref); }
    case CheckRetry(p, o) => CheckRetryKeeps(w, p, o);
    case RequeueRetry(p) => RequeueRetryKeeps(w, p);
    case MoveRetry(p) => MoveRetryKeeps(w, p);
  }

  lemma AdminStep(w: World, s: Step)
    requires Inv(w) && IsAdminStep(s)
    ensures Inv(ApplyAdmin(w, s)) && Later(w, ApplyAdmin(w, s))
  {
    hide Inv, Later, HasSales, DoCommitDeletion, VariantReferenced, DoCommitVariant, DoReadResend, DoIssueResend;
    StayKeeps(w);
    match s
    case CheckDeletion(p, x) => CheckKeeps(w, p, DeletionChecked(x));
    case CommitDeletion(p) => DeletionKeeps(w, p);
    case CheckVariant(p, v) => CheckKeeps(w, p, VariantChecked(v));
    case CommitVariant(p) => DropVariantKeeps(w, p);
    case ReadResend(p, o, email) => ResendKeeps(w, p, o, email, []);
    case IssueResend(p, ids) => ResendKeeps(w, p, 0, "", ids);
    case CrashRequest(p) => EndRequestKeeps(w, p);
  }

  lemma CheckKeeps(w: World, p: Pid, r: Request)
    requires Inv(w) && (r.DeletionChecked? || r.VariantChecked?)
    ensures Inv(w.(requests := w.requests[p := r])) && Later(w, w.(requests := w.requests[p := r]))
  {
    hide Inv, Later;
    SetRequestKeeps(w, p, r);
  }

  lemma DownloadStep(w: World, s: Step)
    requires Inv(w) && IsDownloadStep(s)
    ensures Inv(ApplyDownload(w, s)) && Later(w, ApplyDownload(w, s))
  {
    hide Inv, Later, DoReadGrant, DoCountUse, DoHandOut;
    match s
    case ReadGrant(p, g) => ReadGrantKeeps(w, p, g);
    case CountUse(p) => CountUseKeeps(w, p);
    case HandOut(p) => HandOutKeeps(w, p);
    case CrashDownload(p) => DropDownloadKeeps(w, p);
  }

  lemma QueueStep(w: World, s: Step)
    requires Inv(w) && IsQueueStep(s)
    ensures Inv(ApplyQueue(w, s)) && Later(w, ApplyQueue(w, s))
  {
    hide Inv, Later, DoReadBatch, DoClaim, DoBegin, DoLoad, DoIssueLinks, DoSendMail, DoSubmit, DoThrow, DoWriteDone,
         DoReadAttempts, DoWriteFailure, DoEscalate;
    match s
    case ReadBatch(p, ids) => ReadBatchKeeps(w, p, ids);
    case ClaimBatch(p) => ClaimKeeps(w, p);
    case BeginJob(p) => BeginKeeps(w, p);
    case LoadOrder(p) => LoadKeeps(w, p);
    case IssueLinks(p, ids) => IssueLinksKeeps(w, p, ids);
    case SendMail(p) => SendMailKeeps(w, p);
    case Submit(p) => SubmitKeeps(w, p);
    case Throw(p) => ThrowKeeps(w, p);
    case WriteDone(p) => WriteDoneKeeps(w, p);
    case ReadAttempts(p) => ReadAttemptsKeeps(w, p);
    case WriteFailure(p, r) => WriteFailureKeeps(w, p, r);
    case Escalate(p) => EscalateKeeps(w, p);
    case CrashWorker(p) => DropWorkerKeeps(w, p);
  }

  /** Every step of every actor keeps the invariant. */
  lemma StepKeeps(w: World, s: Step)
    requires Inv(w)
    ensures Inv(Apply(w, s)) && Later(w, Apply(w, s))
  {
    hide Inv, Later, ApplyPayment, ApplyUpkeep, ApplyAdmin, ApplyDownload, ApplyQueue;
    if IsPaymentStep(s) {
      PaymentStep(w, s);
    } else if IsUpkeepStep(s) {
      UpkeepStep(w, s);
    } else if IsAdminStep(s) {
      AdminStep(w, s);
    } else if IsDownloadStep(s) {
      DownloadStep(w, s);
    } else {
      QueueStep(w, s);
    }
  }

  lemma {:induction false} RunKeeps(w: World, steps: seq<Step>)
    requires Inv(w)
    ensures Inv(Run(w, steps)) && Later(w, Run(w, steps))
  {
    hide Inv, Later, Apply;
    StayKeeps(w);
    if steps != [] {
      var before := Run(w, steps[..|steps|-1]);
      RunKeeps(w, steps[..|steps|-1]);
      StepKeeps(before, steps[|steps|-1]);
      OrdersUsed(w);
      LaterTrans(w, before, Run(w, steps));
    }
  }

  lemma InitOk()
    ensures Inv(INIT)
  {
  }

  lemma ReachableOk(steps: seq<Step>)
    ensures Inv(Run(INIT, steps))
  {
    InitOk();
    RunKeeps(INIT, steps);
  }

  lemma Extended(w: World, steps: seq<Step>, s: Step)
    ensures Run(w, steps + [s]) == Apply(Run(w, steps), s)
  {
    hide Apply;
    assert (steps + [s])[..|steps + [s]|-1] == steps;
  }

  lemma {:induction false} RunSplits(w: World, first: seq<Step>, more: seq<Step>)
    ensures Run(w, first + more) == Run(Run(w, first), more)
  {
    hide Apply;
    if more == [] {
      assert first + more == first;
    } else {
      RunSplits(w, first, more[..|more|-1]);
      assert (first + more)[..|first + more|-1] == first + more[..|more|-1];
    }
  }

  // ---------------------------------------------------------------- mutual exclusion

  /** No job is held by two passes at once, and every held job is PROCESSING. */
  lemma MutualExclusion(steps: seq<Step>, p: Pid, q: Pid, j: JobId)
    ensures var w := Run(INIT, steps);
            && (p in w.workers && j in Owned(w.workers[p]) ==> j in w.db.jobs && w.db.jobs[j].status == PROCESSING)
            && (p in w.workers && q in w.workers && j in Owned(w.workers[p]) && j in Owned(w.workers[q]) ==> p == q)
  {
    hide OrderInv, GrantInv, EventsOk, JobsOk, KeysUnique, Covered, CountsOk, WorkersOk, Run, Owned;
    var w := Run(INIT, steps);
    ReachableOk(steps);
    if p in w.workers && j in Owned(w.workers[p]) {
      OwnedFacts(w, p, j);
      if q in w.workers && j in Owned(w.workers[q]) {
        OwnedFacts(w, q, j);
      }
    }
  }

  // ---------------------------------------------------------------- charges and deliveries

  /** A charged order has been submitted, or one row of the queue still owes its delivery. */
  lemma PaidOrderIsNotLost(steps: seq<Step>, o: OrderId)
    ensures var w := Run(INIT, steps);
            IsPaid(w.db.orders, o) ==>
              || w.db.orders[o].submittedAt.Some?
              || exists j :: j in w.db.jobs && w.db.jobs[j].orderId == Some(o)
                   && w.db.jobs[j].kind == DeliveryKind(w.db.orders[o].lines)
                   && w.db.jobs[j].status in {PENDING, PROCESSING, FAILED}
  {
    hide OrderInv, GrantInv, EventsOk, JobsOk, KeysUnique, CountsOk, WorkersOk, Run;
    var w := Run(INIT, steps);
    ReachableOk(steps);
    if IsPaid(w.db.orders, o) && w.db.orders[o].submittedAt.None? {
      assert Owed(w.db.jobs, o, DeliveryKind(w.db.orders[o].lines));
    }
  }

  /** The three signals of a charge agree in every state. */
  lemma SignalsAgree(steps: seq<Step>, o: OrderId)
    ensures var w := Run(INIT, steps);
            o in w.db.orders ==>
              var row := w.db.orders[o];
              && (row.paidAt.Some? <==> row.paymentIntent.Some?)
              && (row.status == PENDING_PAYMENT || row.status == CANCELLED ==> row.paidAt.None?)
              && (NeverCharged(row) <==> row.paidAt.None? && row.status != REFUNDED)
              && (row.paidAt.None? ==> row.submittedAt.None?)
  {
    hide QueueInv, GrantInv, EventsOk, Run;
    ReachableOk(steps);
  }

  /** Once charged: still there, still charged, same lines, never unpaid again; a submission stays too. */
  lemma ChargeIsPermanent(steps: seq<Step>, more: seq<Step>, o: OrderId)
    requires IsPaid(Run(INIT, steps).db.orders, o)
    ensures var before := Run(INIT, steps).db.orders;
            var after := Run(INIT, steps + more).db.orders;
            && IsPaid(after, o)
            && after[o].lines == before[o].lines
            && after[o].paymentIntent.Some?
            && after[o].status != PENDING_PAYMENT && after[o].status != CANCELLED
            && (before[o].submittedAt.Some? ==> after[o].submittedAt.Some?)
  {
    hide QueueInv, GrantInv, EventsOk, Run, OrderRowOk;
    ReachableOk(steps);
    ReachableOk(steps + more);
    RunSplits(INIT, steps, more);
    RunKeeps(Run(INIT, steps), more);
    SignalsAgree(steps + more, o);
  }

  /** A PaymentIntent never pays for two orders. */
  lemma IntentPaysOneOrder(steps: seq<Step>, a: OrderId, b: OrderId)
    ensures var orders := Run(INIT, steps).db.orders;
            (a in orders && b in orders && orders[a].paymentIntent.Some?
              && orders[a].paymentIntent == orders[b].paymentIntent)
            ==> a == b
  {
    hide QueueInv, GrantInv, EventsOk, Run, OrdersOk, LinesOk, VariantsOk, RequestsOk;
    ReachableOk(steps);
  }

  /** Whatever is delivered twice, received twice or raced, an event is acted on at most once. */
  lemma EventActsOnce(steps: seq<Step>, e: EventId)
    ensures var w := Run(INIT, steps); e in w.dispatched ==> w.dispatched[e] <= 1
  {
    hide OrderInv, QueueInv, GrantInv, Run;
    ReachableOk(steps);
  }

  /** An order has one delivery job at most, and it is of the kind its lines ask for. */
  lemma OneDeliveryJob(steps: seq<Step>, a: JobId, b: JobId)
    ensures var w := Run(INIT, steps);
            a in w.db.jobs && b in w.db.jobs && IsDelivery(w.db.jobs[a].kind) && IsDelivery(w.db.jobs[b].kind)
            && w.db.jobs[a].orderId == w.db.jobs[b].orderId ==>
              && a == b
              && w.db.jobs[a].orderId.Some? && IsPaid(w.db.orders, w.db.jobs[a].orderId.value)
              && w.db.jobs[a].kind == DeliveryKind(w.db.orders[w.db.jobs[a].orderId.value].lines)
  {
    hide OrderInv, GrantInv, EventsOk, Covered, CountsOk, WorkersOk, Run, JobRowOk;
    var w := Run(INIT, steps);
    ReachableOk(steps);
    if a in w.db.jobs && b in w.db.jobs && IsDelivery(w.db.jobs[a].kind) && IsDelivery(w.db.jobs[b].kind)
       && w.db.jobs[a].orderId == w.db.jobs[b].orderId {
      DeliveryRows(w.db.orders, w.db.jobs[a], w.db.jobs[b]);
    }
  }

  lemma DeliveryRows(orders: map<OrderId, Order>, a: Job, b: Job)
    requires JobRowOk(orders, a) && JobRowOk(orders, b) && IsDelivery(a.kind) && IsDelivery(b.kind)
             && a.orderId == b.orderId
    ensures a.orderId.Some? && IsPaid(orders, a.orderId.value) && a.kind == b.kind && a.ref == b.ref
    ensures a.kind == DeliveryKind(orders[a.orderId.value].lines)
  {
  }

  /** While DELIVER_DIGITAL runs, every line of its order is deliverable: "nothing to deliver" is unreachable. */
  lemma NothingToDeliverIsUnreachable(steps: seq<Step>, p: Pid)
    ensures var w := Run(INIT, steps);
            p in w.workers && w.workers[p].Running? && w.workers[p].stage.Loaded?
            && w.workers[p].job in w.db.jobs && w.db.jobs[w.workers[p].job].kind == DELIVER_DIGITAL ==>
              |Deliverables(w.workers[p].stage.lines)| == |w.workers[p].stage.lines| > 0
  {
    hide Inv, Run, WorkerOk;
    var w := Run(INIT, steps);
    ReachableOk(steps);
    if p in w.workers && w.workers[p].Running? && w.workers[p].stage.Loaded?
       && w.workers[p].job in w.db.jobs && w.db.jobs[w.workers[p].job].kind == DELIVER_DIGITAL {
      HandFacts(w, p);
      var lines := w.workers[p].stage.lines;
      RowFacts(w, w.db.jobs[w.workers[p].job].orderId.value);
      AllDeliverable(lines, 0);
    }
  }

  lemma {:induction false} AllDeliverable(lines: seq<Line>, from: nat)
    requires from <= |lines| && forall i :: 0 <= i < |lines| ==> Deliverable(lines[i])
    ensures |Deliverables(lines, from)| == |lines| - from
    decreases |lines| - from
  {
    if from < |lines| {
      AllDeliverable(lines, from + 1);
    }
  }

  // ---------------------------------------------------------------- deletions

  /** The foreign key of every order line holds in every state. */
  lemma EveryLineHasItsVariant(steps: seq<Step>, o: OrderId, i: nat)
    ensures var db := Run(INIT, steps).db;
            o in db.orders && i < |db.orders[o].lines| ==>
              && db.orders[o].lines[i].variantId in db.variants
              && db.variants[db.orders[o].lines[i].variantId] in db.products
  {
    hide QueueInv, GrantInv, EventsOk, Run, OrdersOk, IntentsUnique, RequestsOk;
    ReachableOk(steps);
  }

  /**
   * However payments and checkouts raced with it, the deletion of a product
   * goes through exactly when at that moment no order that is not never-charged
   * holds one of its variants. It then removes the product, its variants and
   * the never-charged orders holding them, and nothing else.
   */
  lemma ProductDeletionExact(steps: seq<Step>, x: ProductId)
    ensures var db := Run(INIT, steps).db;
            var result := DeleteProduct(db, x);
            && (result.Some? <==> x in db.products && !HasSales(db, x))
            && (result.Some? ==>
                  var after := result.value;
                  && after.products == db.products - {x}
                  && (forall v :: v in after.variants <==> v in db.variants && db.variants[v] != x)
                  && (forall o :: o in db.orders && o !in after.orders ==>
                      NeverCharged(db.orders[o]) && RefersTo(db, o, x))
                  && (forall o :: o in after.orders ==>
                      o in db.orders && after.orders[o] == db.orders[o] && !RefersTo(db, o, x))
                  && after.jobs == db.jobs && after.grants == db.grants && after.events == db.events)
  {
    hide Inv, Run, NeverCharged;
    ReachableOk(steps);
    var w := Run(INIT, steps);
    var db := w.db;
    DeleteOrdersKeeps(w, UnpaidOf(db, x));
    var db1 := DeleteOrders(db, UnpaidOf(db, x)).value;
    assert forall o :: o in db1.orders ==> RefersTo(db1, o, x) == RefersTo(db, o, x);
  }

  /** The step itself: the committed deletion above, or the database untouched. */
  lemma DeletionIsAllOrNothing(steps: seq<Step>, p: Pid)
    requires p in Run(INIT, steps).requests && Run(INIT, steps).requests[p].DeletionChecked?
    ensures var w := Run(INIT, steps);
            var after := Run(INIT, steps + [CommitDeletion(p)]);
            var x := w.requests[p].product;
            if x in w.db.products && !HasSales(w.db, x)
            then DeleteProduct(w.db, x) == Some(after.db) && x !in after.db.products
            else after.db == w.db
  {
    hide Inv, DeleteProduct, HasSales, Run, Apply;
    Extended(INIT, steps, CommitDeletion(p));
    ProductDeletionExact(steps, Run(INIT, steps).requests[p].product);
    CommitOutcome(Run(INIT, steps), p);
  }

  lemma CommitOutcome(w: World, p: Pid)
    requires p in w.requests && w.requests[p].DeletionChecked?
    ensures var result := DeleteProduct(w.db, w.requests[p].product);
            Apply(w, CommitDeletion(p)).db == if result.Some? then result.value else w.db
  {
    hide DeleteProduct;
  }

  // ---------------------------------------------------------------- what moves an unpaid order

  /** The abandoned-order purge is never stopped by the trigger, and takes nothing but what it selects. */
  lemma PurgeTakesOnlyAbandoned(steps: seq<Step>, limit: Time)
    ensures var db := Run(INIT, steps).db;
            var result := DeleteOrders(db, StaleUnpaid(db, limit));
            && result.Some?
            && (forall o :: o in result.value.orders <==>
                  o in db.orders && !(NeverCharged(db.orders[o]) && db.orders[o].createdAt < limit))
            && (forall o :: o in result.value.orders ==> result.value.orders[o] == db.orders[o])
            && result.value.jobs == db.jobs && result.value.grants == db.grants && result.value.variants == db.variants
  {
    hide Inv, Run, NeverCharged;
    ReachableOk(steps);
    DeleteOrdersKeeps(Run(INIT, steps), StaleUnpaid(Run(INIT, steps).db, limit));
  }

  /** The expired session checks one signal and the reconciliation three: in every reachable state they do the same. */
  lemma OneSignalIsEnough(steps: seq<Step>, o: OrderId)
    ensures ExpireSession(Run(INIT, steps).db, o) == CancelUnpaid(Run(INIT, steps).db, o)
  {
    hide Run;
    SignalsAgree(steps, o);
    SameCancellation(Run(INIT, steps).db, o);
  }

  lemma SameCancellation(db: Db, o: OrderId)
    requires o in db.orders && db.orders[o].status == PENDING_PAYMENT ==> NeverCharged(db.orders[o])
    ensures ExpireSession(db, o) == CancelUnpaid(db, o)
  {
    if o in db.orders && db.orders[o].status == CANCELLED {
      assert db.orders[o := db.orders[o].(status := CANCELLED)] == db.orders;
    }
  }

  // ---------------------------------------------------------------- the monitor

  const STALE_ORDER_MS := 30 * 60_000

  /** The four counts of the alerts endpoint, read as one snapshot. */
  datatype Alerts = Alerts(needsReview: nat, failedJobs: nat, stuckPaid: nat, stalledJobs: nat) {
    predicate Healthy() {
      needsReview + failedJobs + stuckPaid + stalledJobs == 0
    }
  }

  function InReview(db: Db): set<OrderId> {
    set o | o in db.orders && db.orders[o].status == NEEDS_REVIEW
  }

  function FailedJobs(db: Db): set<JobId> {
    set j | j in db.jobs && db.jobs[j].status == FAILED
  }

  function StuckPaid(db: Db, stale: int): set<OrderId> {
    set o | o in db.orders && db.orders[o].status == PAID && db.orders[o].paidAt.Some?
        && db.orders[o].paidAt.value < stale && db.orders[o].submittedAt.None?
  }

  function StalledJobs(db: Db, stale: int): set<JobId> {
    set j | j in db.jobs && db.jobs[j].status == PENDING && db.jobs[j].nextAttemptAt < stale
  }

  function AlertsAt(db: Db, now: Time): Alerts {
    var stale := now - STALE_ORDER_MS;
    Alerts(|InReview(db)|, |FailedJobs(db)|, |StuckPaid(db, stale)|, |StalledJobs(db, stale)|)
  }

  /** A healthy answer misses no charged order: each stale one was submitted or refunded. */
  lemma MonitorIsComplete(steps: seq<Step>, now: Time, o: OrderId)
    requires AlertsAt(Run(INIT, steps).db, now).Healthy()
    requires IsPaid(Run(INIT, steps).db.orders, o)
    requires Run(INIT, steps).db.orders[o].paidAt.value < now - STALE_ORDER_MS
    ensures var row := Run(INIT, steps).db.orders[o]; row.submittedAt.Some? || row.status == REFUNDED
  {
    hide Inv, Run;
    ReachableOk(steps);
    RowFacts(Run(INIT, steps), o);
    HealthyRow(Run(INIT, steps).db, now, o);
  }

  lemma HealthyRow(db: Db, now: Time, o: OrderId)
    requires AlertsAt(db, now).Healthy() && IsPaid(db.orders, o) && OrderRowOk(db.orders[o])
    requires db.orders[o].paidAt.value < now - STALE_ORDER_MS
    ensures db.orders[o].submittedAt.Some? || db.orders[o].status == REFUNDED
  {
    hide InReview, StuckPaid, FailedJobs, StalledJobs;
    var stale := now - STALE_ORDER_MS;
    CountedStale(db, stale, o);
    NoneLeft(InReview(db), o);
    NoneLeft(StuckPaid(db, stale), o);
  }

  /** A stale charged order nobody submitted or refunded is in one of the counts. */
  lemma CountedStale(db: Db, stale: int, o: OrderId)
    requires IsPaid(db.orders, o) && OrderRowOk(db.orders[o]) && db.orders[o].paidAt.value < stale
    ensures db.orders[o].submittedAt.Some? || db.orders[o].status == REFUNDED
            || o in InReview(db) || o in StuckPaid(db, stale)
  {
    if db.orders[o].status == PAID && db.orders[o].submittedAt.None? {
      assert o in StuckPaid(db, stale);
    }
    if db.orders[o].status == NEEDS_REVIEW {
      assert o in InReview(db);
    }
  }

  lemma NoneLeft(s: set<OrderId>, o: OrderId)
    requires |s| == 0
    ensures o !in s
  {
    assert s == {};
  }

  // ---------------------------------------------------------------- bounded work

  /** Executions and attempts of a job, at any moment of any run. */
  lemma WorkIsBounded(steps: seq<Step>, j: JobId)
    ensures var w := Run(INIT, steps);
            j in w.db.jobs ==>
              var job := w.db.jobs[j];
              && j in w.executions && j in w.requeues
              && w.executions[j] <= job.maxAttempts * (1 + w.requeues[j])
              && (job.status == PENDING || job.status == PROCESSING ==> job.attempts < job.maxAttempts)
              && (job.status == FAILED ==>
                    job.attempts == job.maxAttempts && w.executions[j] == job.maxAttempts * (1 + w.requeues[j]))
              && (job.status != PROCESSING ==> w.executions[j] == job.maxAttempts * w.requeues[j] + job.attempts)
  {
    hide OrderInv, GrantInv, EventsOk, KeysUnique, Covered, WorkersOk, Run;
    var w := Run(INIT, steps);
    ReachableOk(steps);
    if j in w.db.jobs {
      assert JobRowOk(w.db.orders, w.db.jobs[j]);
    }
  }

  /** recordFailure's separate read and write lose nothing: what it read is still there. */
  lemma AttemptsReadIsCurrent(steps: seq<Step>, p: Pid)
    ensures var w := Run(INIT, steps);
            p in w.workers && w.workers[p].Counted? ==>
              && w.workers[p].job in w.db.jobs
              && w.workers[p].attempts == w.db.jobs[w.workers[p].job].attempts
              && w.workers[p].maxAttempts == w.db.jobs[w.workers[p].job].maxAttempts
  {
    hide Inv, Run, WorkerOk;
    var w := Run(INIT, steps);
    ReachableOk(steps);
    if p in w.workers && w.workers[p].Counted? {
      HandFacts(w, p);
    }
  }

  // ---------------------------------------------------------------- downloads

  /** URLs handed out never pass the counter, and the counter never passes the limit. */
  lemma DownloadBudget(steps: seq<Step>, g: GrantId)
    ensures var w := Run(INIT, steps);
            g in w.db.grants ==>
              g in w.handed && w.handed[g] <= w.db.grants[g].downloadCount <= w.db.grants[g].maxDownloads
  {
    hide OrderInv, QueueInv, EventsOk, Run;
    ReachableOk(steps);
  }

  /** A line never has two live grants. */
  lemma OneLiveGrantPerLine(steps: seq<Step>, a: GrantId, b: GrantId)
    ensures var grants := Run(INIT, steps).db.grants;
            a in grants && b in grants && Live(grants[a]) && Live(grants[b]) && grants[a].item == grants[b].item ==>
              a == b
  {
    hide OrderInv, QueueInv, EventsOk, Run, GrantsOk, DownloadsOk, BudgetOk;
    ReachableOk(steps);
  }

  /** A revoked grant stays, revoked at the same instant, on the same line, with the same limit. */
  lemma RevocationIsFinal(steps: seq<Step>, more: seq<Step>, g: GrantId)
    requires g in Run(INIT, steps).db.grants && !Live(Run(INIT, steps).db.grants[g])
    ensures var before := Run(INIT, steps).db.grants;
            var after := Run(INIT, steps + more).db.grants;
            && g in after && after[g].revokedAt == before[g].revokedAt
            && after[g].item == before[g].item && after[g].maxDownloads == before[g].maxDownloads
  {
    hide Inv, Run, OrdersLater;
    ReachableOk(steps);
    RunSplits(INIT, steps, more);
    RunKeeps(Run(INIT, steps), more);
  }

  // ---------------------------------------------------------------- what one call leaves

  /**
   * The refund transaction keeps the charge on record, and after it no new
   * request passes the checks of a download of that order.
   */
  lemma RefundExact(db: Db, o: OrderId, now: Time)
    requires o in db.orders
    ensures var result := CommitRefund(db, o, now);
            && result.Some?
            && var after := result.value;
               && after.orders.Keys == db.orders.Keys && after.grants.Keys == db.grants.Keys && after.jobs == db.jobs
               && (forall x :: x in db.orders && x != o ==> after.orders[x] == db.orders[x])
               && after.orders[o].status == REFUNDED && after.orders[o].paidAt == db.orders[o].paidAt
               && after.orders[o].paymentIntent == db.orders[o].paymentIntent
               && after.orders[o].lines == db.orders[o].lines
               && (forall g, t :: g in db.grants && db.grants[g].item.order == o ==> !Downloadable(after, g, t))
               && (forall g :: g in db.grants && db.grants[g].item.order != o ==> after.grants[g] == db.grants[g])
               && (forall g :: g in db.grants ==>
                     after.grants[g].downloadCount == db.grants[g].downloadCount
                     && after.grants[g].item == db.grants[g].item)
  {
    var after := CommitRefund(db, o, now).value;
    forall g, t | g in db.grants && db.grants[g].item.order == o ensures !Downloadable(after, g, t) {
      if db.grants[g].item.index < |db.orders[o].lines| {
        assert !Live(after.grants[g]);
      }
    }
  }

  /** A retry leaves no failed job of its order, gives each a full new allowance, and touches no other job. */
  lemma RequeueExact(jobs: map<JobId, Job>, o: OrderId, now: Time)
    ensures var after := RequeueFailed(jobs, o, now);
            && after.Keys == jobs.Keys && FailedOf(after, o) == {}
            && (forall j :: j in jobs && j !in FailedOf(jobs, o) ==> after[j] == jobs[j])
            && (forall j :: j in FailedOf(jobs, o) ==>
                  Due(after, j, now) && after[j].attempts == 0 && after[j].maxAttempts == jobs[j].maxAttempts
                  && after[j].kind == jobs[j].kind && after[j].ref == jobs[j].ref
                  && after[j].orderId == jobs[j].orderId)
  {
    assert forall j :: j in jobs ==> j !in FailedOf(RequeueFailed(jobs, o, now), o);
  }
}
