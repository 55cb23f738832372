/**
 * Every step of the queue, and the payment transaction that feeds it, keeps the invariant.
 *
 * The payment adds two jobs at most, one of them the delivery that covers the order
 * it charges; a contact message adds one. Each is a change of the job table with
 * an obligation to the passes at work: rows they hold stay as they are, no key is
 * used twice, and every charged order keeps a job that owes it its delivery.
 * The table facts come first and the step of the protocol after them.
 */
module QueueSteps {
  import opened Prelude
  import opened Store
  import opened Protocol
  import opened Invariant
  import opened OrderProof
  import opened QueueProof
  import opened GrantProof
  import opened ShopSteps

  // ---------------------------------------------------------------- enqueueing

  /** The old rows are untouched and every new one is waiting, never tried. */
  ghost predicate Grew(before: map<JobId, Job>, after: map<JobId, Job>) {
    && (forall j :: j in before ==> j in after && after[j] == before[j])
    && (forall j :: j in after && j !in before ==> after[j].status == PENDING && after[j].attempts == 0)
  }

  lemma EnqueueKeeps(orders: map<OrderId, Order>, jobs: map<JobId, Job>, id: JobId, kind: JobKind, ref: nat,
                     orderId: Option<OrderId>, now: Time)
    requires JobsOk(orders, jobs) && KeysUnique(jobs) && id !in jobs
    requires JobRowOk(orders, NewJob(kind, ref, orderId, now))
    ensures var after := Enqueue(jobs, id, kind, ref, orderId, now);
            JobsOk(orders, after) && KeysUnique(after) && Grew(jobs, after) && KeyTaken(after, kind, ref)
            && forall j :: j in after && j !in jobs ==> j == id
  {
    var after := Enqueue(jobs, id, kind, ref, orderId, now);
    if !KeyTaken(jobs, kind, ref) {
      assert after[id].kind == kind && after[id].ref == ref;
    }
  }

  /** Whoever holds a delivery key of a charged order is that order's own job. */
  lemma KeyHolderOwes(orders: map<OrderId, Order>, jobs: map<JobId, Job>, o: OrderId)
    requires JobsOk(orders, jobs) && IsPaid(orders, o) && orders[o].submittedAt.None?
    requires KeyTaken(jobs, DeliveryKind(orders[o].lines), o)
    ensures Owed(jobs, o, DeliveryKind(orders[o].lines))
  {
    var kind := DeliveryKind(orders[o].lines);
    var j :| j in jobs && jobs[j].kind == kind && jobs[j].ref == o;
    assert JobRowOk(orders, jobs[j]);
    assert jobs[j].orderId == Some(o) && jobs[j].status != DONE;
  }

  lemma CoveredGrows(orders: map<OrderId, Order>, before: map<JobId, Job>, after: map<JobId, Job>)
    requires Covered(orders, before) && Grew(before, after)
    ensures Covered(orders, after)
  {
    forall o | IsPaid(orders, o) && orders[o].submittedAt.None?
      ensures Owed(after, o, DeliveryKind(orders[o].lines))
    {
      var kind := DeliveryKind(orders[o].lines);
      assert Owed(before, o, kind);
      var j :| j in before && before[j].orderId == Some(o) && before[j].kind == kind && before[j].status != DONE;
      assert j in after && after[j] == before[j];
    }
  }

  /** The bookkeeping of a grown table, and the passes that saw the old one. */
  lemma GrownQueue(w: World, jobs: map<JobId, Job>)
    requires QueueInv(w) && Grew(w.db.jobs, jobs)
    ensures CountsOk(jobs, NewJobs(w, jobs).executions, NewJobs(w, jobs).requeues)
    ensures WorkersOk(w.workers, w.db.orders, jobs, w.owner, NewJobs(w, jobs).executions, NewJobs(w, jobs).requeues)
  {
    hide JobsOk, KeysUnique, Covered, WorkerOk;
    var w1 := NewJobs(w, jobs);
    forall p, k | p in w.workers && k in Owned(w.workers[p])
      ensures SameFor(w, k, jobs, w.owner, w1.executions, w1.requeues)
    {
      OwnedFacts(w, p, k);
    }
    WorkersKeep(w, jobs, w.owner, w1.executions, w1.requeues);
  }

  lemma EnqueueContactKeeps(w: World, j: JobId, ref: nat)
    requires Inv(w) && FreshJob(w, j)
    ensures var w' := NewJobs(w, Enqueue(w.db.jobs, j, SEND_CONTACT_MESSAGE, ref, None, w.now)); Inv(w') && Later(w, w')
  {
    hide OrderInv, GrantInv, EventsOk, Later, JobsOk, KeysUnique, Covered, CountsOk, WorkersOk, Grew, Enqueue;
    var jobs := Enqueue(w.db.jobs, j, SEND_CONTACT_MESSAGE, ref, None, w.now);
    var w' := NewJobs(w, jobs);
    EnqueueKeeps(w.db.orders, w.db.jobs, j, SEND_CONTACT_MESSAGE, ref, None, w.now);
    CoveredGrows(w.db.orders, w.db.jobs, jobs);
    GrownQueue(w, jobs);
    QueueMove(w, jobs, w.owner, w'.executions, w'.requeues);
    assert w' == w.(db := w.db.(jobs := jobs), owner := w.owner, executions := w'.executions, requeues := w'.requeues);
  }

  // ---------------------------------------------------------------- the payment transaction

  lemma PaidOrderTables(w: World, o: OrderId, intent: IntentId)
    requires OrderInv(w) && o in w.db.orders && IntentFree(w.db.orders, o, intent)
    ensures var after := w.db.orders[o := PaidRow(w.db.orders[o], intent, w.now)];
            && Kept(w.db.orders, after) && IntentsUnique(after) && LinesOk(after, w.db.variants)
            && RequestsOk(w.requests, after, w.usedOrders) && IsPaid(after, o)
            && forall x :: IsPaid(after, x) && x != o ==> IsPaid(w.db.orders, x) && after[x] == w.db.orders[x]
  {
    var after := w.db.orders[o := PaidRow(w.db.orders[o], intent, w.now)];
    assert OrderRowOk(w.db.orders[o]);
    assert OrderRowOk(after[o]);
    RequestsFrame(w.db.orders, after, w.requests, w.usedOrders);
  }

  lemma PaidJobs(after: map<OrderId, Order>, jobs: map<JobId, Job>, o: OrderId, j1: JobId, j2: JobId, now: Time)
    requires JobsOk(after, jobs) && KeysUnique(jobs) && IsPaid(after, o)
    requires j1 !in jobs && j2 !in jobs && j1 != j2
    ensures var jobs1 := Enqueue(jobs, j1, SEND_ORDER_CONFIRMATION, o, Some(o), now);
            var jobs2 := Enqueue(jobs1, j2, DeliveryKind(after[o].lines), o, Some(o), now);
            && JobsOk(after, jobs2) && KeysUnique(jobs2) && Grew(jobs, jobs2)
            && KeyTaken(jobs2, DeliveryKind(after[o].lines), o)
  {
    hide JobsOk, KeysUnique, KeyTaken, Enqueue;
    var jobs1 := Enqueue(jobs, j1, SEND_ORDER_CONFIRMATION, o, Some(o), now);
    EnqueueKeeps(after, jobs, j1, SEND_ORDER_CONFIRMATION, o, Some(o), now);
    EnqueueKeeps(after, jobs1, j2, DeliveryKind(after[o].lines), o, Some(o), now);
  }

  lemma CoveredByPayment(before: map<OrderId, Order>, after: map<OrderId, Order>, o: OrderId,
                         jobs: map<JobId, Job>, jobs': map<JobId, Job>)
    requires Covered(before, jobs) && Grew(jobs, jobs') && JobsOk(after, jobs')
    requires IsPaid(after, o) && KeyTaken(jobs', DeliveryKind(after[o].lines), o)
    requires forall x :: IsPaid(after, x) && x != o ==> IsPaid(before, x) && after[x] == before[x]
    ensures Covered(after, jobs')
  {
    CoveredGrows(before, jobs, jobs');
    forall x | IsPaid(after, x) && after[x].submittedAt.None?
      ensures Owed(jobs', x, DeliveryKind(after[x].lines))
    {
      if x == o {
        KeyHolderOwes(after, jobs', o);
      } else {
        assert Owed(jobs', x, DeliveryKind(before[x].lines));
      }
    }
  }

  /** The payment and its two jobs appear together, so no charged order is ever uncovered. */
  lemma CommitPaymentKeeps(w: World, o: OrderId, intent: IntentId, lines: seq<Line>, j1: JobId, j2: JobId)
    requires Inv(w) && CommitPayment(w.db, o, intent, lines, j1, j2, w.now).Some?
    requires w.db.orders[o].lines == lines && FreshJob(w, j1) && FreshJob(w, j2) && j1 != j2
    ensures var db1 := CommitPayment(w.db, o, intent, lines, j1, j2, w.now).value;
            var w' := NewJobs(w, db1.jobs).(db := db1); Inv(w') && Later(w, w')
  {
    hide OrdersOk, IntentsUnique, LinesOk, VariantsOk, RequestsOk, JobsOk, KeysUnique, Covered, CountsOk,
         WorkersOk, GrantsOk, OneLive, DownloadsOk, BudgetOk, EventsOk, OrdersLater, GrantsLater,
         Grew, KeyTaken, Enqueue, NewJobs, IntentFree;
    var db1 := CommitPayment(w.db, o, intent, lines, j1, j2, w.now).value;
    PaidOrderTables(w, o, intent);
    JobsFrame(w.db.orders, db1.orders, w.db.jobs);
    PaidJobs(db1.orders, w.db.jobs, o, j1, j2, w.now);
    CoveredByPayment(w.db.orders, db1.orders, o, w.db.jobs, db1.jobs);
    GrownQueue(w, db1.jobs);
    var w1 := NewJobs(w, db1.jobs);
    NewJobsShape(w, db1.jobs);
    QueueAfterPayment(w, w1, db1.orders, db1.jobs);
    GrantsFrame(w.db.orders, db1.orders, w.db.grants);
    GrantsStay(w.db.grants);
  }

  lemma NewJobsShape(w: World, jobs: map<JobId, Job>)
    ensures var w1 := NewJobs(w, jobs);
            w1 == w.(db := w.db.(jobs := jobs), executions := w1.executions, requeues := w1.requeues)
  {
  }

  /** A paid row changes nothing a pass relies on. */
  lemma WorkerAfterPayment(w: World, w1: World, p: Pid, orders: map<OrderId, Order>, jobs: map<JobId, Job>)
    requires Kept(w.db.orders, orders) && JobsOk(w.db.orders, w.db.jobs) && Grew(w.db.jobs, jobs) && p in w.workers
    requires WorkerOk(p, w.workers[p], w.db.orders, w.db.jobs, w.owner, w.executions, w.requeues)
    requires WorkerOk(p, w.workers[p], w.db.orders, jobs, w.owner, w1.executions, w1.requeues)
    ensures WorkerOk(p, w.workers[p], orders, jobs, w.owner, w1.executions, w1.requeues)
  {
    hide Settled;
    if InHand(w.workers[p]) {
      var j := w.workers[p].job;
      assert j in w.db.jobs && jobs[j] == w.db.jobs[j];
      assert JobRowOk(w.db.orders, w.db.jobs[j]);
    }
  }

  lemma QueueAfterPayment(w: World, w1: World, orders: map<OrderId, Order>, jobs: map<JobId, Job>)
    requires Kept(w.db.orders, orders) && JobsOk(orders, jobs) && JobsOk(w.db.orders, w.db.jobs)
    requires WorkersOk(w.workers, w.db.orders, w.db.jobs, w.owner, w.executions, w.requeues)
    requires WorkersOk(w.workers, w.db.orders, jobs, w.owner, w1.executions, w1.requeues)
    requires Grew(w.db.jobs, jobs)
    ensures WorkersOk(w.workers, orders, jobs, w.owner, w1.executions, w1.requeues)
  {
    hide WorkerOk, Kept, JobsOk, Grew;
    forall p | p in w.workers
      ensures WorkerOk(p, w.workers[p], orders, jobs, w.owner, w1.executions, w1.requeues)
    {
      assert WorkerOk(p, w.workers[p], w.db.orders, w.db.jobs, w.owner, w.executions, w.requeues);
      assert WorkerOk(p, w.workers[p], w.db.orders, jobs, w.owner, w1.executions, w1.requeues);
      WorkerAfterPayment(w, w1, p, orders, jobs);
    }
  }

  lemma PaymentCommitKeeps(w: World, p: Pid, j1: JobId, j2: JobId)
    requires Inv(w)
    ensures Inv(DoPaymentCommit(w, p, j1, j2)) && Later(w, DoPaymentCommit(w, p, j1, j2))
  {
    hide OrdersOk, IntentsUnique, LinesOk, VariantsOk, QueueInv, GrantInv, EventsOk, Later, FreshJob, NewJobs;
    StayKeeps(w);
    if p in w.requests && w.requests[p].PaymentRead? && FreshJob(w, j1) && FreshJob(w, j2) && j1 != j2 {
      var PaymentRead(o, intent, lines) := w.requests[p];
      assert RequestOk(w.requests[p], w.db.orders, w.usedOrders);
      EndRequestKeeps(w, p);
      var result := CommitPayment(w.db, o, intent, lines, j1, j2, w.now);
      if result.Some? {
        CommitPaymentKeeps(w, o, intent, lines, j1, j2);
        EndAfter(w, NewJobs(w, result.value.jobs).(db := result.value), p);
      }
    }
  }
}
