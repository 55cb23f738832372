/**
 * Moves of the order table, and of the requests that read it, keep the invariant.
 *
 * The frame lemmas say that a change of the orders which only moves rows forward
 * (same lines, charges and submissions kept) leaves the parts of the invariant
 * about jobs, passes, grants and requests as they were. The move lemmas then add
 * what each kind of change owes: one row written, unpaid rows deleted, a request
 * added or dropped. Every step that touches an order is proved from these.
 */
module OrderProof {
  import opened Prelude
  import opened Store
  import opened Protocol
  import opened Invariant

  // ---------------------------------------------------------------- frames

  /** Orders may be added, dropped while uncharged, and evolve. */
  ghost predicate Kept(before: map<OrderId, Order>, after: map<OrderId, Order>) {
    OrdersOk(before) && OrdersOk(after) && OrdersLater(before, after)
  }

  lemma JobsFrame(before: map<OrderId, Order>, after: map<OrderId, Order>, jobs: map<JobId, Job>)
    requires Kept(before, after) && JobsOk(before, jobs)
    ensures JobsOk(after, jobs)
  {
    forall j | j in jobs ensures JobRowOk(after, jobs[j]) {
      assert JobRowOk(before, jobs[j]);
      if jobs[j].orderId.Some? {
        assert IsPaid(before, jobs[j].orderId.value);
      }
    }
  }

  lemma WorkerFrame(before: map<OrderId, Order>, after: map<OrderId, Order>, jobs: map<JobId, Job>, p: Pid,
                    worker: Worker, owner: map<JobId, Pid>, executions: map<JobId, nat>, requeues: map<JobId, nat>)
    requires Kept(before, after) && JobsOk(before, jobs)
    requires WorkerOk(p, worker, before, jobs, owner, executions, requeues)
    ensures WorkerOk(p, worker, after, jobs, owner, executions, requeues)
  {
    if InHand(worker) {
      var job := jobs[worker.job];
      assert JobRowOk(before, job);
      if job.orderId.Some? {
        assert IsPaid(before, job.orderId.value);
        assert OrderRowOk(before[job.orderId.value]) && OrderRowOk(after[job.orderId.value]);
      }
    }
  }

  lemma WorkersFrame(w: World, after: map<OrderId, Order>)
    requires Kept(w.db.orders, after) && JobsOk(w.db.orders, w.db.jobs)
    requires WorkersOk(w.workers, w.db.orders, w.db.jobs, w.owner, w.executions, w.requeues)
    ensures WorkersOk(w.workers, after, w.db.jobs, w.owner, w.executions, w.requeues)
  {
    forall p | p in w.workers
      ensures WorkerOk(p, w.workers[p], after, w.db.jobs, w.owner, w.executions, w.requeues)
    {
      WorkerFrame(w.db.orders, after, w.db.jobs, p, w.workers[p], w.owner, w.executions, w.requeues);
    }
  }

  lemma GrantsFrame(before: map<OrderId, Order>, after: map<OrderId, Order>, grants: map<GrantId, Grant>)
    requires Kept(before, after) && GrantsOk(before, grants)
    ensures GrantsOk(after, grants)
  {
  }

  lemma RequestsFrame(
      before: map<OrderId, Order>, after: map<OrderId, Order>, requests: map<Pid, Request>, used: set<OrderId>)
    requires Kept(before, after) && RequestsOk(requests, before, used)
    requires after.Keys <= before.Keys
    ensures RequestsOk(requests, after, used)
  {
    forall p | p in requests ensures RequestOk(requests[p], after, used) {
      assert RequestOk(requests[p], before, used);
    }
  }

  lemma CoveredFrame(before: map<OrderId, Order>, after: map<OrderId, Order>, jobs: map<JobId, Job>)
    requires Covered(before, jobs)
    requires forall o :: IsPaid(after, o) && after[o].submittedAt.None? ==>
               IsPaid(before, o) && before[o].submittedAt.None? && before[o].lines == after[o].lines
    ensures Covered(after, jobs)
  {
    forall o | IsPaid(after, o) && after[o].submittedAt.None?
      ensures Owed(jobs, o, DeliveryKind(after[o].lines))
    {
      assert Owed(jobs, o, DeliveryKind(before[o].lines));
    }
  }

  lemma GrantsStay(grants: map<GrantId, Grant>)
    ensures GrantsLater(grants, grants)
  {
  }

  lemma OrdersStay(orders: map<OrderId, Order>)
    ensures OrdersLater(orders, orders)
  {
  }

  // ---------------------------------------------------------------- moves

  /** Every step that only touches the order table reduces to this. */
  lemma OrdersMove(w: World, after: map<OrderId, Order>)
    requires Inv(w) && Kept(w.db.orders, after)
    requires after.Keys <= w.db.orders.Keys
    requires IntentsUnique(after) && LinesOk(after, w.db.variants)
    requires RequestsOk(w.requests, after, w.usedOrders)
    requires Covered(after, w.db.jobs)
    ensures Inv(w.(db := w.db.(orders := after)))
    ensures Later(w, w.(db := w.db.(orders := after)))
  {
    hide OrdersOk, IntentsUnique, LinesOk, VariantsOk, RequestsOk, JobsOk, KeysUnique, Covered, CountsOk,
         WorkersOk, GrantsOk, OneLive, DownloadsOk, BudgetOk, EventsOk, OrdersLater, GrantsLater;
    JobsFrame(w.db.orders, after, w.db.jobs);
    WorkersFrame(w, after);
    GrantsFrame(w.db.orders, after, w.db.grants);
    GrantsStay(w.db.grants);
  }

  /** Rewriting one order row so that it only evolves keeps everything. */
  lemma SetOrderKeeps(w: World, o: OrderId, row: Order)
    requires Inv(w) && o in w.db.orders
    requires OrderRowOk(row) && Evolves(w.db.orders[o], row)
    requires row.paymentIntent == w.db.orders[o].paymentIntent
    ensures Inv(w.(db := SetOrder(w.db, o, row)))
    ensures Later(w, w.(db := SetOrder(w.db, o, row)))
  {
    hide JobsOk, KeysUnique, CountsOk, WorkersOk, GrantsOk, OneLive, DownloadsOk, BudgetOk, EventsOk, GrantsLater;
    var after := w.db.orders[o := row];
    assert OrderRowOk(w.db.orders[o]);
    CoveredFrame(w.db.orders, after, w.db.jobs);
    RequestsFrame(w.db.orders, after, w.requests, w.usedOrders);
    OrdersMove(w, after);
  }

  /** A deletion the trigger lets through takes no job and no grant along. */
  lemma DeleteOrdersKeeps(w: World, victims: set<OrderId>)
    requires Inv(w) && DeleteOrders(w.db, victims).Some?
    ensures var db1 := DeleteOrders(w.db, victims).value;
            && db1.jobs == w.db.jobs && db1.grants == w.db.grants
            && Inv(w.(db := db1)) && Later(w, w.(db := db1))
  {
    hide KeysUnique, CountsOk, WorkersOk, OneLive, DownloadsOk, BudgetOk, EventsOk, GrantsLater;
    var db1 := DeleteOrders(w.db, victims).value;
    forall j | j in w.db.jobs ensures j in db1.jobs {
      assert JobRowOk(w.db.orders, w.db.jobs[j]);
    }
    assert db1.jobs == w.db.jobs;
    assert db1.grants == w.db.grants;
    CoveredFrame(w.db.orders, db1.orders, w.db.jobs);
    RequestsFrame(w.db.orders, db1.orders, w.requests, w.usedOrders);
    OrdersMove(w, db1.orders);
    assert db1 == w.db.(orders := db1.orders);
  }

  /** A request moves on, or ends, without touching a table. */
  lemma RequestMove(w: World, requests: map<Pid, Request>)
    requires Inv(w)
    requires RequestsOk(requests, w.db.orders, w.usedOrders)
    requires EventsOk(requests, w.db.events, w.dispatched)
    ensures Inv(w.(requests := requests)) && Later(w, w.(requests := requests))
  {
    hide OrdersOk, IntentsUnique, LinesOk, VariantsOk, RequestsOk, JobsOk, KeysUnique, Covered, CountsOk,
         WorkersOk, GrantsOk, OneLive, DownloadsOk, BudgetOk, EventsOk, OrdersLater, GrantsLater;
    OrdersStay(w.db.orders);
    GrantsStay(w.db.grants);
  }

  lemma EndRequestKeeps(w: World, p: Pid)
    requires Inv(w)
    ensures Inv(EndRequest(w, p)) && Later(w, EndRequest(w, p))
  {
    RequestMove(w, Drop(w.requests, p));
  }

  /** A new stage for one request that holds no unprocessed event. */
  lemma SetRequestKeeps(w: World, p: Pid, r: Request)
    requires Inv(w) && !r.EventClaimed?
    requires RequestOk(r, w.db.orders, w.usedOrders)
    ensures Inv(w.(requests := w.requests[p := r])) && Later(w, w.(requests := w.requests[p := r]))
  {
    RequestMove(w, w.requests[p := r]);
  }

  lemma LaterTrans(a: World, b: World, c: World)
    requires Later(a, b) && Later(b, c)
    requires a.db.orders.Keys <= a.usedOrders
    ensures Later(a, c)
  {
  }
}
