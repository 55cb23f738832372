/**
 * Moves of the job table and of the passes that own its rows keep the invariant.
 *
 * A pass owns the jobs it claimed until it writes their outcome. The lemmas here
 * move one pass, drop one, or write one row, and say what has to hold of the rows
 * and of their owners for the whole invariant to survive; the bookkeeping of
 * executions and requeues is carried along. The steps of the queue, of the purge
 * and of the retry are proved from these.
 */
module QueueProof {
  import opened Prelude
  import opened Store
  import opened Protocol
  import opened Invariant
  import opened OrderProof

  // ---------------------------------------------------------------- frames

  ghost predicate Unowned(workers: map<Pid, Worker>, j: JobId) {
    forall p :: p in workers ==> j !in Owned(workers[p])
  }

  /** What a pass relies on about one job it holds. */
  ghost predicate SameFor(w: World, j: JobId, jobs: map<JobId, Job>, owner: map<JobId, Pid>,
                          executions: map<JobId, nat>, requeues: map<JobId, nat>) {
    && j in w.db.jobs && j in jobs && jobs[j] == w.db.jobs[j]
    && j in w.owner && j in owner && owner[j] == w.owner[j]
    && j in w.executions && j in executions && executions[j] == w.executions[j]
    && j in w.requeues && j in requeues && requeues[j] == w.requeues[j]
  }

  lemma WorkersKeep(w: World, jobs: map<JobId, Job>, owner: map<JobId, Pid>,
                    executions: map<JobId, nat>, requeues: map<JobId, nat>)
    requires WorkersOk(w.workers, w.db.orders, w.db.jobs, w.owner, w.executions, w.requeues)
    requires forall p, j :: p in w.workers && j in Owned(w.workers[p]) ==>
             SameFor(w, j, jobs, owner, executions, requeues)
    ensures WorkersOk(w.workers, w.db.orders, jobs, owner, executions, requeues)
  {
    forall p | p in w.workers
      ensures WorkerOk(p, w.workers[p], w.db.orders, jobs, owner, executions, requeues)
    {
      var held := Owned(w.workers[p]);
      assert WorkerOk(p, w.workers[p], w.db.orders, w.db.jobs, w.owner, w.executions, w.requeues);
      assert forall i :: 0 <= i < |held| ==> SameFor(w, held[i], jobs, owner, executions, requeues);
      if InHand(w.workers[p]) {
        assert held[0] == w.workers[p].job;
      }
    }
  }

  /** A job some pass holds is PROCESSING, and that pass is its owner. */
  lemma OwnedFacts(w: World, p: Pid, j: JobId)
    requires WorkersOk(w.workers, w.db.orders, w.db.jobs, w.owner, w.executions, w.requeues)
    requires p in w.workers && j in Owned(w.workers[p])
    ensures j in w.db.jobs && w.db.jobs[j].status == PROCESSING
    ensures j in w.owner && w.owner[j] == p
    ensures SameFor(w, j, w.db.jobs, w.owner, w.executions, w.requeues)
  {
    assert WorkerOk(p, w.workers[p], w.db.orders, w.db.jobs, w.owner, w.executions, w.requeues);
  }

  // ---------------------------------------------------------------- moves

  lemma QueueMove(w: World, jobs: map<JobId, Job>, owner: map<JobId, Pid>,
                  executions: map<JobId, nat>, requeues: map<JobId, nat>)
    requires Inv(w)
    requires JobsOk(w.db.orders, jobs) && KeysUnique(jobs) && Covered(w.db.orders, jobs)
    requires CountsOk(jobs, executions, requeues)
    requires WorkersOk(w.workers, w.db.orders, jobs, owner, executions, requeues)
    ensures var w' := w.(db := w.db.(jobs := jobs), owner := owner, executions := executions, requeues := requeues);
            Inv(w') && Later(w, w')
  {
    hide OrdersOk, IntentsUnique, LinesOk, VariantsOk, RequestsOk, JobsOk, KeysUnique, Covered, CountsOk,
         WorkersOk, GrantsOk, OneLive, DownloadsOk, BudgetOk, EventsOk, OrdersLater, GrantsLater;
    OrdersStay(w.db.orders);
    GrantsStay(w.db.grants);
  }

  lemma WorkersMove(w: World, workers: map<Pid, Worker>)
    requires Inv(w)
    requires WorkersOk(workers, w.db.orders, w.db.jobs, w.owner, w.executions, w.requeues)
    ensures Inv(w.(workers := workers)) && Later(w, w.(workers := workers))
  {
    hide OrdersOk, IntentsUnique, LinesOk, VariantsOk, RequestsOk, JobsOk, KeysUnique, Covered, CountsOk,
         WorkersOk, GrantsOk, OneLive, DownloadsOk, BudgetOk, EventsOk, OrdersLater, GrantsLater;
    OrdersStay(w.db.orders);
    GrantsStay(w.db.grants);
  }

  lemma SetWorkerKeeps(w: World, p: Pid, next: Worker)
    requires Inv(w)
    requires WorkerOk(p, next, w.db.orders, w.db.jobs, w.owner, w.executions, w.requeues)
    ensures Inv(SetWorker(w, p, next)) && Later(w, SetWorker(w, p, next))
  {
    hide WorkerOk, OrderInv, GrantInv, EventsOk, Later;
    WorkersMove(w, w.workers[p := next]);
  }

  lemma DropWorkerKeeps(w: World, p: Pid)
    requires Inv(w)
    ensures Inv(w.(workers := Drop(w.workers, p))) && Later(w, w.(workers := Drop(w.workers, p)))
  {
    hide WorkerOk, OrderInv, GrantInv, EventsOk, Later;
    WorkersMove(w, Drop(w.workers, p));
  }

  /** The same job after a call that rewrites its row: identity and order stay. */
  predicate SameIdentity(a: Job, b: Job) {
    a.kind == b.kind && a.ref == b.ref && a.orderId == b.orderId
  }

  lemma CoveredByRow(orders: map<OrderId, Order>, jobs: map<JobId, Job>, j: JobId, row: Job)
    requires JobsOk(orders, jobs) && Covered(orders, jobs) && j in jobs
    requires SameIdentity(jobs[j], row) && JobRowOk(orders, row)
    ensures Covered(orders, jobs[j := row])
  {
    forall o | IsPaid(orders, o) && orders[o].submittedAt.None?
      ensures Owed(jobs[j := row], o, DeliveryKind(orders[o].lines))
    {
      var kind := DeliveryKind(orders[o].lines);
      assert Owed(jobs, o, kind);
      var k :| k in jobs && jobs[k].orderId == Some(o) && jobs[k].kind == kind && jobs[k].status != DONE;
      assert k in jobs[j := row] && jobs[j := row][k].orderId == Some(o) && jobs[j := row][k].kind == kind;
      assert jobs[j := row][k].status != DONE;
    }
  }

  /** Rewriting the row of a job no pass holds. */
  lemma SetJobKeeps(w: World, j: JobId, row: Job)
    requires Inv(w) && j in w.db.jobs && Unowned(w.workers, j)
    requires SameIdentity(w.db.jobs[j], row) && JobRowOk(w.db.orders, row) && row.status != PROCESSING
    requires j in w.executions && j in w.requeues && w.executions[j] == Settled(row, w.requeues[j])
    ensures var w' := w.(db := w.db.(jobs := w.db.jobs[j := row])); Inv(w') && Later(w, w')
  {
    hide OrderInv, GrantInv, EventsOk, Later, WorkersOk, Covered;
    var jobs := w.db.jobs[j := row];
    CoveredByRow(w.db.orders, w.db.jobs, j, row);
    assert WorkersOk(w.workers, w.db.orders, jobs, w.owner, w.executions, w.requeues) by {
      forall p, k | p in w.workers && k in Owned(w.workers[p])
        ensures SameFor(w, k, jobs, w.owner, w.executions, w.requeues)
      {
        OwnedFacts(w, p, k);
      }
      WorkersKeep(w, jobs, w.owner, w.executions, w.requeues);
    }
    QueueMove(w, jobs, w.owner, w.executions, w.requeues);
  }

  /** A pass lets go of the job in hand, or of the first one not begun. */
  lemma LetGo(w: World, p: Pid, j: JobId, q: seq<JobId>, next: Worker)
    requires Inv(w) && p in w.workers && Owned(w.workers[p]) == [j] + q
    requires Owned(next) == q && !InHand(next) && !next.Reading?
    requires next.Escalating? ==> IsPaid(w.db.orders, next.order)
    ensures Inv(SetWorker(w, p, next)) && Later(w, SetWorker(w, p, next))
    ensures Unowned(SetWorker(w, p, next).workers, j)
    ensures j in w.db.jobs && w.db.jobs[j].status == PROCESSING && j in w.executions && j in w.requeues
    ensures w.executions[j] == Settled(w.db.jobs[j], w.requeues[j]) + (if InHand(w.workers[p]) then 1 else 0)
  {
    hide OrderInv, GrantInv, EventsOk, Later, JobsOk, KeysUnique, Covered, CountsOk;
    var held := [j] + q;
    assert WorkerOk(p, w.workers[p], w.db.orders, w.db.jobs, w.owner, w.executions, w.requeues);
    assert held[0] == j;
    assert forall i :: 0 <= i < |q| ==> held[i + 1] == q[i];
    assert NoDup(q);
    SetWorkerKeeps(w, p, next);
    forall r | r in w.workers && r != p ensures j !in Owned(w.workers[r]) {
      if j in Owned(w.workers[r]) {
        OwnedFacts(w, r, j);
        OwnedFacts(w, p, j);
      }
    }
  }
}
