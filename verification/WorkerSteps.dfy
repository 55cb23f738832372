/**
 * Every step of an outbox pass, of the job purge and of the retry keeps the invariant.
 *
 * From the batch a pass reads to the outcome it writes: a claim may be partial, a
 * pass may die anywhere, and what it read before may have changed since. The lemmas
 * follow one pass through its stages; what it holds is PROCESSING and its own, so
 * the rows it read are still the ones it writes, and an order is submitted before
 * its delivery is done.
 */
module WorkerSteps {
  import opened Prelude
  import opened Store
  import opened Protocol
  import opened Invariant
  import opened OrderProof
  import opened QueueProof
  import opened GrantProof
  import opened ShopSteps
  import Backoff

  // ---------------------------------------------------------------- purge and requeue

  lemma PurgeJobsKeeps(w: World, limit: Time)
    requires Inv(w)
    ensures var w' := w.(db := w.db.(jobs := PurgeDone(w.db.jobs, limit))); Inv(w') && Later(w, w')
  {
    hide OrderInv, GrantInv, EventsOk, Later, WorkersOk;
    var jobs := PurgeDone(w.db.jobs, limit);
    forall o | IsPaid(w.db.orders, o) && w.db.orders[o].submittedAt.None?
      ensures Owed(jobs, o, DeliveryKind(w.db.orders[o].lines))
    {
      var kind := DeliveryKind(w.db.orders[o].lines);
      assert Owed(w.db.jobs, o, kind);
      var j :|
        j in w.db.jobs && w.db.jobs[j].orderId == Some(o) && w.db.jobs[j].kind == kind && w.db.jobs[j].status != DONE;
      assert j in jobs;
    }
    forall p, k | p in w.workers && k in Owned(w.workers[p])
      ensures SameFor(w, k, jobs, w.owner, w.executions, w.requeues)
    {
      OwnedFacts(w, p, k);
    }
    WorkersKeep(w, jobs, w.owner, w.executions, w.requeues);
    QueueMove(w, jobs, w.owner, w.executions, w.requeues);
    assert w.(db := w.db.(jobs := jobs), owner := w.owner, executions := w.executions, requeues := w.requeues)
        == w.(db := w.db.(jobs := jobs));
  }

  function Requeued(w: World, o: OrderId): map<JobId, nat> {
    map j | j in w.requeues :: if j in FailedOf(w.db.jobs, o) then w.requeues[j] + 1 else w.requeues[j]
  }

  lemma RequeuedOwed(jobs: map<JobId, Job>, o: OrderId, now: Time, x: OrderId, kind: JobKind)
    requires Owed(jobs, x, kind)
    ensures Owed(RequeueFailed(jobs, o, now), x, kind)
  {
    var j :| j in jobs && jobs[j].orderId == Some(x) && jobs[j].kind == kind && jobs[j].status != DONE;
    assert j in RequeueFailed(jobs, o, now);
  }

  lemma RequeuedCounts(w: World, o: OrderId)
    requires CountsOk(w.db.jobs, w.executions, w.requeues) && JobsOk(w.db.orders, w.db.jobs)
    ensures CountsOk(RequeueFailed(w.db.jobs, o, w.now), w.executions, Requeued(w, o))
  {
    forall j | j in w.db.jobs ensures w.db.jobs[j].status == FAILED ==> w.db.jobs[j].attempts == MAX_ATTEMPTS {
      assert JobRowOk(w.db.orders, w.db.jobs[j]);
    }
  }

  lemma RequeueTables(w: World, o: OrderId)
    requires QueueInv(w)
    ensures var jobs := RequeueFailed(w.db.jobs, o, w.now);
            && JobsOk(w.db.orders, jobs) && KeysUnique(jobs) && Covered(w.db.orders, jobs)
            && CountsOk(jobs, w.executions, Requeued(w, o))
  {
    hide WorkersOk, CountsOk, Owed;
    var jobs := RequeueFailed(w.db.jobs, o, w.now);
    RequeuedCounts(w, o);
    forall j | j in jobs ensures JobRowOk(w.db.orders, jobs[j]) {
      assert JobRowOk(w.db.orders, w.db.jobs[j]);
    }
    forall x | IsPaid(w.db.orders, x) && w.db.orders[x].submittedAt.None?
      ensures Owed(jobs, x, DeliveryKind(w.db.orders[x].lines))
    {
      RequeuedOwed(w.db.jobs, o, w.now, x, DeliveryKind(w.db.orders[x].lines));
    }
  }

  lemma RequeueRetryKeeps(w: World, p: Pid)
    requires Inv(w)
    ensures Inv(DoRequeueRetry(w, p)) && Later(w, DoRequeueRetry(w, p))
  {
    hide OrdersOk, IntentsUnique, LinesOk, VariantsOk, GrantInv, EventsOk, Later,
         JobsOk, KeysUnique, Covered, CountsOk, WorkersOk;
    StayKeeps(w);
    if p in w.requests && w.requests[p].RetryChecked? {
      var o := w.requests[p].order;
      EndRequestKeeps(w, p);
      assert RequestOk(w.requests[p], w.db.orders, w.usedOrders);
      var jobs := RequeueFailed(w.db.jobs, o, w.now);
      RequeueTables(w, o);
      forall q, k | q in w.workers && k in Owned(w.workers[q])
        ensures SameFor(w, k, jobs, w.owner, w.executions, Requeued(w, o))
      {
        OwnedFacts(w, q, k);
      }
      WorkersKeep(w, jobs, w.owner, w.executions, Requeued(w, o));
      QueueMove(w, jobs, w.owner, w.executions, Requeued(w, o));
      var w1 := w.(db := w.db.(jobs := jobs), owner := w.owner, executions := w.executions, requeues := Requeued(w, o));
      RequestAfter(w, w1, p, RetryRequeued(o));
    }
  }

  lemma RequestAfter(w: World, w1: World, p: Pid, r: Request)
    requires Inv(w) && Inv(w1) && Later(w, w1)
    requires !r.EventClaimed? && RequestOk(r, w1.db.orders, w1.usedOrders)
    ensures Inv(w1.(requests := w1.requests[p := r])) && Later(w, w1.(requests := w1.requests[p := r]))
  {
    hide *;
    OrdersUsed(w);
    SetRequestKeeps(w1, p, r);
    LaterTrans(w, w1, w1.(requests := w1.requests[p := r]));
  }

  // ---------------------------------------------------------------- claiming

  /** A count equal to the batch size means every row asked for was hit. */
  lemma FullCount(jobs: map<JobId, Job>, ids: seq<JobId>)
    requires NoDup(ids) && |Claimable(jobs, ids)| == |ids|
    ensures forall j :: j in ids ==> j in Claimable(jobs, ids)
  {
    SetOfSeq(ids);
    assert Claimable(jobs, ids) <= ToSet(ids);
    SubsetSameSize(Claimable(jobs, ids), ToSet(ids));
  }

  /** Rows some pass asked for stop being up for grabs. */
  lemma ProcessingKeeps(w: World, hit: set<JobId>)
    requires Inv(w)
    requires forall j :: j in hit ==> j in w.db.jobs && w.db.jobs[j].status == PENDING
    ensures var w' := w.(db := w.db.(jobs := SetProcessing(w.db.jobs, hit))); Inv(w') && Later(w, w')
  {
    hide OrderInv, GrantInv, EventsOk, Later, WorkersOk;
    var jobs := SetProcessing(w.db.jobs, hit);
    ProcessingTables(w, hit);
    forall p, k | p in w.workers && k in Owned(w.workers[p])
      ensures SameFor(w, k, jobs, w.owner, w.executions, w.requeues)
    {
      OwnedFacts(w, p, k);
    }
    WorkersKeep(w, jobs, w.owner, w.executions, w.requeues);
    QueueMove(w, jobs, w.owner, w.executions, w.requeues);
    assert w.(db := w.db.(jobs := jobs), owner := w.owner, executions := w.executions, requeues := w.requeues)
        == w.(db := w.db.(jobs := jobs));
  }

  lemma ProcessingTables(w: World, hit: set<JobId>)
    requires QueueInv(w)
    requires forall j :: j in hit ==> j in w.db.jobs && w.db.jobs[j].status == PENDING
    ensures var jobs := SetProcessing(w.db.jobs, hit);
            && JobsOk(w.db.orders, jobs) && KeysUnique(jobs) && Covered(w.db.orders, jobs)
            && CountsOk(jobs, w.executions, w.requeues)
  {
    hide WorkersOk;
    var jobs := SetProcessing(w.db.jobs, hit);
    forall j | j in jobs ensures JobRowOk(w.db.orders, jobs[j]) {
      assert JobRowOk(w.db.orders, w.db.jobs[j]);
    }
    forall x | IsPaid(w.db.orders, x) && w.db.orders[x].submittedAt.None?
      ensures Owed(jobs, x, DeliveryKind(w.db.orders[x].lines))
    {
      var kind := DeliveryKind(w.db.orders[x].lines);
      assert Owed(w.db.jobs, x, kind);
      var j :|
        j in w.db.jobs && w.db.jobs[j].orderId == Some(x) && w.db.jobs[j].kind == kind && w.db.jobs[j].status != DONE;
      assert j in jobs;
    }
  }

  /** A pass whose update hit everything it asked for becomes the owner of all of it. */
  lemma TakeOwnership(w: World, p: Pid, ids: seq<JobId>)
    requires Inv(w) && NoDup(ids) && p in w.workers && Owned(w.workers[p]) == []
    requires forall j :: j in ids ==>
               && j in w.db.jobs && w.db.jobs[j].status == PROCESSING && Unowned(w.workers, j)
               && j in w.executions && j in w.requeues && w.executions[j] == Settled(w.db.jobs[j], w.requeues[j])
    ensures var w' := SetWorker(w, p, Idle(ids)).(owner := w.owner + map j | j in ids :: p); Inv(w') && Later(w, w')
  {
    hide OrderInv, GrantInv, EventsOk, Later, JobsOk, KeysUnique, Covered, CountsOk, WorkersOk, WorkerOk;
    var owner := w.owner + map j | j in ids :: p;
    forall q, k | q in w.workers && k in Owned(w.workers[q])
      ensures SameFor(w, k, w.db.jobs, owner, w.executions, w.requeues)
    {
      OwnedFacts(w, q, k);
      assert k !in ids;
    }
    WorkersKeep(w, w.db.jobs, owner, w.executions, w.requeues);
    QueueMove(w, w.db.jobs, owner, w.executions, w.requeues);
    var w1 := w.(db := w.db.(jobs := w.db.jobs), owner := owner, executions := w.executions, requeues := w.requeues);
    IdleOk(w1, p, ids);
    WorkerAfter(w, w1, p, Idle(ids));
    assert SetWorker(w1, p, Idle(ids)) == SetWorker(w, p, Idle(ids)).(owner := owner);
  }

  lemma IdleOk(w: World, p: Pid, ids: seq<JobId>)
    requires NoDup(ids)
    requires forall j :: j in ids ==>
               && j in w.db.jobs && w.db.jobs[j].status == PROCESSING && j in w.owner && w.owner[j] == p
               && j in w.executions && j in w.requeues && w.executions[j] == Settled(w.db.jobs[j], w.requeues[j])
    ensures WorkerOk(p, Idle(ids), w.db.orders, w.db.jobs, w.owner, w.executions, w.requeues)
  {
    hide Settled, StageOk, IsPaid;
    assert Owned(Idle(ids)) == ids;
    assert forall i :: 0 <= i < |ids| ==> ids[i] in ids;
  }

  lemma WorkerAfter(w: World, w1: World, p: Pid, next: Worker)
    requires Inv(w) && Inv(w1) && Later(w, w1)
    requires WorkerOk(p, next, w1.db.orders, w1.db.jobs, w1.owner, w1.executions, w1.requeues)
    ensures Inv(SetWorker(w1, p, next)) && Later(w, SetWorker(w1, p, next))
  {
    hide *;
    OrdersUsed(w);
    SetWorkerKeeps(w1, p, next);
    LaterTrans(w, w1, SetWorker(w1, p, next));
  }

  lemma DropAfter(w: World, w1: World, p: Pid)
    requires Inv(w) && Inv(w1) && Later(w, w1)
    ensures Inv(w1.(workers := Drop(w1.workers, p))) && Later(w, w1.(workers := Drop(w1.workers, p)))
  {
    hide *;
    OrdersUsed(w);
    DropWorkerKeeps(w1, p);
    LaterTrans(w, w1, w1.(workers := Drop(w1.workers, p)));
  }

  lemma ReadBatchKeeps(w: World, p: Pid, ids: seq<JobId>)
    requires Inv(w)
    ensures Inv(DoReadBatch(w, p, ids)) && Later(w, DoReadBatch(w, p, ids))
  {
    hide OrderInv, GrantInv, EventsOk, Later, JobsOk, KeysUnique, Covered, CountsOk, WorkersOk;
    StayKeeps(w);
    if p !in w.workers && IsBatch(w.db.jobs, w.now, ids) {
      SetWorkerKeeps(w, p, Reading(ids));
    }
  }

  lemma PendingUnowned(w: World, j: JobId)
    requires Inv(w) && j in w.db.jobs && w.db.jobs[j].status == PENDING
    ensures Unowned(w.workers, j)
    ensures j in w.executions && j in w.requeues && w.executions[j] == Settled(w.db.jobs[j], w.requeues[j])
  {
    hide OrderInv, GrantInv, EventsOk, JobsOk, KeysUnique, Covered, WorkersOk;
    forall p | p in w.workers ensures j !in Owned(w.workers[p]) {
      if j in Owned(w.workers[p]) {
        OwnedFacts(w, p, j);
      }
    }
  }

  lemma ClaimKeeps(w: World, p: Pid)
    requires Inv(w)
    ensures Inv(DoClaim(w, p)) && Later(w, DoClaim(w, p))
  {
    hide Inv, Later;
    StayKeeps(w);
    if p in w.workers && w.workers[p].Reading? {
      var ids := w.workers[p].ids;
      var hit := Claimable(w.db.jobs, ids);
      var w1 := w.(db := w.db.(jobs := SetProcessing(w.db.jobs, hit)));
      ProcessingKeeps(w, hit);
      if |hit| == |ids| {
        ReadingNoDup(w, p);
        FullCount(w.db.jobs, ids);
        forall j | j in ids
          ensures && j in w1.db.jobs && w1.db.jobs[j].status == PROCESSING && Unowned(w1.workers, j)
                  && j in w1.executions && j in w1.requeues
                  && w1.executions[j] == Settled(w1.db.jobs[j], w1.requeues[j])
        {
          PendingUnowned(w, j);
        }
        TakeOwnership(w1, p, ids);
        var w2 := SetWorker(w1, p, Idle(ids)).(owner := w1.owner + map j | j in ids :: p);
        OrdersUsed(w);
        LaterTrans(w, w1, w2);
      } else {
        DropAfter(w, w1, p);
      }
    }
  }

  lemma ReadingNoDup(w: World, p: Pid)
    requires Inv(w) && p in w.workers && w.workers[p].Reading?
    ensures NoDup(w.workers[p].ids)
  {
    hide OrderInv, GrantInv, EventsOk, JobsOk, KeysUnique, Covered, CountsOk;
    assert WorkerOk(p, w.workers[p], w.db.orders, w.db.jobs, w.owner, w.executions, w.requeues);
  }

  // ---------------------------------------------------------------- one job

  /** A step that leaves the pass holding the same jobs, the same one in hand. */
  lemma StageKeeps(w: World, p: Pid, next: Worker)
    requires Inv(w) && p in w.workers && InHand(w.workers[p]) && InHand(next)
    requires Owned(next) == Owned(w.workers[p]) && next.job == w.workers[p].job
    requires next.Running? && next.job in w.db.jobs ==> StageOk(w.db.orders, w.db.jobs[next.job], next.stage)
    requires next.Finished? && next.job in w.db.jobs && IsDelivery(w.db.jobs[next.job].kind)
             && w.db.jobs[next.job].orderId.Some? ==>
               && w.db.jobs[next.job].orderId.value in w.db.orders
               && w.db.orders[w.db.jobs[next.job].orderId.value].submittedAt.Some?
    requires next.Counted? && next.job in w.db.jobs ==>
               && next.attempts == w.db.jobs[next.job].attempts
               && next.maxAttempts == w.db.jobs[next.job].maxAttempts
    ensures Inv(SetWorker(w, p, next)) && Later(w, SetWorker(w, p, next))
  {
    hide OrderInv, GrantInv, EventsOk, Later, JobsOk, KeysUnique, Covered, CountsOk;
    assert WorkerOk(p, w.workers[p], w.db.orders, w.db.jobs, w.owner, w.executions, w.requeues);
    SetWorkerKeeps(w, p, next);
  }

  /** What a pass knows about the job in its hand. */
  lemma HandFacts(w: World, p: Pid)
    requires Inv(w) && p in w.workers && InHand(w.workers[p])
    ensures var j := w.workers[p].job;
            && j in w.db.jobs && JobRowOk(w.db.orders, w.db.jobs[j])
            && (w.workers[p].Running? ==> StageOk(w.db.orders, w.db.jobs[j], w.workers[p].stage))
            && (w.workers[p].Finished? && IsDelivery(w.db.jobs[j].kind) ==>
                  w.db.orders[w.db.jobs[j].orderId.value].submittedAt.Some?)
            && (w.workers[p].Counted? ==>
                  w.workers[p].attempts == w.db.jobs[j].attempts
                  && w.workers[p].maxAttempts == w.db.jobs[j].maxAttempts)
  {
    hide OrderInv, GrantInv, EventsOk, KeysUnique, Covered, CountsOk;
    assert WorkerOk(p, w.workers[p], w.db.orders, w.db.jobs, w.owner, w.executions, w.requeues);
    assert JobRowOk(w.db.orders, w.db.jobs[w.workers[p].job]);
  }

  /** Beginning a job counts one execution against it. */
  lemma BeginKeeps(w: World, p: Pid)
    requires Inv(w)
    ensures Inv(DoBegin(w, p)) && Later(w, DoBegin(w, p))
  {
    hide Inv, Later, WorkerOk, Settled;
    StayKeeps(w);
    if p in w.workers && w.workers[p].Idle? {
      var q := w.workers[p].queue;
      DropWorkerKeeps(w, p);
      if q != [] {
        var j := q[0];
        LetGo(w, p, j, q[1..], Idle(q[1..]));
        var w1 := SetWorker(w, p, Idle(q[1..]));
        var executions := w.executions[j := w.executions[j] + 1];
        BumpKeeps(w1, j);
        var w2 := w1.(executions := executions);
        RunningOk(w, w2, p, j, q);
        OrdersUsed(w);
        LaterTrans(w, w1, w2);
        WorkerAfter(w, w2, p, Running(j, Started, q[1..]));
        assert SetWorker(w2, p, Running(j, Started, q[1..])) == DoBegin(w, p);
      }
    }
  }

  lemma BumpKeeps(w: World, j: JobId)
    requires Inv(w) && Unowned(w.workers, j) && j in w.db.jobs && w.db.jobs[j].status == PROCESSING
    requires j in w.executions && j in w.requeues && w.executions[j] == Settled(w.db.jobs[j], w.requeues[j])
    ensures var w' := w.(executions := w.executions[j := w.executions[j] + 1]); Inv(w') && Later(w, w')
  {
    hide OrderInv, GrantInv, EventsOk, Later, JobsOk, KeysUnique, Covered, WorkersOk;
    var executions := w.executions[j := w.executions[j] + 1];
    forall p, k | p in w.workers && k in Owned(w.workers[p])
      ensures SameFor(w, k, w.db.jobs, w.owner, executions, w.requeues)
    {
      OwnedFacts(w, p, k);
    }
    WorkersKeep(w, w.db.jobs, w.owner, executions, w.requeues);
    QueueMove(w, w.db.jobs, w.owner, executions, w.requeues);
    assert w.(db := w.db.(jobs := w.db.jobs), owner := w.owner, executions := executions, requeues := w.requeues)
        == w.(executions := executions);
  }

  lemma RunningOk(w: World, w2: World, p: Pid, j: JobId, q: seq<JobId>)
    requires Inv(w) && p in w.workers && w.workers[p] == Idle(q) && q != [] && q[0] == j && j in w.executions
    requires w2.db == w.db && w2.owner == w.owner && w2.requeues == w.requeues
    requires w2.executions == w.executions[j := w.executions[j] + 1]
    ensures WorkerOk(p, Running(j, Started, q[1..]), w2.db.orders, w2.db.jobs, w2.owner, w2.executions, w2.requeues)
  {
    hide OrderInv, GrantInv, EventsOk, JobsOk, KeysUnique, Covered, CountsOk;
    assert WorkerOk(p, w.workers[p], w.db.orders, w.db.jobs, w.owner, w.executions, w.requeues);
    assert [j] + q[1..] == q;
  }

  lemma LoadKeeps(w: World, p: Pid)
    requires Inv(w)
    ensures Inv(DoLoad(w, p)) && Later(w, DoLoad(w, p))
  {
    hide Inv, Later, WorkerOk;
    StayKeeps(w);
    if p in w.workers && w.workers[p].Running? && w.workers[p].stage.Started? {
      var Running(j, _, q) := w.workers[p];
      HandFacts(w, p);
      StageKeeps(w, p, Raised(j, q));
      var job := w.db.jobs[j];
      if job.kind == SEND_CONTACT_MESSAGE {
        StageKeeps(w, p, Running(j, Loaded([]), q));
      } else if job.orderId.Some? && job.orderId.value in w.db.orders {
        StageKeeps(w, p, Running(j, Loaded(w.db.orders[job.orderId.value].lines), q));
      }
    }
  }

  lemma SendMailKeeps(w: World, p: Pid)
    requires Inv(w)
    ensures Inv(DoSendMail(w, p)) && Later(w, DoSendMail(w, p))
  {
    hide Inv, Later, WorkerOk, JobRowOk;
    StayKeeps(w);
    if p in w.workers && w.workers[p].Running? && w.workers[p].job in w.db.jobs {
      var Running(j, stage, q) := w.workers[p];
      if IsDelivery(w.db.jobs[j].kind) {
        StageKeeps(w, p, Running(j, Mailed, q));
      } else {
        StageKeeps(w, p, Finished(j, q));
      }
    }
  }

  lemma ThrowKeeps(w: World, p: Pid)
    requires Inv(w)
    ensures Inv(DoThrow(w, p)) && Later(w, DoThrow(w, p))
  {
    hide Inv, Later, WorkerOk, JobRowOk;
    StayKeeps(w);
    if p in w.workers && (w.workers[p].Running? || w.workers[p].Finished?) {
      StageKeeps(w, p, Raised(w.workers[p].job, w.workers[p].queue));
    }
  }

  lemma ReadAttemptsKeeps(w: World, p: Pid)
    requires Inv(w)
    ensures Inv(DoReadAttempts(w, p)) && Later(w, DoReadAttempts(w, p))
  {
    hide Inv, Later, WorkerOk, JobRowOk;
    StayKeeps(w);
    if p in w.workers && w.workers[p].Raised? {
      var Raised(j, q) := w.workers[p];
      HandFacts(w, p);
      StageKeeps(w, p, Counted(j, w.db.jobs[j].attempts, w.db.jobs[j].maxAttempts, q));
    }
  }

  /** Submitting the order first, then the pass is finished with the job. */
  lemma SubmitKeeps(w: World, p: Pid)
    requires Inv(w)
    ensures Inv(DoSubmit(w, p)) && Later(w, DoSubmit(w, p))
  {
    hide Inv, Later, WorkerOk;
    StayKeeps(w);
    if p in w.workers && w.workers[p].Running? && w.workers[p].stage.Mailed? {
      var Running(j, _, q) := w.workers[p];
      HandFacts(w, p);
      var job := w.db.jobs[j];
      var o := job.orderId.value;
      var row := SubmittedRow(w.db.orders[o], job.kind, w.now);
      RowFacts(w, o);
      SetOrderKeeps(w, o, row);
      var w1 := w.(db := SetOrder(w.db, o, row));
      StageKeeps(w1, p, Finished(j, q));
      OrdersUsed(w);
      LaterTrans(w, w1, SetWorker(w1, p, Finished(j, q)));
    }
  }

  lemma RowFacts(w: World, o: OrderId)
    requires Inv(w) && o in w.db.orders
    ensures OrderRowOk(w.db.orders[o])
  {
    hide QueueInv, GrantInv, EventsOk;
  }

  lemma IssueLinksKeeps(w: World, p: Pid, ids: seq<GrantId>)
    requires Inv(w)
    ensures Inv(DoIssueLinks(w, p, ids)) && Later(w, DoIssueLinks(w, p, ids))
  {
    hide Inv, Later, WorkerOk, FreshGrants;
    StayKeeps(w);
    if p in w.workers && w.workers[p].Running? && w.workers[p].stage.Loaded? {
      var Running(j, Loaded(lines), q) := w.workers[p];
      HandFacts(w, p);
      StageKeeps(w, p, Raised(j, q));
      var job := w.db.jobs[j];
      if job.kind == DELIVER_DIGITAL && Deliverables(lines) != []
         && |ids| == |Deliverables(lines)| && FreshGrants(w, ids)
      {
        IssueGrantsKeeps(w, job.orderId.value, lines, ids);
        var w1 := IssueGrants(w, job.orderId.value, lines, ids);
        StageKeeps(w1, p, Running(j, Linked(|ids|), q));
        OrdersUsed(w);
        LaterTrans(w, w1, SetWorker(w1, p, Running(j, Linked(|ids|), q)));
      }
    }
  }

  /** DONE is written only after a delivery reached its order. */
  lemma WriteDoneKeeps(w: World, p: Pid)
    requires Inv(w)
    ensures Inv(DoWriteDone(w, p)) && Later(w, DoWriteDone(w, p))
  {
    hide Inv, Later, WorkerOk;
    StayKeeps(w);
    if p in w.workers && w.workers[p].Finished? {
      var Finished(j, q) := w.workers[p];
      HandFacts(w, p);
      LetGo(w, p, j, q, Idle(q));
      var w1 := SetWorker(w, p, Idle(q));
      SetJobKeeps(w1, j, Completed(w.db.jobs[j], w.now));
      OrdersUsed(w);
      LaterTrans(w, w1, DoWriteDone(w, p));
    }
  }

  lemma WriteFailureKeeps(w: World, p: Pid, random: real)
    requires Inv(w)
    ensures Inv(DoWriteFailure(w, p, random)) && Later(w, DoWriteFailure(w, p, random))
  {
    hide Inv, Later, WorkerOk;
    StayKeeps(w);
    if p in w.workers && w.workers[p].Counted? && 0.0 <= random < 1.0 {
      var Counted(j, a, max, q) := w.workers[p];
      HandFacts(w, p);
      var row := FailedOnce(w.db.jobs[j], a, max, w.now + Backoff.BackoffMs(a + 1, random));
      var next := if row.status == FAILED && row.orderId.Some? then Escalating(row.orderId.value, q) else Idle(q);
      LetGo(w, p, j, q, next);
      var w1 := SetWorker(w, p, next);
      SetJobKeeps(w1, j, row);
      OrdersUsed(w);
      LaterTrans(w, w1, DoWriteFailure(w, p, random));
    }
  }

  lemma EscalateKeeps(w: World, p: Pid)
    requires Inv(w)
    ensures Inv(DoEscalate(w, p)) && Later(w, DoEscalate(w, p))
  {
    hide Inv, Later, WorkerOk;
    StayKeeps(w);
    if p in w.workers && w.workers[p].Escalating? {
      var Escalating(o, q) := w.workers[p];
      EscalatingFacts(w, p);
      RowFacts(w, o);
      SetWorkerKeeps(w, p, Idle(q));
      var w1 := SetWorker(w, p, Idle(q));
      SetOrderKeeps(w1, o, w.db.orders[o].(status := NEEDS_REVIEW));
      OrdersUsed(w);
      LaterTrans(w, w1, DoEscalate(w, p));
    }
  }

  lemma EscalatingFacts(w: World, p: Pid)
    requires Inv(w) && p in w.workers && w.workers[p].Escalating?
    ensures IsPaid(w.db.orders, w.workers[p].order)
    ensures WorkerOk(p, Idle(w.workers[p].queue), w.db.orders, w.db.jobs, w.owner, w.executions, w.requeues)
  {
    hide OrderInv, GrantInv, EventsOk, JobsOk, KeysUnique, Covered, CountsOk;
    assert WorkerOk(p, w.workers[p], w.db.orders, w.db.jobs, w.owner, w.executions, w.requeues);
  }
}
