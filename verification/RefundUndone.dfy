/**
 * The other half of the story of a refund: whatever is still under way about the
 * order can be run, step by step, to a point where the order is no longer
 * refunded or a new link of it is alive.
 */
module RefundUndone {
  import opened Prelude
  import opened Store
  import opened Protocol
  import opened Invariant
  import opened ProtocolTheorems
  import opened RefundFinal
  import PaymentRaces
  import Backoff

  lemma One(w: World, s: Step)
    ensures Run(w, [s]) == Apply(w, s)
  {
    hide Apply;
    assert [s][..0] == [];
    assert Run(w, []) == w;
  }

  lemma Two(w: World, s: Step, s': Step)
    ensures Run(w, [s, s']) == Apply(Apply(w, s), s')
  {
    hide Apply;
    One(w, s);
    assert [s, s'][..1] == [s];
  }

  // ---------------------------------------------------------------- requests

  lemma PaymentSpoils(w: World, p: Pid, o: OrderId) returns (more: seq<Step>)
    requires o in w.db.orders && p in w.requests && w.requests[p].PaymentRead? && w.requests[p].order == o
    requires IntentFree(w.db.orders, o, w.requests[p].intent)
    ensures !Shut(Run(w, more).db, o)
  {
    var j1, j2 := PaymentRaces.FreshJobs(w);
    more := [PaymentCommit(p, j1, j2)];
    One(w, PaymentCommit(p, j1, j2));
    PaymentRaces.CommitStep(w, p, j1, j2);
    hide Apply, IntentFree, FreshJob, Enqueue, DeliveryKind, NewJobs;
  }

  lemma MoveApplies(w: World, p: Pid)
    ensures Apply(w, MoveRetry(p)) == DoMoveRetry(w, p)
    ensures Apply(w, RequeueRetry(p)) == DoRequeueRetry(w, p)
  {
    hide DoMoveRetry, DoRequeueRetry;
  }

  lemma RetrySpoils(w: World, p: Pid, o: OrderId) returns (more: seq<Step>)
    requires o in w.db.orders && p in w.requests
    requires w.requests[p] == RetryRequeued(o)
             || (w.requests[p] == RetryChecked(o) && FailedOf(w.db.jobs, o) != {})
    ensures !Shut(Run(w, more).db, o)
  {
    MoveApplies(w, p);
    MoveApplies(Apply(w, RequeueRetry(p)), p);
    One(w, MoveRetry(p));
    Two(w, RequeueRetry(p), MoveRetry(p));
    hide Apply, FailedOf, RequeueFailed;
    more := if w.requests[p].RetryRequeued? then [MoveRetry(p)] else [RequeueRetry(p), MoveRetry(p)];
  }

  lemma FreshTokens(w: World, n: nat) returns (ids: seq<GrantId>)
    ensures |ids| == n && FreshGrants(w, ids)
  {
    var base := Unused(w.handed.Keys + w.db.grants.Keys);
    ids := seq(n, i => base + i);
    forall g | g in ids ensures g !in w.handed && g !in w.db.grants {
      assert g >= base;
      assert g !in w.handed.Keys + w.db.grants.Keys;
    }
  }

  lemma EmittedAlive(grants: map<GrantId, Grant>, o: OrderId, lines: seq<Line>, ids: seq<GrantId>, now: Time)
    requires |ids| == |Deliverables(lines)| && ids != []
    ensures !Dead(EmitLinks(grants, o, lines, ids, now), o)
  {
    hide Deliverables, RevokeLive;
    var g := ids[|ids|-1];
    var after := EmitLinks(grants, o, lines, ids, now);
    assert g in after && after[g].item.order == o && Live(after[g]);
  }

  lemma ResendSpoils(w: World, p: Pid, o: OrderId) returns (more: seq<Step>)
    requires p in w.requests && w.requests[p].ResendRead? && w.requests[p].order == o
    requires Deliverables(w.requests[p].lines) != []
    ensures !Shut(Run(w, more).db, o)
  {
    var lines := w.requests[p].lines;
    var ids := FreshTokens(w, |Deliverables(lines)|);
    EmittedAlive(w.db.grants, o, lines, ids, w.now);
    more := [IssueResend(p, ids)];
    One(w, IssueResend(p, ids));
    ResendApplies(w, p, ids);
    hide Apply, EmitLinks, Deliverables, FreshGrants;
  }

  lemma ResendApplies(w: World, p: Pid, ids: seq<GrantId>)
    ensures Apply(w, IssueResend(p, ids)) == DoIssueResend(w, p, ids)
  {
    hide DoIssueResend;
  }

  // ---------------------------------------------------------------- a pass that holds a job of the order

  /** What the pass does when everything from here on throws. */
  function NextStep(p: Pid, worker: Worker): Step {
    match worker
    case Reading(_) => ClaimBatch(p)
    case Idle(_) => BeginJob(p)
    case Running(_, _, _) => Throw(p)
    case Finished(_, _) => Throw(p)
    case Raised(_, _) => ReadAttempts(p)
    case Counted(_, _, _, _) => WriteFailure(p, 0.0)
    case Escalating(_, _) => Escalate(p)
  }

  /** Steps left to the end of its queue. */
  function Rank(worker: Worker): nat {
    match worker
    case Reading(_) => 0
    case Idle(q) => 5 * |q|
    case Running(_, _, q) => 5 * |q| + 4
    case Finished(_, q) => 5 * |q| + 4
    case Raised(_, q) => 5 * |q| + 3
    case Counted(_, _, _, q) => 5 * |q| + 2
    case Escalating(_, q) => 5 * |q| + 1
  }

  /** A job of this order, tried so many times. */
  predicate Tried(jobs: map<JobId, Job>, j: JobId, o: OrderId, a: nat) {
    j in jobs && jobs[j].orderId == Some(o) && jobs[j].attempts == a
  }

  predicate Holds(w: World, p: Pid, j: JobId, o: OrderId, a: nat) {
    p in w.workers && j in Owned(w.workers[p]) && Tried(w.db.jobs, j, o, a)
  }

  /** Back in the queue. */
  predicate Queued(w: World, j: JobId, o: OrderId, a: nat) {
    Tried(w.db.jobs, j, o, a) && w.db.jobs[j].status == PENDING
  }

  predicate Escalates(w: World, p: Pid, o: OrderId) {
    p in w.workers && w.workers[p].Escalating? && w.workers[p].order == o
  }

  predicate Reviewed(w: World, o: OrderId) {
    o in w.db.orders && w.db.orders[o].status == NEEDS_REVIEW
  }

  lemma Applies(w: World, p: Pid)
    requires p in w.workers
    ensures var worker := w.workers[p];
            var w' := Apply(w, NextStep(p, worker));
            && (worker.Reading? ==> w' == DoClaim(w, p))
            && (worker.Idle? ==> w' == DoBegin(w, p))
            && (worker.Running? || worker.Finished? ==> w' == DoThrow(w, p))
            && (worker.Raised? ==> w' == DoReadAttempts(w, p))
            && (worker.Counted? ==> w' == DoWriteFailure(w, p, 0.0))
            && (worker.Escalating? ==> w' == DoEscalate(w, p))
  {
    hide DoClaim, DoBegin, DoThrow, DoReadAttempts, DoWriteFailure, DoEscalate;
  }

  lemma Facts(w: World, p: Pid)
    requires Inv(w) && p in w.workers
    ensures forall j :: j in Owned(w.workers[p]) ==> j in w.db.jobs
    ensures w.workers[p].Counted? ==> w.workers[p].attempts == w.db.jobs[w.workers[p].job].attempts
    ensures w.workers[p].Escalating? ==> w.workers[p].order in w.db.orders
  {
    hide OrderInv, GrantInv, EventsOk, JobsOk, KeysUnique, Covered, CountsOk;
    assert WorkerOk(p, w.workers[p], w.db.orders, w.db.jobs, w.owner, w.executions, w.requeues);
  }

  /** Nearer to the job, or the job is settled. */
  ghost predicate Nearer(w: World, w': World, p: Pid, j: JobId, o: OrderId, a: nat)
    requires p in w.workers
  {
    || (Holds(w', p, j, o, a) && Rank(w'.workers[p]) < Rank(w.workers[p]))
    || Queued(w', j, o, a + 1)
    || Escalates(w', p, o)
  }

  lemma BeginNears(w: World, p: Pid, j: JobId, o: OrderId, a: nat)
    requires Holds(w, p, j, o, a) && w.workers[p].Idle?
    ensures Nearer(w, DoBegin(w, p), p, j, o, a)
  {
    hide Queued, Escalates, Tried;
  }

  lemma ThrowNears(w: World, p: Pid, j: JobId, o: OrderId, a: nat)
    requires Holds(w, p, j, o, a) && (w.workers[p].Running? || w.workers[p].Finished?)
    ensures Nearer(w, DoThrow(w, p), p, j, o, a)
  {
    hide Queued, Escalates, Tried;
  }

  lemma ReadNears(w: World, p: Pid, j: JobId, o: OrderId, a: nat)
    requires Holds(w, p, j, o, a) && w.workers[p].Raised? && w.workers[p].job in w.db.jobs
    ensures Nearer(w, DoReadAttempts(w, p), p, j, o, a)
  {
    hide Queued, Escalates, Tried;
  }

  function NextWorker(row: Job, q: seq<JobId>): Worker {
    if row.status == FAILED && row.orderId.Some? then Escalating(row.orderId.value, q) else Idle(q)
  }

  lemma WroteFailure(w: World, p: Pid)
    requires p in w.workers && w.workers[p].Counted? && w.workers[p].job in w.db.jobs
    ensures var Counted(h, n, max, q) := w.workers[p];
            var row := FailedOnce(w.db.jobs[h], n, max, w.now + Backoff.BackoffMs(n + 1, 0.0));
            DoWriteFailure(w, p, 0.0) == SetWorker(w.(db := w.db.(jobs := w.db.jobs[h := row])), p, NextWorker(row, q))
  {
    hide Backoff.BackoffMs, FailedOnce, SetWorker;
  }

  lemma OtherRow(jobs: map<JobId, Job>, h: JobId, row: Job, j: JobId, o: OrderId, a: nat)
    requires Tried(jobs, j, o, a) && h != j
    ensures Tried(jobs[h := row], j, o, a)
  {
  }

  lemma WriteNears(w: World, p: Pid, j: JobId, o: OrderId, a: nat)
    requires Holds(w, p, j, o, a) && w.workers[p].Counted? && w.workers[p].job in w.db.jobs
    requires w.workers[p].attempts == w.db.jobs[w.workers[p].job].attempts
    ensures Nearer(w, DoWriteFailure(w, p, 0.0), p, j, o, a)
  {
    WroteFailure(w, p);
    var Counted(h, n, max, q) := w.workers[p];
    var row := FailedOnce(w.db.jobs[h], n, max, w.now + Backoff.BackoffMs(n + 1, 0.0));
    hide DoWriteFailure, Backoff.BackoffMs;
    if h != j {
      OtherRow(w.db.jobs, h, row, j, o, a);
      hide Tried, FailedOnce;
      assert j in Owned(NextWorker(row, q)) && Rank(NextWorker(row, q)) < Rank(w.workers[p]);
    }
  }

  lemma EscalateNears(w: World, p: Pid, j: JobId, o: OrderId, a: nat)
    requires Holds(w, p, j, o, a) && w.workers[p].Escalating? && w.workers[p].order in w.db.orders
    ensures Nearer(w, DoEscalate(w, p), p, j, o, a)
  {
    hide Queued, Escalates, Tried;
  }

  /** One step of a pass that throws. */
  lemma Advance(w: World, p: Pid, j: JobId, o: OrderId, a: nat)
    requires Inv(w) && Holds(w, p, j, o, a)
    ensures Nearer(w, Apply(w, NextStep(p, w.workers[p])), p, j, o, a)
  {
    Facts(w, p);
    Applies(w, p);
    hide Inv, Apply, Nearer, Tried, DoBegin, DoThrow, DoReadAttempts, DoWriteFailure, DoEscalate, NextStep;
    match w.workers[p]
    case Reading(_) =>
    case Idle(_) => BeginNears(w, p, j, o, a);
    case Running(_, _, _) => ThrowNears(w, p, j, o, a);
    case Finished(_, _) => ThrowNears(w, p, j, o, a);
    case Raised(_, _) => ReadNears(w, p, j, o, a);
    case Counted(_, _, _, _) => WriteNears(w, p, j, o, a);
    case Escalating(_, _) => EscalateNears(w, p, j, o, a);
  }

  lemma EscalateReviews(w: World, p: Pid, o: OrderId)
    requires Inv(w) && Escalates(w, p, o)
    ensures Reviewed(Apply(w, Escalate(p)), o)
  {
    Facts(w, p);
    Applies(w, p);
    hide Inv, Apply;
  }

  lemma {:induction false} Driven(w: World, p: Pid, j: JobId, o: OrderId, a: nat) returns (more: seq<Step>)
    requires Inv(w) && Holds(w, p, j, o, a)
    ensures var w' := Run(w, more); Inv(w') && (Queued(w', j, o, a + 1) || Reviewed(w', o))
    decreases Rank(w.workers[p])
  {
    var s := NextStep(p, w.workers[p]);
    var w1 := Apply(w, s);
    Advance(w, p, j, o, a);
    StepKeeps(w, s);
    One(w, s);
    hide Inv, Later, Apply, Holds, Rank, Queued, Escalates, Reviewed, NextStep;
    if Holds(w1, p, j, o, a) && Rank(w1.workers[p]) < Rank(w.workers[p]) {
      var rest := Driven(w1, p, j, o, a);
      RunSplits(w, [s], rest);
      more := [s] + rest;
    } else if Queued(w1, j, o, a + 1) {
      more := [s];
    } else {
      EscalateReviews(w1, p, o);
      StepKeeps(w1, Escalate(p));
      Two(w, s, Escalate(p));
      more := [s, Escalate(p)];
    }
  }

  // ---------------------------------------------------------------- a job in the queue

  /** The row of a batch the query lists first among those not taken yet. */
  predicate Earliest(jobs: map<JobId, Job>, rest: set<JobId>, j: JobId) {
    j in rest && forall k :: k in rest && k in jobs && j in jobs ==> jobs[j].nextAttemptAt <= jobs[k].nextAttemptAt
  }

  lemma {:induction false} EarliestExists(jobs: map<JobId, Job>, rest: set<JobId>) returns (j: JobId)
    requires rest != {} && rest <= jobs.Keys
    ensures Earliest(jobs, rest, j)
    decreases |rest|
  {
    j :| j in rest;
    if rest != {j} {
      assert rest - {j} != {};
      var k := EarliestExists(jobs, rest - {j});
      assert forall x :: x in rest ==> x == j || x in rest - {j};
      if jobs[k].nextAttemptAt < jobs[j].nextAttemptAt {
        j := k;
      }
    }
  }

  function DueNow(jobs: map<JobId, Job>, now: Time): set<JobId> {
    set j | j in jobs && Due(jobs, j, now)
  }

  /** The n earliest due jobs, or all of them. */
  ghost predicate First(jobs: map<JobId, Job>, now: Time, ids: seq<JobId>, n: nat) {
    && NoDup(ids) && |ids| <= n && ToSet(ids) <= DueNow(jobs, now)
    && (forall i, k :: 0 <= i < k < |ids| && ids[i] in jobs && ids[k] in jobs ==>
          jobs[ids[i]].nextAttemptAt <= jobs[ids[k]].nextAttemptAt)
    && (|ids| == n || DueNow(jobs, now) <= ToSet(ids))
    && (forall j, i :: j in DueNow(jobs, now) - ToSet(ids) && 0 <= i < |ids| && ids[i] in jobs ==>
          jobs[ids[i]].nextAttemptAt <= jobs[j].nextAttemptAt)
  }

  lemma {:induction false} FirstExists(jobs: map<JobId, Job>, now: Time, n: nat) returns (ids: seq<JobId>)
    ensures First(jobs, now, ids, n)
  {
    if n == 0 {
      ids := [];
    } else {
      ids := FirstExists(jobs, now, n - 1);
      var rest := DueNow(jobs, now) - ToSet(ids);
      if rest != {} {
        var j := EarliestExists(jobs, rest);
        FirstMore(jobs, now, ids, n - 1, j);
        ids := ids + [j];
      } else {
        forall j | j in DueNow(jobs, now) ensures j in ToSet(ids) {
          assert j !in rest;
        }
      }
    }
  }

  lemma FirstMore(jobs: map<JobId, Job>, now: Time, ids: seq<JobId>, n: nat, j: JobId)
    requires First(jobs, now, ids, n) && Earliest(jobs, DueNow(jobs, now) - ToSet(ids), j)
    ensures First(jobs, now, ids + [j], n + 1)
  {
    assert ToSet(ids + [j]) == ToSet(ids) + {j};
    assert j in jobs;
  }

  /** What the query answers when this job is due. */
  lemma BatchExists(jobs: map<JobId, Job>, now: Time, j: JobId) returns (ids: seq<JobId>)
    requires Due(jobs, j, now)
    ensures IsBatch(jobs, now, ids)
    ensures NoDup(ids) && (forall i :: i in ids ==> i in jobs && jobs[i].status == PENDING)
    ensures j in ids || |ids| == BATCH_SIZE
  {
    ids := FirstExists(jobs, now, BATCH_SIZE);
    forall i | i in ids ensures Due(jobs, i, now) {
      assert i in ToSet(ids);
    }
    forall k | k in jobs && Due(jobs, k, now) && k !in ids
      ensures k in DueNow(jobs, now) - ToSet(ids)
    {
    }
  }

  /** The pending jobs: what a claim makes fewer. */
  function PendingJobs(jobs: map<JobId, Job>): set<JobId> {
    set j | j in jobs && jobs[j].status == PENDING
  }

  /** A pass that has read a batch of pending jobs: this one among them, or a full batch of others. */
  ghost predicate HasBatch(w: World, p: Pid, ids: seq<JobId>, j: JobId) {
    && p in w.workers && w.workers[p] == Reading(ids) && NoDup(ids)
    && (forall i :: i in ids ==> i in w.db.jobs && w.db.jobs[i].status == PENDING)
    && (j in ids || |ids| == BATCH_SIZE)
  }

  lemma ReadsBatch(w: World, j: JobId) returns (p: Pid, ids: seq<JobId>)
    requires Inv(w) && Due(w.db.jobs, j, w.now)
    ensures var w' := Apply(w, ReadBatch(p, ids)); Inv(w') && w'.db == w.db && HasBatch(w', p, ids, j)
  {
    hide Inv, Later, Apply, IsBatch;
    p := Unused(w.workers.Keys);
    assert p !in w.workers.Keys;
    ids := BatchExists(w.db.jobs, w.now, j);
    ReadApplies(w, p, ids);
    StepKeeps(w, ReadBatch(p, ids));
  }

  lemma FallsDue(w: World, j: JobId) returns (t: Time)
    requires Inv(w) && j in w.db.jobs && w.db.jobs[j].status == PENDING
    ensures var w' := Apply(w, Tick(t)); Inv(w') && w'.db == w.db && Due(w'.db.jobs, j, w'.now)
  {
    t := if w.now < w.db.jobs[j].nextAttemptAt then w.db.jobs[j].nextAttemptAt else w.now;
    StepKeeps(w, Tick(t));
    PaymentRaces.TickStep(w, t);
    hide Inv, Later, Apply;
  }

  /** From a queued job to a pass that has read a batch with the job due. */
  lemma BatchRead(w: World, j: JobId) returns (p: Pid, ids: seq<JobId>, more: seq<Step>)
    requires Inv(w) && j in w.db.jobs && w.db.jobs[j].status == PENDING
    ensures var w' := Run(w, more); Inv(w') && w'.db == w.db && HasBatch(w', p, ids, j)
  {
    hide Inv, Apply, Run, HasBatch;
    var t := FallsDue(w, j);
    p, ids := ReadsBatch(Apply(w, Tick(t)), j);
    Two(w, Tick(t), ReadBatch(p, ids));
    more := [Tick(t), ReadBatch(p, ids)];
  }

  lemma ReadApplies(w: World, p: Pid, ids: seq<JobId>)
    requires p !in w.workers && IsBatch(w.db.jobs, w.now, ids)
    ensures Apply(w, ReadBatch(p, ids)) == SetWorker(w, p, Reading(ids))
  {
    hide IsBatch;
  }

  /** The claim of a batch of pending jobs takes them all. */
  lemma ClaimTakes(w: World, p: Pid, ids: seq<JobId>, j: JobId)
    requires HasBatch(w, p, ids, j)
    ensures var w' := DoClaim(w, p);
            && w'.db == w.db.(jobs := SetProcessing(w.db.jobs, ToSet(ids)))
            && p in w'.workers && w'.workers[p] == Idle(ids)
  {
    SetOfSeq(ids);
    assert Claimable(w.db.jobs, ids) == ToSet(ids);
  }

  /** Either this job is in hand, or it is still in a shorter queue. */
  lemma ClaimLeaves(w: World, p: Pid, ids: seq<JobId>, j: JobId, o: OrderId, a: nat)
    requires HasBatch(w, p, ids, j) && Queued(w, j, o, a)
    ensures var w' := Apply(w, ClaimBatch(p));
            && (j in ids ==> Holds(w', p, j, o, a))
            && (j !in ids ==>
                  Queued(w', j, o, a) && |PendingJobs(w'.db.jobs)| < |PendingJobs(w.db.jobs)|)
  {
    ClaimTakes(w, p, ids, j);
    Applies(w, p);
    hide Apply, DoClaim;
    if j !in ids {
      FewerPending(w.db.jobs, ids);
    }
  }

  lemma FewerPending(jobs: map<JobId, Job>, ids: seq<JobId>)
    requires ids != [] && forall i :: i in ids ==> i in jobs && jobs[i].status == PENDING
    ensures |PendingJobs(SetProcessing(jobs, ToSet(ids)))| < |PendingJobs(jobs)|
  {
    var after := SetProcessing(jobs, ToSet(ids));
    assert ids[0] in PendingJobs(jobs);
    assert PendingJobs(after) <= PendingJobs(jobs) - {ids[0]};
    SubsetSize(PendingJobs(after), PendingJobs(jobs) - {ids[0]});
  }

  lemma CrashLeaves(w: World, p: Pid, j: JobId, o: OrderId, a: nat)
    ensures var w' := Apply(w, CrashWorker(p)); w'.db == w.db && (Queued(w, j, o, a) ==> Queued(w', j, o, a))
  {
  }

  /** Passes that claim what is ahead of it and die, until one claims this job. */
  lemma {:induction false} Taken(w: World, j: JobId, o: OrderId, a: nat) returns (p: Pid, more: seq<Step>)
    requires Inv(w) && Queued(w, j, o, a)
    ensures Inv(Run(w, more)) && Holds(Run(w, more), p, j, o, a)
    decreases |PendingJobs(w.db.jobs)|
  {
    var q, ids, first := BatchRead(w, j);
    var w1 := Run(w, first);
    assert Queued(w1, j, o, a);
    hide Inv, Later, Run, Apply, Holds, Queued, HasBatch, PendingJobs;
    ClaimLeaves(w1, q, ids, j, o, a);
    StepKeeps(w1, ClaimBatch(q));
    One(w1, ClaimBatch(q));
    RunSplits(w, first, [ClaimBatch(q)]);
    p, more := q, first + [ClaimBatch(q)];
    if j !in ids {
      var w2 := Apply(w1, ClaimBatch(q));
      CrashLeaves(w2, q, j, o, a);
      StepKeeps(w2, CrashWorker(q));
      One(w2, CrashWorker(q));
      RunSplits(w, more, [CrashWorker(q)]);
      more := more + [CrashWorker(q)];
      var rest;
      p, rest := Taken(Apply(w2, CrashWorker(q)), j, o, a);
      RunSplits(w, more, rest);
      more := more + rest;
    }
  }

  /** A queued job of the order can always be run to its last attempt, and takes the order with it. */
  lemma {:induction false} QueueSpoils(w: World, j: JobId, o: OrderId, a: nat) returns (more: seq<Step>)
    requires Inv(w) && Queued(w, j, o, a)
    ensures Reviewed(Run(w, more), o)
    decreases MAX_ATTEMPTS - a, 1
  {
    AttemptsLeft(w, j, o, a);
    hide Inv, Run, Apply, Queued, Holds, Reviewed;
    var p, first := Taken(w, j, o, a);
    more := HandSpoils(Run(w, first), p, j, o, a);
    RunSplits(w, first, more);
    more := first + more;
  }

  lemma AttemptsLeft(w: World, j: JobId, o: OrderId, a: nat)
    requires Inv(w) && Queued(w, j, o, a)
    ensures a < MAX_ATTEMPTS
  {
    hide OrderInv, GrantInv, EventsOk, KeysUnique, Covered, CountsOk, WorkersOk;
    assert JobRowOk(w.db.orders, w.db.jobs[j]);
  }

  lemma {:induction false} HandSpoils(w: World, p: Pid, j: JobId, o: OrderId, a: nat) returns (more: seq<Step>)
    requires Inv(w) && Holds(w, p, j, o, a) && a < MAX_ATTEMPTS
    ensures Reviewed(Run(w, more), o)
    decreases MAX_ATTEMPTS - a, 0
  {
    hide Inv, Run, Apply, Queued, Holds, Reviewed;
    more := Driven(w, p, j, o, a);
    var w1 := Run(w, more);
    if !Reviewed(w1, o) {
      AttemptsLeft(w1, j, o, a + 1);
      var rest := QueueSpoils(w1, j, o, a + 1);
      RunSplits(w, more, rest);
      more := more + rest;
    }
  }

  // ---------------------------------------------------------------- the exact condition

  /** The payments waiting on the order carry intents nobody else holds. */
  ghost predicate IntentsFree(w: World, o: OrderId) {
    forall p :: p in w.requests && PaymentRaces.Commits(w, p, o) ==>
      IntentFree(w.db.orders, o, w.requests[p].intent)
  }

  lemma RequestSpoils(w: World, p: Pid, o: OrderId) returns (more: seq<Step>)
    requires o in w.db.orders && IntentsFree(w, o) && p in w.requests && Awaits(w.requests[p], w.db.jobs, o)
    ensures !Shut(Run(w, more).db, o)
  {
    assert PaymentRaces.Commits(w, p, o) ==> IntentFree(w.db.orders, o, w.requests[p].intent);
    hide Shut, Run, IntentFree, IntentsFree;
    match w.requests[p]
    case PaymentRead(_, _, _) => more := PaymentSpoils(w, p, o);
    case ResendRead(_, _) => more := ResendSpoils(w, p, o);
    case _ => more := RetrySpoils(w, p, o);
  }

  lemma WorkerSpoils(w: World, p: Pid, o: OrderId) returns (more: seq<Step>)
    requires Inv(w) && p in w.workers && Works(w.workers[p], w.db.jobs, o)
    ensures Reviewed(Run(w, more), o)
  {
    hide Inv, Run, Reviewed;
    if Escalates(w, p, o) {
      EscalateReviews(w, p, o);
      One(w, Escalate(p));
      more := [Escalate(p)];
    } else {
      var j :| j in Owned(w.workers[p]) && j in w.db.jobs && w.db.jobs[j].orderId == Some(o);
      HeldAttempts(w, p, j);
      more := HandSpoils(w, p, j, o, w.db.jobs[j].attempts);
    }
  }

  lemma HeldAttempts(w: World, p: Pid, j: JobId)
    requires Inv(w) && p in w.workers && j in Owned(w.workers[p]) && j in w.db.jobs
    ensures w.db.jobs[j].attempts < MAX_ATTEMPTS
  {
    hide OrderInv, GrantInv, EventsOk, KeysUnique, Covered, CountsOk;
    assert WorkerOk(p, w.workers[p], w.db.orders, w.db.jobs, w.owner, w.executions, w.requeues);
    assert JobRowOk(w.db.orders, w.db.jobs[j]);
  }

  lemma Spoilt(w: World, o: OrderId) returns (more: seq<Step>)
    requires Inv(w) && Shut(w.db, o) && IntentsFree(w, o) && UnderWay(w, o)
    ensures !Shut(Run(w, more).db, o)
  {
    hide Inv, Run, Awaits, Works, IntentsFree, Dead;
    if p :| p in w.requests && Awaits(w.requests[p], w.db.jobs, o) {
      more := RequestSpoils(w, p, o);
    } else if p :| p in w.workers && Works(w.workers[p], w.db.jobs, o) {
      more := WorkerSpoils(w, p, o);
    } else {
      var j :| Waits(w.db.jobs, o, j);
      more := QueueSpoils(w, j, o, w.db.jobs[j].attempts);
    }
  }

  /**
   * A refund stands, whatever runs afterwards, exactly when nothing about its
   * order is unfinished: no payment, retry or resend waiting, no job of it held
   * by a pass or due to be escalated, and none in the queue.
   */
  lemma RefundStandsExactly(steps: seq<Step>, o: OrderId)
    requires var w := Run(INIT, steps); Shut(w.db, o) && IntentsFree(w, o)
    ensures !UnderWay(Run(INIT, steps), o) <==> forall more :: Shut(Run(INIT, steps + more).db, o)
  {
    hide Run, Inv, Shut, IntentsFree, UnderWay;
    var w := Run(INIT, steps);
    ReachableOk(steps);
    if UnderWay(w, o) {
      var more := Spoilt(w, o);
      RunSplits(INIT, steps, more);
    } else {
      forall more ensures Shut(Run(INIT, steps + more).db, o) {
        RunSplits(INIT, steps, more);
        RunRests(w, more, o);
      }
    }
  }

  /** A refund that commits leaves its order shut. */
  lemma RefundShuts(steps: seq<Step>, p: Pid)
    requires var w := Run(INIT, steps);
             p in w.requests && w.requests[p].RefundRead? && w.requests[p].order in w.db.orders
    ensures Shut(Run(INIT, steps + [RefundCommit(p)]).db, Run(INIT, steps).requests[p].order)
  {
    var w := Run(INIT, steps);
    ReachableOk(steps);
    Extended(INIT, steps, RefundCommit(p));
    PaymentRaces.RefundApplies(w, p);
    RefundedTables(w.db, w.requests[p].order, w.now);
    hide Run, Apply, Inv, Shut, CommitRefund;
  }

  lemma RefundedTables(db: Db, o: OrderId, now: Time)
    requires o in db.orders && GrantsOk(db.orders, db.grants)
    ensures CommitRefund(db, o, now).Some? && Shut(CommitRefund(db, o, now).value, o)
  {
  }
}
