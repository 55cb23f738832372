/**
 * When a refund is the end of an order. Nobody looks at the status they overwrite, so
 * whatever is under way when it commits may move the order again, and nothing else.
 *
 * An order rests when it is refunded with its links dead and nothing about it is under
 * way. The lemmas go through the steps one by one: each is a few writes, none of them
 * about an order at rest, and what a pass or a request goes on to is not about it
 * either.
 */
module RefundFinal {
  import opened Prelude
  import opened Store
  import opened Protocol
  import opened Invariant
  import opened ProtocolTheorems
  import Backoff

  // ---------------------------------------------------------------- shut, and nothing under way

  /** No link of this order is alive. */
  ghost predicate Dead(grants: map<GrantId, Grant>, o: OrderId) {
    forall g :: g in grants && grants[g].item.order == o ==> !Live(grants[g])
  }

  ghost predicate Shut(db: Db, o: OrderId) {
    o in db.orders && db.orders[o].status == REFUNDED && Dead(db.grants, o)
  }

  /** A request with a call to make on this order. */
  predicate Awaits(r: Request, jobs: map<JobId, Job>, o: OrderId) {
    match r
    case PaymentRead(x, _, _) => x == o
    case RetryRequeued(x) => x == o
    case RetryChecked(x) => x == o && FailedOf(jobs, o) != {}
    case ResendRead(x, lines) => x == o && Deliverables(lines) != []
    case _ => false
  }

  /** A pass that holds a job of this order, or is about to escalate it. */
  predicate Works(worker: Worker, jobs: map<JobId, Job>, o: OrderId) {
    || (worker.Escalating? && worker.order == o)
    || exists j :: j in Owned(worker) && j in jobs && jobs[j].orderId == Some(o)
  }

  predicate Waits(jobs: map<JobId, Job>, o: OrderId, j: JobId) {
    j in jobs && jobs[j].orderId == Some(o) && jobs[j].status == PENDING
  }

  /** Something about the order is unfinished: a request, a pass, or a job in the queue. */
  ghost predicate UnderWay(w: World, o: OrderId) {
    || (exists p :: p in w.requests && Awaits(w.requests[p], w.db.jobs, o))
    || (exists p :: p in w.workers && Works(w.workers[p], w.db.jobs, o))
    || (exists j :: Waits(w.db.jobs, o, j))
  }

  ghost predicate Rests(w: World, o: OrderId) {
    Shut(w.db, o) && !UnderWay(w, o)
  }

  // ---------------------------------------------------------------- a step from rest

  /** Rows of this order's jobs may go, but none changes and none comes. */
  ghost predicate NoNewJobs(before: map<JobId, Job>, after: map<JobId, Job>, o: OrderId) {
    forall j :: j in after && after[j].orderId == Some(o) ==> j in before && before[j] == after[j]
  }

  ghost predicate NobodyComes(w: World, w': World, o: OrderId) {
    && (forall p :: p in w'.requests ==>
          (p in w.requests && w.requests[p] == w'.requests[p]) || !Awaits(w'.requests[p], w.db.jobs, o))
    && (forall p :: p in w'.workers ==>
          (p in w.workers && w.workers[p] == w'.workers[p]) || !Works(w'.workers[p], w.db.jobs, o))
  }

  lemma Moved(w: World, w': World, o: OrderId)
    requires Rests(w, o) && Shut(w'.db, o) && NoNewJobs(w.db.jobs, w'.db.jobs, o) && NobodyComes(w, w', o)
    ensures Rests(w', o)
  {
    forall p | p in w'.requests ensures !Awaits(w'.requests[p], w'.db.jobs, o) {
      assert FailedOf(w'.db.jobs, o) <= FailedOf(w.db.jobs, o);
      assert !Awaits(w'.requests[p], w.db.jobs, o);
    }
    forall p | p in w'.workers ensures !Works(w'.workers[p], w'.db.jobs, o) {
      assert !Works(w'.workers[p], w.db.jobs, o);
    }
    forall j ensures !Waits(w'.db.jobs, o, j) {
      assert !Waits(w.db.jobs, o, j);
    }
  }

  /** What a pass at rest holds is not of this order, nor is what it goes on to. */
  lemma Frees(w: World, p: Pid, next: Worker, o: OrderId)
    requires Rests(w, o) && p in w.workers
    requires forall j :: j in Owned(next) ==> j in Owned(w.workers[p])
    requires next.Escalating? ==> next.order != o
    ensures !Works(next, w.db.jobs, o)
  {
    assert !Works(w.workers[p], w.db.jobs, o);
  }

  lemma RestWorker(w: World, p: Pid, next: Worker, o: OrderId)
    requires Rests(w, o) && !Works(next, w.db.jobs, o)
    ensures Rests(SetWorker(w, p, next), o)
  {
    hide Shut, Works, Awaits;
    Moved(w, SetWorker(w, p, next), o);
  }

  lemma RestWorkers(w: World, p: Pid, o: OrderId)
    requires Rests(w, o)
    ensures Rests(w.(workers := Drop(w.workers, p)), o)
  {
    hide Shut, Works, Awaits;
    Moved(w, w.(workers := Drop(w.workers, p)), o);
  }

  lemma RestRequest(w: World, p: Pid, r: Request, o: OrderId)
    requires Rests(w, o) && !Awaits(r, w.db.jobs, o)
    ensures Rests(w.(requests := w.requests[p := r]), o)
  {
    hide Shut, Works, Awaits;
    Moved(w, w.(requests := w.requests[p := r]), o);
  }

  lemma RestEnd(w: World, p: Pid, o: OrderId)
    requires Rests(w, o)
    ensures Rests(EndRequest(w, p), o)
  {
    hide Shut, Works, Awaits;
    Moved(w, EndRequest(w, p), o);
  }

  lemma RestDb(w: World, db: Db, o: OrderId)
    requires Rests(w, o) && Shut(db, o) && NoNewJobs(w.db.jobs, db.jobs, o)
    ensures Rests(w.(db := db), o)
  {
    hide Shut, Works, Awaits;
    Moved(w, w.(db := db), o);
  }

  /** Columns the order does not hang on. */
  lemma RestElse(w: World, w1: World, o: OrderId)
    requires Rests(w, o) && w1.db == w.db && w1.workers == w.workers && w1.requests == w.requests
    ensures Rests(w1, o)
  {
  }

  /** Tables the order does not hang on. */
  lemma RestTables(w: World, db: Db, o: OrderId)
    requires Rests(w, o) && db.orders == w.db.orders && db.jobs == w.db.jobs && db.grants == w.db.grants
    ensures Rests(w.(db := db), o)
  {
    RestDb(w, db, o);
  }

  // ---------------------------------------------------------------- the queue

  lemma HandOver(w: World, p: Pid, next: Worker, o: OrderId)
    requires Rests(w, o) && p in w.workers
    requires forall j :: j in Owned(next) ==> j in Owned(w.workers[p])
    requires next.Escalating? ==> next.order != o
    ensures Rests(SetWorker(w, p, next), o)
  {
    hide Rests, Works, SetWorker;
    Frees(w, p, next, o);
    RestWorker(w, p, next, o);
  }

  lemma ReadBatchRests(w: World, p: Pid, ids: seq<JobId>, o: OrderId)
    requires Rests(w, o)
    ensures Rests(DoReadBatch(w, p, ids), o)
  {
    assert !Works(Reading(ids), w.db.jobs, o);
    RestWorker(w, p, Reading(ids), o);
    hide Rests, IsBatch, SetWorker;
  }

  /** A claim takes no job of this order: none of them is pending. */
  lemma ClaimedTables(db: Db, ids: seq<JobId>, o: OrderId)
    requires Shut(db, o) && forall j :: !Waits(db.jobs, o, j)
    ensures var hit := Claimable(db.jobs, ids);
            var jobs := SetProcessing(db.jobs, hit);
            && Shut(db.(jobs := jobs), o) && NoNewJobs(db.jobs, jobs, o)
            && (|hit| == |ids| ==> forall j :: j in ids && j in jobs ==> jobs[j].orderId != Some(o))
  {
    var hit := Claimable(db.jobs, ids);
    forall j | j in hit ensures db.jobs[j].orderId != Some(o) {
      assert !Waits(db.jobs, o, j);
    }
    if |hit| == |ids| {
      ClaimedAll(db.jobs, ids);
    }
  }

  lemma ClaimedAll(jobs: map<JobId, Job>, ids: seq<JobId>)
    requires |Claimable(jobs, ids)| == |ids|
    ensures forall j :: j in ids ==> j in Claimable(jobs, ids)
  {
    var all := ToSet(ids);
    SetOfSeqBound(ids);
    if exists j :: j in ids && j !in Claimable(jobs, ids) {
      var j :| j in ids && j !in Claimable(jobs, ids);
      assert Claimable(jobs, ids) <= all - {j};
      SubsetSize(Claimable(jobs, ids), all - {j});
    }
  }

  lemma {:induction false} SetOfSeqBound(ids: seq<JobId>)
    ensures |ToSet(ids)| <= |ids|
  {
    if ids != [] {
      var n := |ids| - 1;
      SetOfSeqBound(ids[..n]);
      assert ids == ids[..n] + [ids[n]];
      assert ToSet(ids) == ToSet(ids[..n]) + {ids[n]};
    }
  }

  lemma ClaimRests(w: World, p: Pid, o: OrderId)
    requires Rests(w, o)
    ensures Rests(DoClaim(w, p), o)
  {
    if p in w.workers && w.workers[p].Reading? {
      var ids := w.workers[p].ids;
      var hit := Claimable(w.db.jobs, ids);
      var db1 := w.db.(jobs := SetProcessing(w.db.jobs, hit));
      var w1 := w.(db := db1);
      ClaimedTables(w.db, ids, o);
      hide Shut, SetProcessing, Claimable, NoNewJobs;
      RestDb(w, db1, o);
      if |hit| == |ids| {
        assert !Works(Idle(ids), db1.jobs, o);
        hide Rests;
        RestWorker(w1, p, Idle(ids), o);
        RestElse(SetWorker(w1, p, Idle(ids)), DoClaim(w, p), o);
      } else {
        hide Rests;
        RestWorkers(w1, p, o);
      }
    }
  }

  lemma BeginRests(w: World, p: Pid, o: OrderId)
    requires Rests(w, o)
    ensures Rests(DoBegin(w, p), o)
  {
    hide Rests;
    if p in w.workers && w.workers[p].Idle? {
      var q := w.workers[p].queue;
      if q == [] {
        RestWorkers(w, p, o);
      } else {
        HandOver(w, p, Running(q[0], Started, q[1..]), o);
        RestElse(SetWorker(w, p, Running(q[0], Started, q[1..])), DoBegin(w, p), o);
      }
    }
  }

  lemma LoadRests(w: World, p: Pid, o: OrderId)
    requires Rests(w, o)
    ensures Rests(DoLoad(w, p), o)
  {
    hide Rests, SetWorker;
    if p in w.workers && w.workers[p].Running? && w.workers[p].stage.Started? {
      var Running(j, _, q) := w.workers[p];
      HandOver(w, p, Raised(j, q), o);
      HandOver(w, p, Running(j, Loaded([]), q), o);
      if j in w.db.jobs && w.db.jobs[j].orderId.Some? && w.db.jobs[j].orderId.value in w.db.orders {
        HandOver(w, p, Running(j, Loaded(w.db.orders[w.db.jobs[j].orderId.value].lines), q), o);
      }
    }
  }

  lemma SendMailRests(w: World, p: Pid, o: OrderId)
    requires Rests(w, o)
    ensures Rests(DoSendMail(w, p), o)
  {
    hide Rests, SetWorker;
    if p in w.workers && w.workers[p].Running? {
      var Running(j, _, q) := w.workers[p];
      HandOver(w, p, Running(j, Mailed, q), o);
      HandOver(w, p, Finished(j, q), o);
    }
  }

  lemma ThrowRests(w: World, p: Pid, o: OrderId)
    requires Rests(w, o)
    ensures Rests(DoThrow(w, p), o)
  {
    hide Rests, SetWorker;
    if p in w.workers && (w.workers[p].Running? || w.workers[p].Finished?) {
      HandOver(w, p, Raised(w.workers[p].job, w.workers[p].queue), o);
    }
  }

  lemma ReadAttemptsRests(w: World, p: Pid, o: OrderId)
    requires Rests(w, o)
    ensures Rests(DoReadAttempts(w, p), o)
  {
    hide Rests, SetWorker;
    RestWorkers(w, p, o);
    if p in w.workers && w.workers[p].Raised? && w.workers[p].job in w.db.jobs {
      var Raised(j, q) := w.workers[p];
      HandOver(w, p, Counted(j, w.db.jobs[j].attempts, w.db.jobs[j].maxAttempts, q), o);
    }
  }

  lemma {:induction false} AddedElsewhere(
      grants: map<GrantId, Grant>, x: OrderId, idx: seq<nat>, ids: seq<GrantId>, now: Time, o: OrderId)
    requires |ids| == |idx| && x != o && Dead(grants, o)
    ensures Dead(AddGrants(grants, x, idx, ids, now), o)
  {
    if idx != [] {
      AddedElsewhere(grants, x, idx[..|idx|-1], ids[..|ids|-1], now, o);
    }
  }

  lemma EmittedElsewhere(db: Db, x: OrderId, lines: seq<Line>, ids: seq<GrantId>, now: Time, o: OrderId)
    requires |ids| == |Deliverables(lines)| && x != o && Shut(db, o)
    ensures Shut(db.(grants := EmitLinks(db.grants, x, lines, ids, now)), o)
  {
    var idx := Deliverables(lines);
    AddedElsewhere(RevokeLive(db.grants, set i | i in idx :: ItemKey(x, i), now), x, idx, ids, now, o);
  }

  lemma IssueGrantsRests(w: World, x: OrderId, lines: seq<Line>, ids: seq<GrantId>, o: OrderId)
    requires Rests(w, o) && |ids| == |Deliverables(lines)| && x != o
    ensures Rests(IssueGrants(w, x, lines, ids), o)
  {
    var db := w.db.(grants := EmitLinks(w.db.grants, x, lines, ids, w.now));
    EmittedElsewhere(w.db, x, lines, ids, w.now, o);
    hide Shut, EmitLinks;
    RestDb(w, db, o);
    hide Rests;
    RestElse(w.(db := db), IssueGrants(w, x, lines, ids), o);
  }

  lemma IssueLinksRests(w: World, p: Pid, ids: seq<GrantId>, o: OrderId)
    requires Rests(w, o)
    ensures Rests(DoIssueLinks(w, p, ids), o)
  {
    if p in w.workers && w.workers[p].Running? && w.workers[p].stage.Loaded? && w.workers[p].job in w.db.jobs {
      var Running(j, Loaded(lines), q) := w.workers[p];
      NotHeld(w, p, j, o);
      hide Rests, SetWorker, IssueGrants, FreshGrants, Deliverables;
      HandOver(w, p, Raised(j, q), o);
      if w.db.jobs[j].orderId.Some? && |ids| == |Deliverables(lines)| {
        var w1 := IssueGrants(w, w.db.jobs[j].orderId.value, lines, ids);
        IssueGrantsRests(w, w.db.jobs[j].orderId.value, lines, ids, o);
        SameHands(w, w.db.jobs[j].orderId.value, lines, ids);
        HandOver(w1, p, Running(j, Linked(|ids|), q), o);
      }
    }
  }

  lemma SameHands(w: World, x: OrderId, lines: seq<Line>, ids: seq<GrantId>)
    requires |ids| == |Deliverables(lines)|
    ensures IssueGrants(w, x, lines, ids).workers == w.workers
    ensures IssueGrants(w, x, lines, ids).db.jobs == w.db.jobs
  {
    hide EmitLinks;
  }

  lemma NotHeld(w: World, p: Pid, j: JobId, o: OrderId)
    requires Rests(w, o) && p in w.workers && j in Owned(w.workers[p]) && j in w.db.jobs
    ensures w.db.jobs[j].orderId != Some(o)
  {
    assert !Works(w.workers[p], w.db.jobs, o);
  }

  /** Another order's row is written. */
  lemma RestOrder(w: World, x: OrderId, row: Order, o: OrderId)
    requires Rests(w, o) && x != o
    ensures Rests(w.(db := SetOrder(w.db, x, row)), o)
  {
    RestDb(w, SetOrder(w.db, x, row), o);
  }

  /** Another order's job is written. */
  lemma RestJob(w: World, j: JobId, row: Job, o: OrderId)
    requires Rests(w, o) && j in w.db.jobs && w.db.jobs[j].orderId != Some(o) && row.orderId == w.db.jobs[j].orderId
    ensures Rests(w.(db := w.db.(jobs := w.db.jobs[j := row])), o)
  {
    RestDb(w, w.db.(jobs := w.db.jobs[j := row]), o);
  }

  lemma SubmitRests(w: World, p: Pid, o: OrderId)
    requires Rests(w, o)
    ensures Rests(DoSubmit(w, p), o)
  {
    if p in w.workers && w.workers[p].Running? && w.workers[p].job in w.db.jobs {
      var Running(j, _, q) := w.workers[p];
      NotHeld(w, p, j, o);
      hide Rests, SetWorker, SetOrder;
      if w.db.jobs[j].orderId.Some? && w.db.jobs[j].orderId.value in w.db.orders {
        var x := w.db.jobs[j].orderId.value;
        var row := SubmittedRow(w.db.orders[x], w.db.jobs[j].kind, w.now);
        RestOrder(w, x, row, o);
        HandOver(w.(db := SetOrder(w.db, x, row)), p, Finished(j, q), o);
      }
    }
  }

  lemma WriteDoneRests(w: World, p: Pid, o: OrderId)
    requires Rests(w, o)
    ensures Rests(DoWriteDone(w, p), o)
  {
    if p in w.workers && w.workers[p].Finished? && w.workers[p].job in w.db.jobs {
      var Finished(j, q) := w.workers[p];
      NotHeld(w, p, j, o);
      hide Rests, SetWorker;
      var row := Completed(w.db.jobs[j], w.now);
      RestJob(w, j, row, o);
      HandOver(w.(db := w.db.(jobs := w.db.jobs[j := row])), p, Idle(q), o);
    }
  }

  lemma WriteFailureRests(w: World, p: Pid, random: real, o: OrderId)
    requires Rests(w, o)
    ensures Rests(DoWriteFailure(w, p, random), o)
  {
    hide Backoff.BackoffMs, Rests, SetWorker, Drop;
    RestWorkers(w, p, o);
    if p in w.workers && w.workers[p].Counted? && 0.0 <= random < 1.0 && w.workers[p].job in w.db.jobs {
      var Counted(j, a, max, q) := w.workers[p];
      NotHeld(w, p, j, o);
      var row := FailedOnce(w.db.jobs[j], a, max, w.now + Backoff.BackoffMs(a + 1, random));
      var w1 := w.(db := w.db.(jobs := w.db.jobs[j := row]));
      RestJob(w, j, row, o);
      HandOver(w1, p, Idle(q), o);
      if row.orderId.Some? {
        HandOver(w1, p, Escalating(row.orderId.value, q), o);
      }
    }
  }

  lemma EscalateRests(w: World, p: Pid, o: OrderId)
    requires Rests(w, o)
    ensures Rests(DoEscalate(w, p), o)
  {
    RestWorkers(w, p, o);
    if p in w.workers && w.workers[p].Escalating? && w.workers[p].order in w.db.orders {
      var Escalating(x, q) := w.workers[p];
      assert x != o by { assert !Works(w.workers[p], w.db.jobs, o); }
      hide Rests, SetWorker, SetOrder;
      var row := w.db.orders[x].(status := NEEDS_REVIEW);
      RestOrder(w, x, row, o);
      HandOver(w.(db := SetOrder(w.db, x, row)), p, Idle(q), o);
    }
  }

  lemma QueueRests(w: World, s: Step, o: OrderId)
    requires IsQueueStep(s) && Rests(w, o)
    ensures Rests(ApplyQueue(w, s), o)
  {
    hide Rests, DoReadBatch, DoClaim, DoBegin, DoLoad, DoIssueLinks, DoSendMail, DoSubmit, DoThrow, DoWriteDone;
    hide DoReadAttempts, DoWriteFailure, DoEscalate;
    match s
    case ReadBatch(p, ids) => ReadBatchRests(w, p, ids, o);
    case ClaimBatch(p) => ClaimRests(w, p, o);
    case BeginJob(p) => BeginRests(w, p, o);
    case LoadOrder(p) => LoadRests(w, p, o);
    case IssueLinks(p, ids) => IssueLinksRests(w, p, ids, o);
    case SendMail(p) => SendMailRests(w, p, o);
    case Submit(p) => SubmitRests(w, p, o);
    case Throw(p) => ThrowRests(w, p, o);
    case WriteDone(p) => WriteDoneRests(w, p, o);
    case ReadAttempts(p) => ReadAttemptsRests(w, p, o);
    case WriteFailure(p, r) => WriteFailureRests(w, p, r, o);
    case Escalate(p) => EscalateRests(w, p, o);
    case CrashWorker(p) => RestWorkers(w, p, o);
  }

  // ---------------------------------------------------------------- payments and refunds

  lemma CheckoutRests(w: World, x: OrderId, lines: seq<Line>, email: string, o: OrderId)
    requires Rests(w, o) && o in w.usedOrders
    ensures Rests(DoCheckout(w, x, lines, email), o)
  {
    if x != o {
      var row := Order(PENDING_PAYMENT, None, None, None, w.now, email, lines);
      RestOrder(w, x, row, o);
      var w1 := w.(db := SetOrder(w.db, x, row));
      RestElse(w1, w1.(usedOrders := w.usedOrders + {x}), o);
      hide Rests, Sellable, SetOrder;
      if DoCheckout(w, x, lines, email) != w {
        assert DoCheckout(w, x, lines, email) == w1.(usedOrders := w.usedOrders + {x});
      }
    }
  }

  lemma ReceiveRests(w: World, p: Pid, e: EventId, payload: Payload, o: OrderId)
    requires Rests(w, o)
    ensures Rests(DoReceive(w, p, e, payload), o)
  {
    if p !in w.requests && e !in w.db.events {
      RestDb(w, w.db.(events := w.db.events + {e}), o);
      var w1 := w.(db := w.db.(events := w.db.events + {e}));
      RestRequest(w1, p, EventClaimed(e, payload), o);
      hide Rests;
      RestElse(w1.(requests := w1.requests[p := EventClaimed(e, payload)]), DoReceive(w, p, e, payload), o);
    }
  }

  lemma ReadPaymentRests(w: World, p: Pid, x: OrderId, intent: IntentId, o: OrderId)
    requires Rests(w, o)
    ensures Rests(ReadPayment(w, p, x, intent), o)
  {
    RestEnd(w, p, o);
    if x in w.db.orders && w.db.orders[x].status == PENDING_PAYMENT {
      RestRequest(w, p, PaymentRead(x, intent, w.db.orders[x].lines), o);
    }
    hide Rests, EndRequest;
  }

  lemma ReadRefundRests(w: World, p: Pid, x: OrderId, total: bool, o: OrderId)
    requires Rests(w, o)
    ensures Rests(ReadRefund(w, p, x, total), o)
  {
    RestEnd(w, p, o);
    RestRequest(w, p, RefundRead(x), o);
    hide Rests, EndRequest;
  }

  lemma ExpireRests(w: World, x: OrderId, o: OrderId)
    requires Rests(w, o)
    ensures Rests(w.(db := ExpireSession(w.db, x)), o)
  {
    RestDb(w, ExpireSession(w.db, x), o);
  }

  lemma CancelRests(w: World, x: OrderId, o: OrderId)
    requires Rests(w, o)
    ensures Rests(w.(db := CancelUnpaid(w.db, x)), o)
  {
    RestDb(w, CancelUnpaid(w.db, x), o);
  }

  lemma TakenRests(w: World, p: Pid, dispatched: map<EventId, nat>, o: OrderId)
    requires Rests(w, o)
    ensures Rests(w.(requests := Drop(w.requests, p), dispatched := dispatched), o)
  {
    RestEnd(w, p, o);
    RestElse(EndRequest(w, p), w.(requests := Drop(w.requests, p), dispatched := dispatched), o);
  }

  lemma DispatchRests(w: World, p: Pid, o: OrderId)
    requires Rests(w, o)
    ensures Rests(DoDispatch(w, p), o)
  {
    hide Rests, ReadPayment, ReadRefund, ExpireSession, Drop;
    if p in w.requests && w.requests[p].EventClaimed? {
      var e := w.requests[p].event;
      var w1 := w.(requests := Drop(w.requests, p),
                   dispatched := w.dispatched[e := if e in w.dispatched then w.dispatched[e] + 1 else 1]);
      TakenRests(w, p, w1.dispatched, o);
      match w.requests[p].payload
      case PaymentSucceeded(x, intent) => ReadPaymentRests(w1, p, x, intent, o);
      case SessionExpired(x) => ExpireRests(w1, x, o);
      case ChargeRefunded(x, total) => ReadRefundRests(w1, p, x, total, o);
      case Other =>
    }
  }

  lemma RefundTables(db: Db, x: OrderId, now: Time, o: OrderId)
    requires Shut(db, o) && x in db.orders
    ensures Shut(CommitRefund(db, x, now).value, o) && CommitRefund(db, x, now).value.jobs == db.jobs
  {
  }

  lemma RefundRests(w: World, p: Pid, o: OrderId)
    requires Rests(w, o)
    ensures Rests(DoRefundCommit(w, p), o)
  {
    RestEnd(w, p, o);
    if p in w.requests && w.requests[p].RefundRead? && w.requests[p].order in w.db.orders {
      var x := w.requests[p].order;
      RefundTables(w.db, x, w.now, o);
      hide Shut;
      var db := CommitRefund(w.db, x, w.now).value;
      RestDb(w, db, o);
      RestEnd(w.(db := db), p, o);
    }
    hide Rests, EndRequest;
  }

  lemma PaidTables(db: Db, x: OrderId, intent: IntentId, lines: seq<Line>, j1: JobId, j2: JobId, now: Time, o: OrderId)
    requires Shut(db, o) && x != o && CommitPayment(db, x, intent, lines, j1, j2, now).Some?
    ensures var after := CommitPayment(db, x, intent, lines, j1, j2, now).value;
            Shut(after, o) && NoNewJobs(db.jobs, after.jobs, o)
  {
    hide KeyTaken, IntentFree, DeliveryKind;
  }

  lemma PaymentRests(w: World, p: Pid, j1: JobId, j2: JobId, o: OrderId)
    requires Rests(w, o)
    ensures Rests(DoPaymentCommit(w, p, j1, j2), o)
  {
    RestEnd(w, p, o);
    if p in w.requests && w.requests[p].PaymentRead? {
      var r := w.requests[p];
      assert r.order != o by { assert !Awaits(r, w.db.jobs, o); }
      var result := CommitPayment(w.db, r.order, r.intent, r.lines, j1, j2, w.now);
      if result.Some? {
        PaidTables(w.db, r.order, r.intent, r.lines, j1, j2, w.now, o);
        hide Shut, CommitPayment, FreshJob;
        RestDb(w, result.value, o);
        var w1 := NewJobs(w, result.value.jobs).(db := result.value);
        RestElse(w.(db := result.value), w1, o);
        RestEnd(w1, p, o);
      }
    }
    hide Rests, EndRequest, NewJobs, CommitPayment, FreshJob;
  }

  lemma PaymentStepRests(w: World, s: Step, o: OrderId)
    requires IsPaymentStep(s) && Rests(w, o) && o in w.usedOrders
    ensures Rests(ApplyPayment(w, s), o)
  {
    hide Rests, DoCheckout, DoReceive, DoDispatch, ReadPayment, DoPaymentCommit, DoRefundCommit, ExpireSession;
    hide CancelUnpaid;
    match s
    case Tick(t) => RestElse(w, w.(now := t), o);
    case AddProduct(x) => RestTables(w, w.db.(products := w.db.products + {x}), o);
    case AddVariant(v, x) => RestTables(w, w.db.(variants := w.db.variants[v := x]), o);
    case Checkout(x, lines, email) => CheckoutRests(w, x, lines, email, o);
    case ReceiveEvent(p, e, payload) => ReceiveRests(w, p, e, payload, o);
    case DispatchEvent(p) => DispatchRests(w, p, o);
    case ReconcilePaid(p, x, intent) => ReadPaymentRests(w, p, x, intent, o);
    case ReconcileExpired(x) => ExpireRests(w, x, o);
    case ReconcileNoSession(x) => CancelRests(w, x, o);
    case PaymentCommit(p, j1, j2) => PaymentRests(w, p, j1, j2, o);
    case RefundCommit(p) => RefundRests(w, p, o);
  }

  // ---------------------------------------------------------------- upkeep, administration, downloads

  /** Only never-charged orders are deleted, and only their jobs and grants go with them. */
  lemma DeletedTables(db: Db, victims: set<OrderId>, o: OrderId)
    requires Shut(db, o) && DeleteOrders(db, victims).Some?
    ensures Shut(DeleteOrders(db, victims).value, o)
    ensures NoNewJobs(db.jobs, DeleteOrders(db, victims).value.jobs, o)
  {
    assert !NeverCharged(db.orders[o]);
    assert o !in victims;
  }

  lemma PurgeRests(w: World, o: OrderId)
    requires Rests(w, o)
    ensures Rests(DoPurgeUnpaid(w), o)
  {
    var victims := StaleUnpaid(w.db, Before(w.now, DIAS_RETENCION_SIN_COBRO));
    hide StaleUnpaid;
    if DeleteOrders(w.db, victims).Some? {
      DeletedTables(w.db, victims, o);
      hide Shut, DeleteOrders;
      RestDb(w, DeleteOrders(w.db, victims).value, o);
    }
    hide Rests, DeleteOrders;
  }

  lemma PurgeJobsRests(w: World, limit: Time, o: OrderId)
    requires Rests(w, o)
    ensures Rests(w.(db := w.db.(jobs := PurgeDone(w.db.jobs, limit))), o)
  {
    RestDb(w, w.db.(jobs := PurgeDone(w.db.jobs, limit)), o);
  }

  lemma ContactRests(w: World, j: JobId, ref: nat, o: OrderId)
    requires Rests(w, o)
    ensures Rests(NewJobs(w, Enqueue(w.db.jobs, j, SEND_CONTACT_MESSAGE, ref, None, w.now)), o)
  {
    hide KeyTaken;
    var jobs := Enqueue(w.db.jobs, j, SEND_CONTACT_MESSAGE, ref, None, w.now);
    RestDb(w, w.db.(jobs := jobs), o);
    hide Rests;
    RestElse(w.(db := w.db.(jobs := jobs)), NewJobs(w, jobs), o);
  }

  lemma CheckRetryRests(w: World, p: Pid, x: OrderId, o: OrderId)
    requires Rests(w, o)
    ensures Rests(DoCheckRetry(w, p, x), o)
  {
    if x != o {
      RestRequest(w, p, RetryChecked(x), o);
    }
    hide Rests;
  }

  lemma RequeuedTables(db: Db, x: OrderId, now: Time, o: OrderId)
    requires Shut(db, o) && x != o
    ensures Shut(db.(jobs := RequeueFailed(db.jobs, x, now)), o)
    ensures NoNewJobs(db.jobs, RequeueFailed(db.jobs, x, now), o)
  {
  }

  lemma RequeueRests(w: World, p: Pid, o: OrderId)
    requires Rests(w, o)
    ensures Rests(DoRequeueRetry(w, p), o)
  {
    RestEnd(w, p, o);
    if p in w.requests && w.requests[p].RetryChecked? {
      var x := w.requests[p].order;
      assert x == o ==> FailedOf(w.db.jobs, o) == {} by { assert !Awaits(w.requests[p], w.db.jobs, o); }
      hide FailedOf;
      if FailedOf(w.db.jobs, x) != {} {
        RequeuedTables(w.db, x, w.now, o);
        hide Shut, RequeueFailed;
        var db := w.db.(jobs := RequeueFailed(w.db.jobs, x, w.now));
        RestDb(w, db, o);
        RestRequest(w.(db := db), p, RetryRequeued(x), o);
        hide Rests;
        RestElse(w.(db := db, requests := w.requests[p := RetryRequeued(x)]), DoRequeueRetry(w, p), o);
      }
    }
    hide Rests, EndRequest;
  }

  lemma MoveRetryRests(w: World, p: Pid, o: OrderId)
    requires Rests(w, o)
    ensures Rests(DoMoveRetry(w, p), o)
  {
    RestEnd(w, p, o);
    if p in w.requests && w.requests[p].RetryRequeued? && w.requests[p].order in w.db.orders {
      var x := w.requests[p].order;
      assert x != o by { assert !Awaits(w.requests[p], w.db.jobs, o); }
      RestOrder(w, x, w.db.orders[x].(status := PAID), o);
      RestEnd(w.(db := SetOrder(w.db, x, w.db.orders[x].(status := PAID))), p, o);
    }
    hide Rests, EndRequest, SetOrder;
  }

  lemma UpkeepRests(w: World, s: Step, o: OrderId)
    requires IsUpkeepStep(s) && Rests(w, o)
    ensures Rests(ApplyUpkeep(w, s), o)
  {
    hide Rests, DoPurgeUnpaid, PurgeDone, NewJobs, Enqueue, DoCheckRetry, DoRequeueRetry, DoMoveRetry, FreshJob;
    match s
    case PurgeUnpaid => PurgeRests(w, o);
    case PurgeJobs => PurgeJobsRests(w, Before(w.now, DIAS_RETENCION_TRABAJOS_HECHOS), o);
    case EnqueueContact(j, ref) => ContactRests(w, j, ref, o);
    case CheckRetry(p, x) => CheckRetryRests(w, p, x, o);
    case RequeueRetry(p) => RequeueRests(w, p, o);
    case MoveRetry(p) => MoveRetryRests(w, p, o);
  }

  lemma DeletionRests(w: World, p: Pid, o: OrderId)
    requires Rests(w, o)
    ensures Rests(DoCommitDeletion(w, p), o)
  {
    RestEnd(w, p, o);
    if p in w.requests && w.requests[p].DeletionChecked? {
      var x := w.requests[p].product;
      var result := DeleteProduct(w.db, x);
      if result.Some? {
        DeletedTables(w.db, UnpaidOf(w.db, x), o);
        hide DeleteOrders, UnpaidOf;
        DroppedTables(w.db, x, o);
        hide Shut, DeleteProduct;
        RestDb(w, result.value, o);
        RestEnd(w.(db := result.value), p, o);
      }
    }
    hide Rests, EndRequest, DeleteProduct;
  }

  lemma DroppedTables(db: Db, x: ProductId, o: OrderId)
    requires DeleteProduct(db, x).Some? && DeleteOrders(db, UnpaidOf(db, x)).Some?
    requires Shut(DeleteOrders(db, UnpaidOf(db, x)).value, o)
    requires NoNewJobs(db.jobs, DeleteOrders(db, UnpaidOf(db, x)).value.jobs, o)
    ensures Shut(DeleteProduct(db, x).value, o) && NoNewJobs(db.jobs, DeleteProduct(db, x).value.jobs, o)
  {
    hide DeleteOrders, UnpaidOf;
  }

  lemma VariantRests(w: World, p: Pid, o: OrderId)
    requires Rests(w, o)
    ensures Rests(DoCommitVariant(w, p), o)
  {
    RestEnd(w, p, o);
    if p in w.requests && w.requests[p].VariantChecked? {
      var result := DeleteVariant(w.db, w.requests[p].variant);
      hide VariantReferenced;
      if result.Some? {
        RestDb(w, result.value, o);
        RestEnd(w.(db := result.value), p, o);
      }
    }
    hide Rests, EndRequest, DeleteVariant;
  }

  lemma ResendRests(w: World, p: Pid, ids: seq<GrantId>, o: OrderId)
    requires Rests(w, o)
    ensures Rests(DoIssueResend(w, p, ids), o)
  {
    RestEnd(w, p, o);
    if p in w.requests && w.requests[p].ResendRead? {
      var ResendRead(x, lines) := w.requests[p];
      assert x != o || Deliverables(lines) == [] by { assert !Awaits(w.requests[p], w.db.jobs, o); }
      hide Rests, FreshGrants, Deliverables, IssueGrants;
      if Deliverables(lines) != [] && |ids| == |Deliverables(lines)| {
        IssueGrantsRests(w, x, lines, ids, o);
        RestEnd(IssueGrants(w, x, lines, ids), p, o);
      }
    }
    hide Rests, EndRequest;
  }

  lemma ReadResendRests(w: World, p: Pid, x: OrderId, email: string, o: OrderId)
    requires Rests(w, o)
    ensures Rests(DoReadResend(w, p, x, email), o)
  {
    if x != o && x in w.db.orders {
      RestRequest(w, p, ResendRead(x, w.db.orders[x].lines), o);
    }
    hide Rests;
  }

  lemma AdminRests(w: World, s: Step, o: OrderId)
    requires IsAdminStep(s) && Rests(w, o)
    ensures Rests(ApplyAdmin(w, s), o)
  {
    hide Rests, DoCommitDeletion, DoCommitVariant, DoReadResend, DoIssueResend, EndRequest, HasSales;
    hide VariantReferenced;
    match s
    case CheckDeletion(p, x) => RestRequest(w, p, DeletionChecked(x), o);
    case CommitDeletion(p) => DeletionRests(w, p, o);
    case CheckVariant(p, v) => RestRequest(w, p, VariantChecked(v), o);
    case CommitVariant(p) => VariantRests(w, p, o);
    case ReadResend(p, x, email) => ReadResendRests(w, p, x, email, o);
    case IssueResend(p, ids) => ResendRests(w, p, ids, o);
    case CrashRequest(p) => RestEnd(w, p, o);
  }

  lemma CountedTables(db: Db, g: GrantId, o: OrderId)
    requires Shut(db, o) && g in db.grants
    ensures Shut(db.(grants := CountDownload(db.grants, g)), o)
  {
  }

  lemma CountRests(w: World, p: Pid, o: OrderId)
    requires Rests(w, o)
    ensures Rests(DoCountUse(w, p), o)
  {
    RestElse(w, w.(downloads := Drop(w.downloads, p)), o);
    if p in w.downloads && w.downloads[p].GrantRead? && w.downloads[p].grant in w.db.grants {
      var g := w.downloads[p].grant;
      CountedTables(w.db, g, o);
      hide Shut, CountDownload;
      var db := w.db.(grants := CountDownload(w.db.grants, g));
      RestDb(w, db, o);
      RestElse(w.(db := db), w.(db := db, downloads := w.downloads[p := Signing(g)]), o);
    }
    hide Rests, CountDownload, Drop;
  }

  lemma GrantReadRests(w: World, p: Pid, g: GrantId, o: OrderId)
    requires Rests(w, o)
    ensures Rests(DoReadGrant(w, p, g), o)
  {
    hide Rests, Downloadable;
    RestElse(w, DoReadGrant(w, p, g), o);
  }

  lemma HandOutRests(w: World, p: Pid, o: OrderId)
    requires Rests(w, o)
    ensures Rests(DoHandOut(w, p), o)
  {
    hide Rests, Drop;
    RestElse(w, DoHandOut(w, p), o);
  }

  lemma DownloadRests(w: World, s: Step, o: OrderId)
    requires IsDownloadStep(s) && Rests(w, o)
    ensures Rests(ApplyDownload(w, s), o)
  {
    hide Rests, Downloadable, DoReadGrant, DoCountUse, DoHandOut, Drop;
    match s
    case ReadGrant(p, g) => GrantReadRests(w, p, g, o);
    case CountUse(p) => CountRests(w, p, o);
    case HandOut(p) => HandOutRests(w, p, o);
    case CrashDownload(p) => RestElse(w, w.(downloads := Drop(w.downloads, p)), o);
  }

  // ---------------------------------------------------------------- every run from rest

  /** A refund with nothing under way: no step moves the order, revives a link or starts anything about it. */
  lemma StepRests(w: World, s: Step, o: OrderId)
    requires Inv(w) && Rests(w, o)
    ensures Rests(Apply(w, s), o)
  {
    assert o in w.usedOrders;
    hide Inv, Rests, ApplyPayment, ApplyUpkeep, ApplyAdmin, ApplyDownload, ApplyQueue;
    if IsPaymentStep(s) {
      PaymentStepRests(w, s, o);
    } else if IsUpkeepStep(s) {
      UpkeepRests(w, s, o);
    } else if IsAdminStep(s) {
      AdminRests(w, s, o);
    } else if IsDownloadStep(s) {
      DownloadRests(w, s, o);
    } else {
      QueueRests(w, s, o);
    }
  }

  lemma {:induction false} RunRests(w: World, more: seq<Step>, o: OrderId)
    requires Inv(w) && Rests(w, o)
    ensures Rests(Run(w, more), o)
    decreases |more|
  {
    hide Inv, Rests, Apply, Later;
    if more != [] {
      var before, s := more[..|more|-1], more[|more|-1];
      RunRests(w, before, o);
      RunKeeps(w, before);
      StepRests(Run(w, before), s, o);
    }
  }
}
