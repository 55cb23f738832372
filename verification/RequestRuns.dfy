/**
 * Every request of the services, run to its end with nobody in between, is a run of the
 * protocol: the guarantees proved over all interleavings are guarantees of that code too.
 *
 * Each handler is given as the steps it takes, and those steps are shown to leave the
 * tables of the function the handler is proved against: the webhooks, the sweep of the
 * reconciliation order by order, the retry, the two deletions, the resend and the
 * download. The pass over the queue has a file of its own.
 */
module RequestRuns {
  import opened Prelude
  import opened Store
  import opened Protocol
  import opened Invariant
  import opened PaymentOnce
  import opened Reconciliation
  import opened ProtocolTheorems
  import LinkLife
  import Maintenance

  lemma RunTwo(w: World, a: Step, b: Step)
    ensures Run(w, [a, b]) == Apply(Apply(w, a), b)
  {
    hide Apply;
    assert [a, b][..1] == [a] && [a][..0] == [];
    assert Run(w, [a]) == Apply(w, a) by {
      assert Run(w, []) == w;
    }
  }

  lemma RunThree(w: World, a: Step, b: Step, c: Step)
    ensures Run(w, [a, b, c]) == Apply(Apply(Apply(w, a), b), c)
  {
    hide Apply;
    RunTwo(w, a, b);
    assert [a, b, c][..2] == [a, b];
  }

  // ---------------------------------------------------------------- steps of a request

  /** Columns a request between its calls leaves alone. */
  predicate SameQueue(w: World, w': World) {
    w'.now == w.now && w'.executions == w.executions && w'.requeues == w.requeues && w'.db.jobs == w.db.jobs
  }

  lemma Received(w: World, p: Pid, e: EventId, payload: Payload)
    requires p !in w.requests
    ensures var w' := Apply(w, ReceiveEvent(p, e, payload));
            && w'.db == w.db.(events := w.db.events + {e}) && SameQueue(w, w')
            && w'.requests == if e in w.db.events then w.requests else w.requests[p := EventClaimed(e, payload)]
  {
    assert e in w.db.events ==> w.db.events + {e} == w.db.events;
    assert Apply(w, ReceiveEvent(p, e, payload)) == DoReceive(w, p, e, payload) by {
      hide DoReceive;
    }
    hide Apply;
  }

  lemma Ended(w: World, p: Pid)
    ensures EndRequest(w, p).db == w.db && SameQueue(w, EndRequest(w, p)) && p !in EndRequest(w, p).requests
    ensures p !in w.requests ==> EndRequest(w, p) == w
  {
    assert p !in w.requests ==> Drop(w.requests, p) == w.requests;
  }

  lemma PaymentIsRead(w: World, p: Pid, o: OrderId, intent: IntentId)
    ensures var w' := ReadPayment(w, p, o, intent);
            && w'.db == w.db && SameQueue(w, w')
            && if o in w.db.orders && w.db.orders[o].status == PENDING_PAYMENT
               then p in w'.requests && w'.requests[p] == PaymentRead(o, intent, w.db.orders[o].lines)
               else p !in w'.requests
  {
    Ended(w, p);
    hide EndRequest;
  }

  lemma Committed(w: World, p: Pid, j1: JobId, j2: JobId)
    requires p in w.requests && w.requests[p].PaymentRead? && FreshJob(w, j1) && FreshJob(w, j2) && j1 != j2
    ensures var w' := Apply(w, PaymentCommit(p, j1, j2));
            var r := w.requests[p];
            var result := CommitPayment(w.db, r.order, r.intent, r.lines, j1, j2, w.now);
            && w'.db == (if result.Some? then result.value else w.db) && w'.now == w.now && p !in w'.requests
            && w'.executions.Keys <= w.executions.Keys + (w'.db.jobs.Keys - w.db.jobs.Keys)
            && w'.requeues.Keys <= w.requeues.Keys + (w'.db.jobs.Keys - w.db.jobs.Keys)
  {
    hide CommitPayment;
    var r := w.requests[p];
    var result := CommitPayment(w.db, r.order, r.intent, r.lines, j1, j2, w.now);
    assert Apply(w, PaymentCommit(p, j1, j2)) == DoPaymentCommit(w, p, j1, j2) by {
      hide DoPaymentCommit;
    }
    hide Apply;
    Ended(w, p);
    if result.Some? {
      Ended(NewJobs(w, result.value.jobs).(db := result.value), p);
      Born(w, result.value);
    }
    hide EndRequest, NewJobs, FreshJob;
  }

  lemma Born(w: World, db: Db)
    ensures var w' := NewJobs(w, db.jobs).(db := db);
            && w'.now == w.now
            && w'.executions.Keys <= w.executions.Keys + (db.jobs.Keys - w.db.jobs.Keys)
            && w'.requeues.Keys <= w.requeues.Keys + (db.jobs.Keys - w.db.jobs.Keys)
  {
  }

  lemma Dispatched(w: World, p: Pid)
    requires p in w.requests && w.requests[p].EventClaimed?
    ensures var e := w.requests[p].event;
            var w1 := w.(requests := Drop(w.requests, p),
                         dispatched := w.dispatched[e := if e in w.dispatched then w.dispatched[e] + 1 else 1]);
            Apply(w, DispatchEvent(p)) == match w.requests[p].payload
              case PaymentSucceeded(o, intent) => ReadPayment(w1, p, o, intent)
              case SessionExpired(o) => w1.(db := ExpireSession(w1.db, o))
              case ChargeRefunded(o, total) => ReadRefund(w1, p, o, total)
              case Other => w1
  {
    hide ReadPayment, ReadRefund, ExpireSession, Drop;
  }

  lemma NothingToDispatch(w: World, p: Pid)
    requires p !in w.requests
    ensures Apply(w, DispatchEvent(p)) == w
    ensures forall j1, j2 :: Apply(w, PaymentCommit(p, j1, j2)) == w
    ensures Apply(w, RefundCommit(p)) == w && Apply(w, CrashRequest(p)).db == w.db
  {
    Ended(w, p);
    hide EndRequest;
  }

  // ---------------------------------------------------------------- webhooks

  /** The last call of a payment: its transaction, or whatever makes it fail. */
  function Closing(p: Pid, fails: bool, j1: JobId, j2: JobId): Step {
    if fails then CrashRequest(p) else PaymentCommit(p, j1, j2)
  }

  /** What the last call leaves of a payment that was read, or of none. */
  lemma Closed(w: World, p: Pid, o: OrderId, intent: IntentId, fails: bool, j1: JobId, j2: JobId)
    requires FreshJob(w, j1) && FreshJob(w, j2) && j1 != j2
    requires if o in w.db.orders && w.db.orders[o].status == PENDING_PAYMENT
             then p in w.requests && w.requests[p] == PaymentRead(o, intent, w.db.orders[o].lines)
             else p !in w.requests
    ensures var w' := Apply(w, Closing(p, fails, j1, j2));
            && w'.db == HandlePayment(w.db, o, intent, fails, j1, j2, w.now)
            && w'.now == w.now && p !in w'.requests
            && w'.executions.Keys <= w.executions.Keys + (w'.db.jobs.Keys - w.db.jobs.Keys)
            && w'.requeues.Keys <= w.requeues.Keys + (w'.db.jobs.Keys - w.db.jobs.Keys)
  {
    hide CommitPayment, FreshJob, EndRequest, Apply;
    if p !in w.requests {
      NothingToDispatch(w, p);
      CrashEnds(w, p);
    } else if fails {
      CrashEnds(w, p);
    } else {
      Committed(w, p, j1, j2);
    }
  }

  lemma CrashEnds(w: World, p: Pid)
    ensures var w' := Apply(w, CrashRequest(p)); w'.db == w.db && SameQueue(w, w') && p !in w'.requests
  {
    Ended(w, p);
    hide EndRequest;
  }

  /** A payment event, received, dispatched and committed or not, leaves what the webhook's attempt leaves. */
  lemma PaymentWebhookIsARun(
      w: World, p: Pid, e: EventId, o: OrderId, intent: IntentId, fails: bool, j1: JobId, j2: JobId)
    requires p !in w.requests && FreshJob(w, j1) && FreshJob(w, j2) && j1 != j2
    ensures Run(w, [ReceiveEvent(p, e, PaymentSucceeded(o, intent)), DispatchEvent(p), Closing(p, fails, j1, j2)]).db
         == Try(w.db, o, intent, Webhook(e, fails, j1, j2, w.now))
  {
    hide Apply, CommitPayment, Drop, FreshJob, HandlePayment, Closing;
    var payload := PaymentSucceeded(o, intent);
    RunThree(w, ReceiveEvent(p, e, payload), DispatchEvent(p), Closing(p, fails, j1, j2));
    Received(w, p, e, payload);
    var w1 := Apply(w, ReceiveEvent(p, e, payload));
    if e in w.db.events {
      assert w.db.events + {e} == w.db.events;
      NothingToDispatch(w1, p);
      ClosesNothing(w1, p, fails, j1, j2);
    } else {
      Dispatched(w1, p);
      var w2 := Apply(w1, DispatchEvent(p));
      PaymentIsRead(w1.(requests := Drop(w1.requests, p),
                        dispatched := w1.dispatched[e := if e in w1.dispatched then w1.dispatched[e] + 1 else 1]),
                    p, o, intent);
      SameFresh(w, w2, j1);
      SameFresh(w, w2, j2);
      Closed(w2, p, o, intent, fails, j1, j2);
    }
  }

  lemma ClosesNothing(w: World, p: Pid, fails: bool, j1: JobId, j2: JobId)
    requires p !in w.requests
    ensures Apply(w, Closing(p, fails, j1, j2)).db == w.db
  {
    hide Apply;
    NothingToDispatch(w, p);
  }

  lemma SameFresh(w: World, w': World, j: JobId)
    requires FreshJob(w, j) && SameQueue(w, w')
    ensures FreshJob(w', j)
  {
  }

  /** An expired session, received and dispatched, cancels its order if that is pending. */
  lemma ExpiryWebhookIsARun(w: World, p: Pid, e: EventId, o: OrderId)
    requires p !in w.requests && e !in w.db.events
    ensures Run(w, [ReceiveEvent(p, e, SessionExpired(o)), DispatchEvent(p)]).db
         == ExpireSession(w.db.(events := w.db.events + {e}), o)
  {
    hide Apply, Drop, ExpireSession;
    RunTwo(w, ReceiveEvent(p, e, SessionExpired(o)), DispatchEvent(p));
    Received(w, p, e, SessionExpired(o));
    Dispatched(Apply(w, ReceiveEvent(p, e, SessionExpired(o))), p);
  }

  lemma RefundCommitted(w: World, p: Pid, o: OrderId)
    requires p in w.requests && w.requests[p] == RefundRead(o) && o in w.db.orders
    ensures Some(Apply(w, RefundCommit(p)).db) == CommitRefund(w.db, o, w.now)
  {
    var result := CommitRefund(w.db, o, w.now);
    assert result.Some?;
    hide CommitRefund;
    Ended(w.(db := result.value), p);
    assert Apply(w, RefundCommit(p)) == DoRefundCommit(w, p) by {
      hide DoRefundCommit;
    }
    hide Apply, EndRequest;
  }

  /** The tables before the last call of a refund's webhook, and what waits for it. */
  lemma RefundUpToCommit(w: World, p: Pid, e: EventId, o: OrderId, total: bool)
    requires p !in w.requests && e !in w.db.events
    ensures var w2 := Apply(Apply(w, ReceiveEvent(p, e, ChargeRefunded(o, total))), DispatchEvent(p));
            && w2.db == w.db.(events := w.db.events + {e}) && w2.now == w.now
            && if total && o in w.db.orders then p in w2.requests && w2.requests[p] == RefundRead(o)
               else p !in w2.requests
  {
    hide Apply, Drop;
    var payload := ChargeRefunded(o, total);
    Received(w, p, e, payload);
    var w1 := Apply(w, ReceiveEvent(p, e, payload));
    Maintenance.PartialRefundIsNothing(w1, p, o, total);
    Maintenance.Gone(w1.requests, p);
  }

  /** A refund event, received, dispatched and committed, is the refund transaction when it is total, or nothing. */
  lemma RefundWebhookIsARun(w: World, p: Pid, e: EventId, o: OrderId, total: bool)
    requires p !in w.requests && e !in w.db.events
    ensures var after := Run(w, [ReceiveEvent(p, e, ChargeRefunded(o, total)), DispatchEvent(p), RefundCommit(p)]).db;
            var claimed := w.db.(events := w.db.events + {e});
            if total && o in w.db.orders then Some(after) == CommitRefund(claimed, o, w.now) else after == claimed
  {
    hide Apply, CommitRefund, Run;
    RunThree(w, ReceiveEvent(p, e, ChargeRefunded(o, total)), DispatchEvent(p), RefundCommit(p));
    RefundUpToCommit(w, p, e, o, total);
    var w2 := Apply(Apply(w, ReceiveEvent(p, e, ChargeRefunded(o, total))), DispatchEvent(p));
    if total && o in w.db.orders {
      RefundCommitted(w2, p, o);
    } else {
      NothingToDispatch(w2, p);
    }
  }

  // ---------------------------------------------------------------- the sweep

  /** The calls the sweep makes for one answer. */
  function StepsOf(p: Pid, o: OrderId, a: Answer): seq<Step> {
    match a
    case NoSession => [ReconcileNoSession(o)]
    case Expired => [ReconcileExpired(o)]
    case Paid(intent, fails, j1, j2) => [ReconcilePaid(p, o, intent), Closing(p, fails, j1, j2)]
    case _ => []
  }

  function SweepSteps(p: Pid, pending: seq<OrderId>, answers: seq<Answer>): seq<Step>
    requires |pending| == |answers|
  {
    if pending == [] then []
    else
      var n := |pending| - 1;
      SweepSteps(p, pending[..n], answers[..n]) + StepsOf(p, pending[n], answers[n])
  }

  /** After the steps for one answer: its tables, nobody waiting, and no id used but those of new jobs. */
  ghost predicate Answered(w: World, w': World, p: Pid, o: OrderId, a: Answer) {
    && w'.db == Reconcile(w.db, o, a, w.now) && w'.now == w.now && p !in w'.requests
    && w'.executions.Keys <= w.executions.Keys + (w'.db.jobs.Keys - w.db.jobs.Keys)
    && w'.requeues.Keys <= w.requeues.Keys + (w'.db.jobs.Keys - w.db.jobs.Keys)
  }

  lemma PaidAnswer(w: World, p: Pid, o: OrderId, a: Answer)
    requires p !in w.requests && a.Paid? && FreshJob(w, a.j1) && FreshJob(w, a.j2) && a.j1 != a.j2
    ensures Answered(w, Run(w, StepsOf(p, o, a)), p, o, a)
  {
    hide Apply, FreshJob, HandlePayment, Closing;
    var first := ReconcilePaid(p, o, a.intent);
    RunTwo(w, first, Closing(p, a.fails, a.j1, a.j2));
    ReconcileReads(w, p, o, a.intent);
    var w1 := Apply(w, first);
    SameFresh(w, w1, a.j1);
    SameFresh(w, w1, a.j2);
    Closed(w1, p, o, a.intent, a.fails, a.j1, a.j2);
  }

  lemma ReconcileReads(w: World, p: Pid, o: OrderId, intent: IntentId)
    requires p !in w.requests
    ensures var w' := Apply(w, ReconcilePaid(p, o, intent));
            && w'.db == w.db && SameQueue(w, w')
            && if o in w.db.orders && w.db.orders[o].status == PENDING_PAYMENT
               then p in w'.requests && w'.requests[p] == PaymentRead(o, intent, w.db.orders[o].lines)
               else p !in w'.requests
  {
    hide ReadPayment;
    assert Apply(w, ReconcilePaid(p, o, intent)) == ReadPayment(w, p, o, intent);
    hide Apply;
    PaymentIsRead(w, p, o, intent);
  }

  lemma CancellingAnswer(w: World, p: Pid, o: OrderId, a: Answer)
    requires p !in w.requests && !a.Paid?
    ensures Answered(w, Run(w, StepsOf(p, o, a)), p, o, a)
  {
    hide ExpireSession, CancelUnpaid, Apply;
    if a.NoSession? || a.Expired? {
      var s := StepsOf(p, o, a)[0];
      assert StepsOf(p, o, a)[..0] == [] && Run(w, []) == w;
      assert Run(w, [s]) == Apply(w, s);
      Cancels(w, o);
    } else {
      assert Run(w, []) == w;
    }
  }

  lemma Cancels(w: World, o: OrderId)
    ensures Apply(w, ReconcileNoSession(o)) == w.(db := CancelUnpaid(w.db, o))
    ensures Apply(w, ReconcileExpired(o)) == w.(db := ExpireSession(w.db, o))
    ensures w.(db := CancelUnpaid(w.db, o)).requests == w.requests
    ensures w.(db := ExpireSession(w.db, o)).requests == w.requests
  {
    hide ExpireSession, CancelUnpaid;
  }

  /** No id a payment brings was ever used. */
  ghost predicate NeverUsed(w: World, answers: seq<Answer>) {
    forall k :: 0 <= k < |answers| && answers[k].Paid? ==> FreshJob(w, answers[k].j1) && FreshJob(w, answers[k].j2)
  }

  lemma AnswerIsARun(w: World, p: Pid, o: OrderId, a: Answer)
    requires p !in w.requests
    requires a.Paid? ==> FreshJob(w, a.j1) && FreshJob(w, a.j2) && a.j1 != a.j2
    ensures Answered(w, Run(w, StepsOf(p, o, a)), p, o, a)
  {
    hide Answered, StepsOf, FreshJob;
    if a.Paid? {
      PaidAnswer(w, p, o, a);
    } else {
      CancellingAnswer(w, p, o, a);
    }
  }

  /** Half-way through the sweep. */
  ghost predicate SweptSoFar(w: World, w': World, p: Pid, pending: seq<OrderId>, answers: seq<Answer>, k: nat)
    requires |pending| == |answers| && k <= |pending|
  {
    && w'.db == AtTurn(w.db, pending, answers, w.now, k) && w'.now == w.now && p !in w'.requests
    && SoFar(w.db, pending, answers, k, w'.db)
    && w'.executions.Keys <= w.executions.Keys + IdsOf(answers[..k])
    && w'.requeues.Keys <= w.requeues.Keys + IdsOf(answers[..k])
  }

  /** The ids of the next payment are still unused. */
  lemma NextIsFresh(w: World, w': World, p: Pid, pending: seq<OrderId>, answers: seq<Answer>, k: nat)
    requires |pending| == |answers| && k < |pending| && AllFresh(w.db.jobs, answers) && NeverUsed(w, answers)
    requires SweptSoFar(w, w', p, pending, answers, k) && answers[k].Paid?
    ensures FreshJob(w', answers[k].j1) && FreshJob(w', answers[k].j2) && answers[k].j1 != answers[k].j2
  {
    var a := answers[k];
    hide AtTurn;
    StillFresh(w.db, pending, answers, k, w'.db);
    forall j | j in {a.j1, a.j2} ensures j !in IdsOf(answers[..k]) {
      if j in IdsOf(answers[..k]) {
        var i: nat :| i < k && answers[i].Paid? && (j == answers[i].j1 || j == answers[i].j2);
      }
    }
  }

  /** One answer more. */
  lemma SweptOneMore(w: World, mid: World, end: World, p: Pid, pending: seq<OrderId>, answers: seq<Answer>, k: nat)
    requires |pending| == |answers| && k < |pending| && AllFresh(w.db.jobs, answers)
    requires SweptSoFar(w, mid, p, pending, answers, k)
    requires Answered(mid, end, p, pending[k], answers[k])
    ensures SweptSoFar(w, end, p, pending, answers, k + 1)
  {
    hide AtTurn, Reconcile, AllFresh, IdsOf, FreshIds;
    NextTurn(w.db, pending, answers, w.now, k);
    TurnsSoFar(w.db, pending, answers, w.now, k + 1);
    Turn(w.db, pending, answers, w.now, k);
    NewIdsOnly(mid.db, end.db, pending[k], answers[k]);
    assert answers[..k+1] == answers[..k] + [answers[k]];
    MoreIds(answers[..k], answers[k]);
    hide SoFar, Touches, Charged, Cancelled, Charges, Closes;
  }

  lemma NewIdsOnly(mid: Db, end: Db, o: OrderId, a: Answer)
    requires Touches(mid, end, o, a)
    ensures end.jobs.Keys - mid.jobs.Keys <= if a.Paid? then {a.j1, a.j2} else {}
  {
  }

  lemma {:induction false} SweptUpTo(w: World, p: Pid, pending: seq<OrderId>, answers: seq<Answer>, k: nat)
    requires |pending| == |answers| && k <= |pending|
    requires p !in w.requests && AllFresh(w.db.jobs, answers) && NeverUsed(w, answers)
    ensures SweptSoFar(w, Run(w, SweepSteps(p, pending[..k], answers[..k])), p, pending, answers, k)
  {
    hide SoFar, AllFresh, NeverUsed, IdsOf, Answered, Apply, FreshJob;
    if k == 0 {
      StartsThere(w.db, pending, answers, w.now);
      NoTurn(w.db, pending, answers);
      assert pending[..0] == [] && Run(w, []) == w;
    } else {
      var n := k - 1;
      SweptUpTo(w, p, pending, answers, n);
      var mid := Run(w, SweepSteps(p, pending[..n], answers[..n]));
      assert pending[..k][..n] == pending[..n] && answers[..k][..n] == answers[..n];
      RunSplits(w, SweepSteps(p, pending[..n], answers[..n]), StepsOf(p, pending[n], answers[n]));
      hide SweptSoFar, StepsOf;
      NobodyWaits(w, mid, p, pending, answers, n);
      if answers[n].Paid? {
        NextIsFresh(w, mid, p, pending, answers, n);
      }
      AnswerIsARun(mid, p, pending[n], answers[n]);
      SweptOneMore(w, mid, Run(mid, StepsOf(p, pending[n], answers[n])), p, pending, answers, n);
    }
  }

  lemma NobodyWaits(w: World, w': World, p: Pid, pending: seq<OrderId>, answers: seq<Answer>, k: nat)
    requires |pending| == |answers| && k <= |pending| && SweptSoFar(w, w', p, pending, answers, k)
    ensures p !in w'.requests
  {
  }

  /** The whole sweep is a run: payments, failures and cancellations, order by order. */
  lemma SweepIsARun(w: World, p: Pid, pending: seq<OrderId>, answers: seq<Answer>, revisados: nat)
    requires |pending| == |answers|
    requires p !in w.requests && AllFresh(w.db.jobs, answers) && NeverUsed(w, answers)
    ensures Run(w, SweepSteps(p, pending, answers)).db == ReconcileAll(w.db, pending, answers, w.now, revisados).0
  {
    hide Run, ReconcileAll, AllFresh, NeverUsed, SoFar, AtTurn;
    SweptUpTo(w, p, pending, answers, |pending|);
    assert pending[..|pending|] == pending && answers[..|pending|] == answers;
    LastTurn(w.db, pending, answers, w.now, revisados);
  }

  // ---------------------------------------------------------------- the panel

  lemma Requeued(w: World, p: Pid, o: OrderId)
    requires p in w.requests && w.requests[p] == RetryChecked(o)
    ensures var w' := Apply(w, RequeueRetry(p));
            && w'.db == (if FailedOf(w.db.jobs, o) == {} then w.db
                         else w.db.(jobs := RequeueFailed(w.db.jobs, o, w.now)))
            && (if FailedOf(w.db.jobs, o) == {} then p !in w'.requests
                else p in w'.requests && w'.requests[p] == RetryRequeued(o))
  {
    hide FailedOf, RequeueFailed;
    assert Apply(w, RequeueRetry(p)) == DoRequeueRetry(w, p) by {
      hide DoRequeueRetry;
    }
    hide Apply;
    Ended(w, p);
    hide EndRequest;
  }

  lemma MovedBack(w: World, p: Pid, o: OrderId)
    requires p in w.requests ==> w.requests[p] == RetryRequeued(o) && o in w.db.orders
    ensures Apply(w, MoveRetry(p)).db
         == if p in w.requests then SetOrder(w.db, o, w.db.orders[o].(status := PAID)) else w.db
  {
    assert Apply(w, MoveRetry(p)) == DoMoveRetry(w, p) by {
      hide DoMoveRetry;
    }
    hide Apply;
    if p in w.requests {
      Ended(w.(db := SetOrder(w.db, o, w.db.orders[o].(status := PAID))), p);
    }
    hide EndRequest;
  }

  lemma NoRequeue(w: World, p: Pid)
    requires p !in w.requests
    ensures Apply(w, RequeueRetry(p)) == w
  {
  }

  /** The retry, in its three calls: an order in review with failed jobs is PAID again and they are due; or nothing. */
  lemma RetryIsARun(w: World, p: Pid, o: OrderId)
    requires p !in w.requests
    ensures var after := Run(w, [CheckRetry(p, o), RequeueRetry(p), MoveRetry(p)]).db;
            if o in w.db.orders && w.db.orders[o].status == NEEDS_REVIEW && FailedOf(w.db.jobs, o) != {}
            then after == w.db.(jobs := RequeueFailed(w.db.jobs, o, w.now),
                                orders := w.db.orders[o := w.db.orders[o].(status := PAID)])
            else after == w.db
  {
    hide Apply, Run, FailedOf, RequeueFailed;
    RunThree(w, CheckRetry(p, o), RequeueRetry(p), MoveRetry(p));
    Maintenance.RetryExactly(w, p, o);
    var w1 := Apply(w, CheckRetry(p, o));
    if p in w1.requests {
      Requeued(w1, p, o);
    } else {
      NoRequeue(w1, p);
    }
    MovedBack(Apply(w1, RequeueRetry(p)), p, o);
  }

  lemma DeletionBegins(w: World, p: Pid, x: ProductId)
    requires p !in w.requests
    ensures var w' := Apply(w, CheckDeletion(p, x));
            && w'.db == w.db
            && if x in w.db.products && !HasSales(w.db, x)
               then p in w'.requests && w'.requests[p] == DeletionChecked(x) else p !in w'.requests
  {
    hide HasSales, DoCheckDeletion;
    assert Apply(w, CheckDeletion(p, x)) == DoCheckDeletion(w, p, x);
    hide Apply;
    DeletionChecks(w, p, x);
  }

  lemma DeletionChecks(w: World, p: Pid, x: ProductId)
    requires p !in w.requests
    ensures var w' := DoCheckDeletion(w, p, x);
            && w'.db == w.db
            && if x in w.db.products && !HasSales(w.db, x)
               then p in w'.requests && w'.requests[p] == DeletionChecked(x) else p !in w'.requests
  {
    hide HasSales;
    Maintenance.Asked(w, p, DeletionChecked(x));
  }

  lemma VariantBegins(w: World, p: Pid, v: VariantId)
    requires p !in w.requests
    ensures var w' := Apply(w, CheckVariant(p, v));
            && w'.db == w.db
            && if v in w.db.variants && !VariantReferenced(w.db, v)
               then p in w'.requests && w'.requests[p] == VariantChecked(v) else p !in w'.requests
  {
    hide VariantReferenced, DoCheckVariant;
    assert Apply(w, CheckVariant(p, v)) == DoCheckVariant(w, p, v);
    hide Apply;
    VariantChecks(w, p, v);
  }

  lemma VariantChecks(w: World, p: Pid, v: VariantId)
    requires p !in w.requests
    ensures var w' := DoCheckVariant(w, p, v);
            && w'.db == w.db
            && if v in w.db.variants && !VariantReferenced(w.db, v)
               then p in w'.requests && w'.requests[p] == VariantChecked(v) else p !in w'.requests
  {
    hide VariantReferenced;
    Maintenance.Asked(w, p, VariantChecked(v));
  }

  lemma NothingToDelete(w: World, p: Pid)
    requires p !in w.requests
    ensures Apply(w, CommitDeletion(p)) == w && Apply(w, CommitVariant(p)) == w
  {
  }

  /** In every reachable state the two calls of a deletion are its transaction if there are no sales, or nothing. */
  lemma DeletionIsARun(steps: seq<Step>, p: Pid, x: ProductId)
    requires p !in Run(INIT, steps).requests
    ensures var w := Run(INIT, steps);
            var after := Run(w, [CheckDeletion(p, x), CommitDeletion(p)]).db;
            if x in w.db.products && !HasSales(w.db, x) then Some(after) == DeleteProduct(w.db, x) else after == w.db
  {
    hide Apply, Run, HasSales, DeleteProduct;
    var w := Run(INIT, steps);
    RunTwo(w, CheckDeletion(p, x), CommitDeletion(p));
    DeletionBegins(w, p, x);
    var w1 := Apply(w, CheckDeletion(p, x));
    if p in w1.requests {
      ProductDeletionExact(steps, x);
      CommitOutcome(w1, p);
    } else {
      NothingToDelete(w1, p);
    }
  }

  /** The two calls of a variant's deletion take that variant if no line names it, or nothing. */
  lemma VariantDeletionIsARun(w: World, p: Pid, v: VariantId)
    requires p !in w.requests
    ensures var after := Run(w, [CheckVariant(p, v), CommitVariant(p)]).db;
            if v in w.db.variants && !Maintenance.InSomeLine(w.db.orders, v)
            then after == w.db.(variants := w.db.variants - {v}) else after == w.db
  {
    hide Apply, Run, VariantReferenced, Maintenance.InSomeLine;
    RunTwo(w, CheckVariant(p, v), CommitVariant(p));
    VariantBegins(w, p, v);
    Maintenance.SomeLineRefers(w.db, v);
    var w1 := Apply(w, CheckVariant(p, v));
    if p in w1.requests {
      Maintenance.VariantDeletionExactly(w1, p);
    } else {
      NothingToDelete(w1, p);
    }
  }

  // ---------------------------------------------------------------- the buyer

  lemma ResendIssued(w: World, p: Pid, o: OrderId, lines: seq<Line>, ids: seq<GrantId>)
    requires p in w.requests && w.requests[p] == ResendRead(o, lines)
    requires |ids| == |Deliverables(lines)| && FreshGrants(w, ids)
    ensures Apply(w, IssueResend(p, ids)).db
         == if Deliverables(lines) == [] then w.db else w.db.(grants := EmitLinks(w.db.grants, o, lines, ids, w.now))
  {
    hide EmitLinks, Deliverables, FreshGrants;
    assert Apply(w, IssueResend(p, ids)) == DoIssueResend(w, p, ids) by {
      hide DoIssueResend;
    }
    hide Apply;
    Ended(w, p);
    Ended(IssueGrants(w, o, lines, ids), p);
    hide EndRequest;
  }

  lemma NoResend(w: World, p: Pid, ids: seq<GrantId>)
    requires p !in w.requests
    ensures Apply(w, IssueResend(p, ids)) == w
  {
  }

  /** A resend, in its two calls, issues the links of a purchase that stands, for the address it was made with. */
  lemma ResendIsARun(w: World, p: Pid, o: OrderId, email: string, ids: seq<GrantId>)
    requires p !in w.requests
    requires o in w.db.orders ==> |ids| == |Deliverables(w.db.orders[o].lines)| && FreshGrants(w, ids)
    ensures var after := Run(w, [ReadResend(p, o, email), IssueResend(p, ids)]).db;
            if o in w.db.orders && w.db.orders[o].customerEmail == email
               && w.db.orders[o].status in {PAID, IN_PRODUCTION, SHIPPED, DELIVERED}
               && Deliverables(w.db.orders[o].lines) != []
            then after == w.db.(grants := EmitLinks(w.db.grants, o, w.db.orders[o].lines, ids, w.now))
            else after == w.db
  {
    hide Apply, Run, EmitLinks, Deliverables, FreshGrants;
    RunTwo(w, ReadResend(p, o, email), IssueResend(p, ids));
    Maintenance.ResendExactly(w, p, o, email);
    var w1 := Apply(w, ReadResend(p, o, email));
    if p in w1.requests {
      StillUngiven(w, w1, p, o, email, ids);
      ResendIssued(w1, p, o, w.db.orders[o].lines, ids);
    } else {
      NoResend(w1, p, ids);
    }
  }

  lemma StillUngiven(w: World, w1: World, p: Pid, o: OrderId, email: string, ids: seq<GrantId>)
    requires FreshGrants(w, ids) && w1 == Apply(w, ReadResend(p, o, email))
    ensures FreshGrants(w1, ids) && w1.now == w.now
  {
    hide Purchased;
    assert Apply(w, ReadResend(p, o, email)) == DoReadResend(w, p, o, email) by {
      hide DoReadResend;
    }
    hide Apply;
  }

  /** A download, in its three calls, is one visit to the link, and a visit that is served is handed a URL. */
  lemma DownloadIsARun(w: World, p: Pid, g: GrantId)
    requires p !in w.downloads
    ensures var w' := Run(w, [ReadGrant(p, g), CountUse(p), HandOut(p)]);
            var (after, served) := LinkLife.Visit(w.db, g, w.now);
            && w'.db == after
            && w'.handed == if served then w.handed[g := (if g in w.handed then w.handed[g] else 0) + 1] else w.handed
  {
    hide Apply, Run, Downloadable, CountDownload;
    RunThree(w, ReadGrant(p, g), CountUse(p), HandOut(p));
    var w1 := Apply(w, ReadGrant(p, g));
    GrantIsRead(w, p, g);
    if Downloadable(w.db, g, w.now) {
      UseIsCounted(w1, p, g);
      UrlIsHanded(Apply(w1, CountUse(p)), p, g);
    } else {
      NothingToCount(w, p);
    }
  }

  lemma GrantIsRead(w: World, p: Pid, g: GrantId)
    requires p !in w.downloads
    ensures var w' := Apply(w, ReadGrant(p, g));
            if Downloadable(w.db, g, w.now)
            then
              && w'.db == w.db && w'.handed == w.handed
              && w'.downloads == w.downloads[p := GrantRead(g, w.db.grants[g].maxDownloads)]
              && g in w.db.grants && w.db.grants[g].downloadCount < w.db.grants[g].maxDownloads
            else w' == w
  {
    assert Apply(w, ReadGrant(p, g)) == DoReadGrant(w, p, g) by {
      hide DoReadGrant;
    }
    hide Apply;
  }

  lemma UseIsCounted(w: World, p: Pid, g: GrantId)
    requires p in w.downloads && g in w.db.grants
    requires w.downloads[p] == GrantRead(g, w.db.grants[g].maxDownloads)
    requires w.db.grants[g].downloadCount < w.db.grants[g].maxDownloads
    ensures var w' := Apply(w, CountUse(p));
            && w'.db == w.db.(grants := CountDownload(w.db.grants, g)) && w'.handed == w.handed
            && p in w'.downloads && w'.downloads[p] == Signing(g)
  {
    hide CountDownload;
    assert Apply(w, CountUse(p)) == DoCountUse(w, p) by {
      hide DoCountUse;
    }
    hide Apply;
  }

  lemma UrlIsHanded(w: World, p: Pid, g: GrantId)
    requires p in w.downloads && w.downloads[p] == Signing(g)
    ensures var w' := Apply(w, HandOut(p));
            w'.db == w.db && w'.handed == w.handed[g := (if g in w.handed then w.handed[g] else 0) + 1]
  {
    assert Apply(w, HandOut(p)) == DoHandOut(w, p) by {
      hide DoHandOut;
    }
    hide Apply, Drop;
  }

  lemma NothingToCount(w: World, p: Pid)
    requires p !in w.downloads
    ensures Apply(w, CountUse(p)) == w && Apply(w, HandOut(p)) == w
  {
  }
}
