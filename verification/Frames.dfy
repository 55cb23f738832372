/**
 * What each step leaves alone: downloads under way and URLs handed out, the
 * charge of an order, and who may commit a payment of it.
 *
 * A step is quiet for an order when none of that moves. All of them are, save the
 * downloads themselves and the commit of a payment of that very order; the lemmas
 * go through the steps one by one, each as a few changes that are quiet alone.
 */
module Frames {
  import opened Prelude
  import opened Store
  import opened Protocol
  import Backoff

  function Handed(handed: map<GrantId, nat>, g: GrantId): nat {
    if g in handed then handed[g] else 0
  }

  /** Date and PaymentIntent of an order, as long as it is there. */
  predicate SameCharge(before: map<OrderId, Order>, after: map<OrderId, Order>, o: OrderId) {
    o in before && o in after ==>
      after[o].paidAt == before[o].paidAt && after[o].paymentIntent == before[o].paymentIntent
  }

  /** Whoever may commit a payment of this order afterwards could before. */
  ghost predicate NoNewRead(before: map<Pid, Request>, after: map<Pid, Request>, o: OrderId) {
    forall p :: p in after && after[p].PaymentRead? && after[p].order == o ==> p in before && before[p] == after[p]
  }

  ghost predicate SameUrls(grants: map<GrantId, Grant>, before: map<GrantId, nat>, after: map<GrantId, nat>) {
    forall g :: g in grants ==> Handed(after, g) == Handed(before, g)
  }

  /** No download moves and no URL is handed out, no charge of this order moves, nobody else may move it. */
  ghost predicate Quiet(w: World, w': World, o: OrderId) {
    && w'.downloads == w.downloads
    && SameUrls(w.db.grants, w.handed, w'.handed)
    && SameCharge(w.db.orders, w'.db.orders, o)
    && NoNewRead(w.requests, w'.requests, o)
  }

  /** The order is past its payment, or not there at all. */
  predicate Left(w: World, o: OrderId) {
    o in w.db.orders ==> w.db.orders[o].status != PENDING_PAYMENT
  }

  // ---------------------------------------------------------------- what steps are made of

  lemma QuietSame(w: World, o: OrderId)
    ensures Quiet(w, w, o)
  {
  }

  lemma QuietRequest(w: World, p: Pid, r: Request, o: OrderId)
    requires !(r.PaymentRead? && r.order == o)
    ensures Quiet(w, w.(requests := w.requests[p := r]), o)
  {
  }

  lemma QuietDb(w: World, db: Db, o: OrderId)
    requires SameCharge(w.db.orders, db.orders, o)
    ensures Quiet(w, w.(db := db), o)
  {
  }

  lemma QuietEnd(w: World, w1: World, p: Pid, o: OrderId)
    requires Quiet(w, w1, o)
    ensures Quiet(w, EndRequest(w1, p), o)
  {
  }

  lemma QuietWorker(w: World, w1: World, p: Pid, next: Worker, o: OrderId)
    requires Quiet(w, w1, o)
    ensures Quiet(w, SetWorker(w1, p, next), o)
  {
  }

  lemma QuietWorkers(w: World, w1: World, workers: map<Pid, Worker>, o: OrderId)
    requires Quiet(w, w1, o)
    ensures Quiet(w, w1.(workers := workers), o)
  {
  }

  /** Columns no code reads. */
  lemma QuietNotes(w: World, w1: World, owner: map<JobId, Pid>, executions: map<JobId, nat>, requeues: map<JobId, nat>,
                   o: OrderId)
    requires Quiet(w, w1, o)
    ensures Quiet(w, w1.(owner := owner), o) && Quiet(w, w1.(executions := executions), o)
    ensures Quiet(w, w1.(requeues := requeues), o)
  {
  }

  lemma QuietTrans(w: World, w1: World, w2: World, o: OrderId)
    requires Quiet(w, w1, o) && Quiet(w1, w2, o)
    requires forall g :: g in w.db.grants ==> g in w1.db.grants
    requires o in w.db.orders && o in w2.db.orders ==> o in w1.db.orders
    ensures Quiet(w, w2, o)
  {
  }

  lemma QuietLinks(w: World, x: OrderId, lines: seq<Line>, ids: seq<GrantId>, o: OrderId)
    requires |ids| == |Deliverables(lines)| && FreshGrants(w, ids)
    ensures Quiet(w, IssueGrants(w, x, lines, ids), o)
  {
    hide EmitLinks, Deliverables;
  }

  // ---------------------------------------------------------------- step by step

  lemma PaymentQuiet(w: World, s: Step, o: OrderId)
    requires IsPaymentStep(s) && !s.PaymentCommit? && Left(w, o) && (o in w.db.orders ==> o in w.usedOrders)
    ensures Quiet(w, ApplyPayment(w, s), o)
  {
    hide Quiet, DoCheckout, DoReceive, DoDispatch, ReadPayment, DoRefundCommit, ExpireSession, CancelUnpaid;
    hide SameCharge, Left;
    QuietSame(w, o);
    match s
    case Tick(t) => QuietClock(w, t, o);
    case AddProduct(x) => QuietTables(w, w.db.(products := w.db.products + {x}), o);
    case AddVariant(v, x) => QuietTables(w, w.db.(variants := w.db.variants[v := x]), o);
    case Checkout(x, lines, email) => CheckoutQuiet(w, x, lines, email, o);
    case ReceiveEvent(p, e, payload) => ReceiveQuiet(w, p, e, payload, o);
    case DispatchEvent(p) => DispatchQuiet(w, p, o);
    case ReconcilePaid(p, x, intent) => ReadPaymentQuiet(w, w, p, x, intent, o);
    case ReconcileExpired(x) => ExpireQuiet(w, w, x, o);
    case ReconcileNoSession(x) => CancelQuiet(w, x, o);
    case RefundCommit(p) => RefundQuiet(w, p, o);
  }

  lemma QuietTables(w: World, db: Db, o: OrderId)
    requires db.orders == w.db.orders
    ensures Quiet(w, w.(db := db), o)
  {
    QuietDb(w, db, o);
  }

  lemma QuietClock(w: World, t: Time, o: OrderId)
    ensures Quiet(w, w.(now := t), o)
  {
  }

  lemma CheckoutQuiet(w: World, x: OrderId, lines: seq<Line>, email: string, o: OrderId)
    requires o in w.db.orders ==> o in w.usedOrders
    ensures Quiet(w, DoCheckout(w, x, lines, email), o)
  {
    QuietSame(w, o);
    if x !in w.usedOrders {
      var db := SetOrder(w.db, x, Order(PENDING_PAYMENT, None, None, None, w.now, email, lines));
      QuietDb(w, db, o);
      QuietUsed(w, w.(db := db), w.usedOrders + {x}, o);
      hide Quiet, Sellable, SetOrder;
      if DoCheckout(w, x, lines, email) != w {
        assert DoCheckout(w, x, lines, email) == w.(db := db).(usedOrders := w.usedOrders + {x});
      }
    }
  }

  lemma QuietUsed(w: World, w1: World, used: set<OrderId>, o: OrderId)
    requires Quiet(w, w1, o)
    ensures Quiet(w, w1.(usedOrders := used), o)
  {
  }

  lemma ReceiveQuiet(w: World, p: Pid, e: EventId, payload: Payload, o: OrderId)
    ensures Quiet(w, DoReceive(w, p, e, payload), o)
  {
    QuietSame(w, o);
    QuietReceived(w, p, e, payload, o);
    hide Quiet;
  }

  lemma QuietReceived(w: World, p: Pid, e: EventId, payload: Payload, o: OrderId)
    ensures Quiet(w, w.(db := w.db.(events := w.db.events + {e}), requests := w.requests[p := EventClaimed(e, payload)],
                        dispatched := w.dispatched[e := 0]), o)
  {
  }

  /** From a state that differs by quiet moves only. */
  lemma ReadPaymentQuiet(w: World, w1: World, p: Pid, x: OrderId, intent: IntentId, o: OrderId)
    requires Quiet(w, w1, o) && w1.db == w.db && Left(w, o)
    ensures Quiet(w, ReadPayment(w1, p, x, intent), o)
  {
    QuietEnd(w, w1, p, o);
    if x in w.db.orders && x != o {
      var r := PaymentRead(x, intent, w.db.orders[x].lines);
      QuietRequest(w1, p, r, o);
      QuietTrans(w, w1, w1.(requests := w1.requests[p := r]), o);
    }
    hide Quiet, EndRequest;
  }

  lemma ReadRefundQuiet(w: World, w1: World, p: Pid, x: OrderId, total: bool, o: OrderId)
    requires Quiet(w, w1, o) && w1.db == w.db
    ensures Quiet(w, ReadRefund(w1, p, x, total), o)
  {
    QuietEnd(w, w1, p, o);
    QuietRequest(w1, p, RefundRead(x), o);
    QuietTrans(w, w1, w1.(requests := w1.requests[p := RefundRead(x)]), o);
    hide Quiet, EndRequest;
  }

  lemma ExpireQuiet(w: World, w1: World, x: OrderId, o: OrderId)
    requires Quiet(w, w1, o) && w1.db == w.db
    ensures Quiet(w, w1.(db := ExpireSession(w1.db, x)), o)
  {
    ExpireCharges(w.db, x, o);
    hide ExpireSession, SameCharge;
    QuietDb(w1, ExpireSession(w1.db, x), o);
    ExpireKeepsKeys(w.db, x);
    QuietTrans(w, w1, w1.(db := ExpireSession(w1.db, x)), o);
  }

  lemma ExpireCharges(db: Db, x: OrderId, o: OrderId)
    ensures SameCharge(db.orders, ExpireSession(db, x).orders, o)
  {
  }

  lemma ExpireKeepsKeys(db: Db, x: OrderId)
    ensures forall o :: o in ExpireSession(db, x).orders ==> o in db.orders
  {
  }

  lemma CancelQuiet(w: World, x: OrderId, o: OrderId)
    ensures Quiet(w, w.(db := CancelUnpaid(w.db, x)), o)
  {
    CancelCharges(w.db, x, o);
    hide CancelUnpaid, SameCharge;
    QuietDb(w, CancelUnpaid(w.db, x), o);
  }

  lemma CancelCharges(db: Db, x: OrderId, o: OrderId)
    ensures SameCharge(db.orders, CancelUnpaid(db, x).orders, o)
  {
  }

  lemma DispatchQuiet(w: World, p: Pid, o: OrderId)
    requires Left(w, o)
    ensures Quiet(w, DoDispatch(w, p), o)
  {
    hide Quiet, ReadPayment, ReadRefund, ExpireSession, Drop, Left;
    QuietSame(w, o);
    if p in w.requests && w.requests[p].EventClaimed? {
      var e := w.requests[p].event;
      var w1 := w.(requests := Drop(w.requests, p),
                   dispatched := w.dispatched[e := if e in w.dispatched then w.dispatched[e] + 1 else 1]);
      QuietTaken(w, p, w1.dispatched, o);
      match w.requests[p].payload
      case PaymentSucceeded(x, intent) => ReadPaymentQuiet(w, w1, p, x, intent, o);
      case SessionExpired(x) => ExpireQuiet(w, w1, x, o);
      case ChargeRefunded(x, total) => ReadRefundQuiet(w, w1, p, x, total, o);
      case Other =>
    }
  }

  lemma QuietTaken(w: World, p: Pid, dispatched: map<EventId, nat>, o: OrderId)
    ensures Quiet(w, w.(requests := Drop(w.requests, p), dispatched := dispatched), o)
  {
  }

  lemma RefundQuiet(w: World, p: Pid, o: OrderId)
    ensures Quiet(w, DoRefundCommit(w, p), o)
  {
    QuietSame(w, o);
    QuietEnd(w, w, p, o);
    if p in w.requests && w.requests[p].RefundRead? {
      var result := CommitRefund(w.db, w.requests[p].order, w.now);
      if result.Some? {
        RefundCharges(w.db, w.requests[p].order, w.now, o);
        QuietDb(w, result.value, o);
        QuietEnd(w, w.(db := result.value), p, o);
      }
    }
    hide Quiet, CommitRefund, EndRequest;
  }

  lemma RefundCharges(db: Db, x: OrderId, now: Time, o: OrderId)
    requires CommitRefund(db, x, now).Some?
    ensures SameCharge(db.orders, CommitRefund(db, x, now).value.orders, o)
  {
    hide RevokeLive;
  }

  /** The payment transaction, for every order but its own. */
  lemma CommitQuiet(w: World, p: Pid, j1: JobId, j2: JobId, o: OrderId)
    requires p in w.requests && w.requests[p].PaymentRead? ==> w.requests[p].order != o
    ensures Quiet(w, DoPaymentCommit(w, p, j1, j2), o)
  {
    QuietSame(w, o);
    QuietEnd(w, w, p, o);
    if p in w.requests && w.requests[p].PaymentRead? {
      var r := w.requests[p];
      var result := CommitPayment(w.db, r.order, r.intent, r.lines, j1, j2, w.now);
      if result.Some? {
        CommitCharges(w.db, r.order, r.intent, r.lines, j1, j2, w.now, o);
        QuietNew(w, result.value, o);
        QuietEnd(w, NewJobs(w, result.value.jobs).(db := result.value), p, o);
      }
    }
    hide Quiet, CommitPayment, EndRequest, NewJobs, FreshJob;
  }

  lemma QuietNew(w: World, db: Db, o: OrderId)
    requires SameCharge(w.db.orders, db.orders, o)
    ensures Quiet(w, NewJobs(w, db.jobs).(db := db), o)
  {
  }

  lemma CommitCharges(
      db: Db, x: OrderId, intent: IntentId, lines: seq<Line>, j1: JobId, j2: JobId, now: Time, o: OrderId)
    requires o != x && CommitPayment(db, x, intent, lines, j1, j2, now).Some?
    ensures SameCharge(db.orders, CommitPayment(db, x, intent, lines, j1, j2, now).value.orders, o)
  {
    hide Enqueue, DeliveryKind, IntentFree;
  }

  // ---------------------------------------------------------------- upkeep and administration

  lemma UpkeepQuiet(w: World, s: Step, o: OrderId)
    requires IsUpkeepStep(s)
    ensures Quiet(w, ApplyUpkeep(w, s), o)
  {
    QuietSame(w, o);
    match s
    case PurgeUnpaid => PurgeQuiet(w, o);
    case PurgeJobs =>
      QuietDb(w, w.db.(jobs := PurgeDone(w.db.jobs, Before(w.now, DIAS_RETENCION_TRABAJOS_HECHOS))), o);
      hide Quiet, PurgeDone, Before;
    case EnqueueContact(j, ref) =>
      QuietJobs(w, Enqueue(w.db.jobs, j, SEND_CONTACT_MESSAGE, ref, None, w.now), o);
      hide Quiet, Enqueue, NewJobs, FreshJob;
    case CheckRetry(p, x) => QuietRequest(w, p, RetryChecked(x), o); hide Quiet;
    case RequeueRetry(p) => RequeueQuiet(w, p, o);
    case MoveRetry(p) => MoveQuiet(w, p, o);
  }

  lemma QuietJobs(w: World, jobs: map<JobId, Job>, o: OrderId)
    ensures Quiet(w, NewJobs(w, jobs), o)
  {
  }

  lemma PurgeQuiet(w: World, o: OrderId)
    ensures Quiet(w, DoPurgeUnpaid(w), o)
  {
    QuietSame(w, o);
    var victims := StaleUnpaid(w.db, Before(w.now, DIAS_RETENCION_SIN_COBRO));
    DeletedCharges(w.db, victims, o);
    if DeleteOrders(w.db, victims).Some? {
      QuietDb(w, DeleteOrders(w.db, victims).value, o);
    }
    hide Quiet, DeleteOrders, StaleUnpaid, Before;
  }

  lemma DeletedCharges(db: Db, victims: set<OrderId>, o: OrderId)
    ensures var r := DeleteOrders(db, victims); r.Some? ==> SameCharge(db.orders, r.value.orders, o)
  {
  }

  lemma RequeueQuiet(w: World, p: Pid, o: OrderId)
    ensures Quiet(w, DoRequeueRetry(w, p), o)
  {
    QuietSame(w, o);
    QuietEnd(w, w, p, o);
    if p in w.requests && w.requests[p].RetryChecked? {
      var x := w.requests[p].order;
      var db := w.db.(jobs := RequeueFailed(w.db.jobs, x, w.now));
      var hit := FailedOf(w.db.jobs, x);
      var requeues := map j | j in w.requeues :: if j in hit then w.requeues[j] + 1 else w.requeues[j];
      QuietRequeued(w, db, p, x, requeues, o);
    }
    hide Quiet, EndRequest, RequeueFailed, FailedOf;
  }

  lemma QuietRequeued(w: World, db: Db, p: Pid, x: OrderId, requeues: map<JobId, nat>, o: OrderId)
    requires db.orders == w.db.orders
    ensures Quiet(w, w.(db := db, requests := w.requests[p := RetryRequeued(x)], requeues := requeues), o)
  {
  }

  lemma MoveQuiet(w: World, p: Pid, o: OrderId)
    ensures Quiet(w, DoMoveRetry(w, p), o)
  {
    QuietSame(w, o);
    QuietEnd(w, w, p, o);
    if p in w.requests && w.requests[p].RetryRequeued? && w.requests[p].order in w.db.orders {
      var x := w.requests[p].order;
      var db := SetOrder(w.db, x, w.db.orders[x].(status := PAID));
      QuietDb(w, db, o);
      QuietEnd(w, w.(db := db), p, o);
    }
    hide Quiet, EndRequest, SetOrder;
  }

  lemma AdminQuiet(w: World, s: Step, o: OrderId)
    requires IsAdminStep(s)
    ensures Quiet(w, ApplyAdmin(w, s), o)
  {
    QuietSame(w, o);
    match s
    case CheckDeletion(p, x) => QuietRequest(w, p, DeletionChecked(x), o); hide Quiet, HasSales;
    case CommitDeletion(p) => DeletionQuiet(w, p, o);
    case CheckVariant(p, v) => QuietRequest(w, p, VariantChecked(v), o); hide Quiet, VariantReferenced;
    case CommitVariant(p) => VariantQuiet(w, p, o);
    case ReadResend(p, x, email) =>
      if x in w.db.orders { QuietRequest(w, p, ResendRead(x, w.db.orders[x].lines), o); }
      hide Quiet, Purchased;
    case IssueResend(p, ids) => ResendQuiet(w, p, ids, o);
    case CrashRequest(p) => QuietEnd(w, w, p, o); hide Quiet, EndRequest;
  }

  lemma DeletionQuiet(w: World, p: Pid, o: OrderId)
    ensures Quiet(w, DoCommitDeletion(w, p), o)
  {
    QuietSame(w, o);
    QuietEnd(w, w, p, o);
    if p in w.requests && w.requests[p].DeletionChecked? {
      var result := DeleteProduct(w.db, w.requests[p].product);
      DeletionCharges(w.db, w.requests[p].product, o);
      if result.Some? {
        QuietDb(w, result.value, o);
        QuietEnd(w, w.(db := result.value), p, o);
      }
    }
    hide Quiet, DeleteProduct, EndRequest;
  }

  lemma DeletionCharges(db: Db, x: ProductId, o: OrderId)
    ensures var r := DeleteProduct(db, x); r.Some? ==> SameCharge(db.orders, r.value.orders, o)
  {
    hide UnpaidOf, RefersTo;
  }

  lemma VariantQuiet(w: World, p: Pid, o: OrderId)
    ensures Quiet(w, DoCommitVariant(w, p), o)
  {
    QuietSame(w, o);
    QuietEnd(w, w, p, o);
    if p in w.requests && w.requests[p].VariantChecked? {
      var result := DeleteVariant(w.db, w.requests[p].variant);
      if result.Some? {
        QuietDb(w, result.value, o);
        QuietEnd(w, w.(db := result.value), p, o);
      }
    }
    hide Quiet, DeleteVariant, EndRequest;
  }

  lemma ResendQuiet(w: World, p: Pid, ids: seq<GrantId>, o: OrderId)
    ensures Quiet(w, DoIssueResend(w, p, ids), o)
  {
    QuietSame(w, o);
    QuietEnd(w, w, p, o);
    if p in w.requests && w.requests[p].ResendRead? {
      var ResendRead(x, lines) := w.requests[p];
      if |ids| == |Deliverables(lines)| && FreshGrants(w, ids) {
        QuietLinks(w, x, lines, ids, o);
        QuietEnd(w, IssueGrants(w, x, lines, ids), p, o);
      }
    }
    hide Quiet, IssueGrants, EndRequest, Deliverables, FreshGrants;
  }

  // ---------------------------------------------------------------- the queue

  lemma QueueQuiet(w: World, s: Step, o: OrderId)
    requires IsQueueStep(s)
    ensures Quiet(w, ApplyQueue(w, s), o)
  {
    hide Quiet, DoReadBatch, DoClaim, DoBegin, DoLoad, DoIssueLinks, DoSendMail, DoSubmit, DoThrow, DoWriteDone,
         DoReadAttempts, DoWriteFailure, DoEscalate, Drop;
    match s
    case ReadBatch(p, ids) => BatchQuiet(w, p, ids, o);
    case ClaimBatch(p) => ClaimQuiet(w, p, o);
    case BeginJob(p) => BeginQuiet(w, p, o);
    case LoadOrder(p) => LoadQuiet(w, p, o);
    case IssueLinks(p, ids) => IssueQuiet(w, p, ids, o);
    case SendMail(p) => MailQuiet(w, p, o);
    case Submit(p) => SubmitQuiet(w, p, o);
    case Throw(p) => ThrowQuiet(w, p, o);
    case WriteDone(p) => DoneQuiet(w, p, o);
    case ReadAttempts(p) => AttemptsQuiet(w, p, o);
    case WriteFailure(p, r) => FailureQuiet(w, p, r, o);
    case Escalate(p) => EscalateQuiet(w, p, o);
    case CrashWorker(p) => QuietSame(w, o); QuietWorkers(w, w, Drop(w.workers, p), o);
  }

  lemma BatchQuiet(w: World, p: Pid, ids: seq<JobId>, o: OrderId)
    ensures Quiet(w, DoReadBatch(w, p, ids), o)
  {
    QuietSame(w, o);
    QuietWorker(w, w, p, Reading(ids), o);
    hide Quiet, SetWorker, IsBatch;
  }

  lemma ClaimQuiet(w: World, p: Pid, o: OrderId)
    ensures Quiet(w, DoClaim(w, p), o)
  {
    QuietSame(w, o);
    if p in w.workers && w.workers[p].Reading? {
      var ids := w.workers[p].ids;
      var db := w.db.(jobs := SetProcessing(w.db.jobs, Claimable(w.db.jobs, ids)));
      var w1 := w.(db := db);
      QuietDb(w, db, o);
      QuietWorker(w, w1, p, Idle(ids), o);
      QuietNotes(w, SetWorker(w1, p, Idle(ids)), w.owner + map j | j in ids :: p, w.executions, w.requeues, o);
      QuietWorkers(w, w1, Drop(w.workers, p), o);
    }
    hide Quiet, SetWorker, SetProcessing, Claimable, Drop;
  }

  lemma BeginQuiet(w: World, p: Pid, o: OrderId)
    ensures Quiet(w, DoBegin(w, p), o)
  {
    QuietSame(w, o);
    if p in w.workers && w.workers[p].Idle? {
      var q := w.workers[p].queue;
      QuietWorkers(w, w, Drop(w.workers, p), o);
      if q != [] {
        var w1 := SetWorker(w, p, Running(q[0], Started, q[1..]));
        QuietWorker(w, w, p, Running(q[0], Started, q[1..]), o);
        QuietNotes(w, w1, w.owner, w.executions[q[0] := if q[0] in w.executions then w.executions[q[0]] + 1 else 1],
                   w.requeues, o);
      }
    }
    hide Quiet, SetWorker, Drop;
  }

  /** Any step that only moves worker p. */
  lemma WorkerOnly(w: World, w1: World, p: Pid, o: OrderId)
    requires Quiet(w, w1, o)
    ensures forall next :: Quiet(w, SetWorker(w1, p, next), o)
  {
    forall next ensures Quiet(w, SetWorker(w1, p, next), o) {
      QuietWorker(w, w1, p, next, o);
    }
  }

  lemma LoadQuiet(w: World, p: Pid, o: OrderId)
    ensures Quiet(w, DoLoad(w, p), o)
  {
    QuietSame(w, o);
    if p in w.workers && w.workers[p].Running? && w.workers[p].stage.Started? {
      hide Quiet, SetWorker;
      var Running(j, _, q) := w.workers[p];
      QuietWorker(w, w, p, Raised(j, q), o);
      QuietWorker(w, w, p, Running(j, Loaded([]), q), o);
      if j in w.db.jobs && w.db.jobs[j].orderId.Some? && w.db.jobs[j].orderId.value in w.db.orders {
        QuietWorker(w, w, p, Running(j, Loaded(w.db.orders[w.db.jobs[j].orderId.value].lines), q), o);
      }
    }
  }

  lemma IssueQuiet(w: World, p: Pid, ids: seq<GrantId>, o: OrderId)
    ensures Quiet(w, DoIssueLinks(w, p, ids), o)
  {
    QuietSame(w, o);
    if p in w.workers && w.workers[p].Running? && w.workers[p].stage.Loaded? {
      var Running(j, Loaded(lines), q) := w.workers[p];
      QuietWorker(w, w, p, Raised(j, q), o);
      if j in w.db.jobs && w.db.jobs[j].orderId.Some? && |ids| == |Deliverables(lines)| && FreshGrants(w, ids) {
        QuietLinks(w, w.db.jobs[j].orderId.value, lines, ids, o);
        QuietWorker(w, IssueGrants(w, w.db.jobs[j].orderId.value, lines, ids), p, Running(j, Linked(|ids|), q), o);
      }
      hide Quiet, SetWorker, IssueGrants, Deliverables, FreshGrants;
    }
  }

  lemma MailQuiet(w: World, p: Pid, o: OrderId)
    ensures Quiet(w, DoSendMail(w, p), o)
  {
    QuietSame(w, o);
    if p in w.workers && w.workers[p].Running? && w.workers[p].job in w.db.jobs {
      hide Quiet, SetWorker;
      var Running(j, _, q) := w.workers[p];
      QuietWorker(w, w, p, Running(j, Mailed, q), o);
      QuietWorker(w, w, p, Finished(j, q), o);
    }
  }

  lemma SubmitQuiet(w: World, p: Pid, o: OrderId)
    ensures Quiet(w, DoSubmit(w, p), o)
  {
    QuietSame(w, o);
    if p in w.workers && w.workers[p].Running? && w.workers[p].job in w.db.jobs {
      var job := w.db.jobs[w.workers[p].job];
      if job.orderId.Some? && job.orderId.value in w.db.orders {
        var x := job.orderId.value;
        var db := SetOrder(w.db, x, SubmittedRow(w.db.orders[x], job.kind, w.now));
        QuietDb(w, db, o);
        WorkerOnly(w, w.(db := db), p, o);
      }
    }
    hide Quiet, SetWorker, SetOrder, SubmittedRow;
  }

  lemma ThrowQuiet(w: World, p: Pid, o: OrderId)
    ensures Quiet(w, DoThrow(w, p), o)
  {
    QuietSame(w, o);
    WorkerOnly(w, w, p, o);
    hide Quiet, SetWorker;
  }

  lemma DoneQuiet(w: World, p: Pid, o: OrderId)
    ensures Quiet(w, DoWriteDone(w, p), o)
  {
    QuietSame(w, o);
    if p in w.workers && w.workers[p].Finished? && w.workers[p].job in w.db.jobs {
      var j := w.workers[p].job;
      var db := w.db.(jobs := w.db.jobs[j := Completed(w.db.jobs[j], w.now)]);
      QuietDb(w, db, o);
      WorkerOnly(w, w.(db := db), p, o);
    }
    hide Quiet, SetWorker, Completed;
  }

  lemma AttemptsQuiet(w: World, p: Pid, o: OrderId)
    ensures Quiet(w, DoReadAttempts(w, p), o)
  {
    QuietSame(w, o);
    WorkerOnly(w, w, p, o);
    QuietWorkers(w, w, Drop(w.workers, p), o);
    hide Quiet, SetWorker, Drop;
  }

  lemma FailureQuiet(w: World, p: Pid, random: real, o: OrderId)
    ensures Quiet(w, DoWriteFailure(w, p, random), o)
  {
    QuietSame(w, o);
    QuietWorkers(w, w, Drop(w.workers, p), o);
    if p in w.workers && w.workers[p].Counted? && w.workers[p].job in w.db.jobs && 0.0 <= random < 1.0 {
      var Counted(j, a, max, q) := w.workers[p];
      var row := FailedOnce(w.db.jobs[j], a, max, w.now + Backoff.BackoffMs(a + 1, random));
      var db := w.db.(jobs := w.db.jobs[j := row]);
      QuietDb(w, db, o);
      hide Quiet, SetWorker, Drop, FailedOnce, Backoff.BackoffMs;
      QuietWorker(w, w.(db := db), p, Idle(q), o);
      if row.orderId.Some? {
        QuietWorker(w, w.(db := db), p, Escalating(row.orderId.value, q), o);
      }
      assert DoWriteFailure(w, p, random)
          == SetWorker(w.(db := db), p,
                       if row.status == FAILED && row.orderId.Some? then Escalating(row.orderId.value, q) else Idle(q));
    }
  }

  lemma EscalateQuiet(w: World, p: Pid, o: OrderId)
    ensures Quiet(w, DoEscalate(w, p), o)
  {
    QuietSame(w, o);
    QuietWorkers(w, w, Drop(w.workers, p), o);
    if p in w.workers && w.workers[p].Escalating? && w.workers[p].order in w.db.orders {
      var x := w.workers[p].order;
      var db := SetOrder(w.db, x, w.db.orders[x].(status := NEEDS_REVIEW));
      QuietDb(w, db, o);
      WorkerOnly(w, w.(db := db), p, o);
    }
    hide Quiet, SetWorker, SetOrder, Drop;
  }
}
