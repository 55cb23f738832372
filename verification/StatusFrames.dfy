/**
 * Who puts an order in PAID or in NEEDS_REVIEW: only a payment, a retry and an
 * escalation of that very order do.
 *
 * Every other step of the protocol leaves the status or moves it elsewhere. Most
 * of them touch neither orders nor catalogue at all, and are shown to leave both
 * as they are; the ones that write an order write another one, or this one with
 * another status. Deletions only remove rows.
 */
module StatusFrames {
  import opened Prelude
  import opened Store
  import opened Protocol
  import opened Invariant
  import opened PaymentRaces
  import Backoff

  /** The order is in PAID or in NEEDS_REVIEW only if it was there before. */
  ghost predicate Unmoved(before: map<OrderId, Order>, after: map<OrderId, Order>, o: OrderId) {
    (o in before && o in after && after[o].status in {PAID, NEEDS_REVIEW}) ==> after[o].status == before[o].status
  }

  /** The step escalates this order. */
  predicate Escalates(w: World, s: Step, o: OrderId) {
    s.Escalate? && s.p in w.workers && w.workers[s.p].Escalating? && w.workers[s.p].order == o
  }

  /** The step moves this order back to PAID after a retry. */
  predicate MovesBack(w: World, s: Step, o: OrderId) {
    s.MoveRetry? && s.p in w.requests && w.requests[s.p] == RetryRequeued(o)
  }

  /** Orders and catalogue stay as they are. */
  ghost predicate SameShelf(db: Db, db': Db) {
    db'.orders == db.orders && db'.variants == db.variants && db'.products == db.products
  }

  // ---------------------------------------------------------------- steps that leave orders and catalogue alone

  lemma ShelfStays(db: Db)
    ensures SameShelf(db, db)
    ensures forall jobs :: SameShelf(db, db.(jobs := jobs))
    ensures forall grants :: SameShelf(db, db.(grants := grants))
  {
  }

  lemma Hands(w: World)
    ensures forall p, next :: SetWorker(w, p, next).db == w.db
    ensures forall p :: EndRequest(w, p).db == w.db
    ensures forall p :: w.(workers := Drop(w.workers, p)).db == w.db
  {
    hide Drop;
  }

  lemma ClaimShelf(w: World, p: Pid)
    ensures SameShelf(w.db, DoClaim(w, p).db)
  {
    ShelfStays(w.db);
    if p in w.workers && w.workers[p].Reading? {
      var ids := w.workers[p].ids;
      var hit := Claimable(w.db.jobs, ids);
      var w1 := w.(db := w.db.(jobs := SetProcessing(w.db.jobs, hit)));
      Hands(w1);
      hide SetWorker, Drop, SameShelf, Claimable, SetProcessing;
      if |hit| == |ids| {
        assert DoClaim(w, p) == SetWorker(w1, p, Idle(ids)).(owner := DoClaim(w, p).owner);
      } else {
        assert DoClaim(w, p) == w1.(workers := Drop(w.workers, p));
      }
    }
  }

  lemma BeginShelf(w: World, p: Pid)
    ensures SameShelf(w.db, DoBegin(w, p).db)
  {
    ShelfStays(w.db);
    Hands(w);
    hide SetWorker, Drop, SameShelf;
  }

  lemma LoadShelf(w: World, p: Pid)
    ensures SameShelf(w.db, DoLoad(w, p).db)
  {
    ShelfStays(w.db);
    Hands(w);
    hide SetWorker, SameShelf;
  }

  lemma IssueShelf(w: World, p: Pid, ids: seq<GrantId>)
    ensures SameShelf(w.db, DoIssueLinks(w, p, ids).db)
  {
    ShelfStays(w.db);
    Hands(w);
    if p in w.workers && w.workers[p].Running? && w.workers[p].stage.Loaded? && w.workers[p].job in w.db.jobs {
      var lines := w.workers[p].stage.lines;
      var job := w.db.jobs[w.workers[p].job];
      if job.orderId.Some? && |ids| == |Deliverables(lines)| {
        Hands(IssueGrants(w, job.orderId.value, lines, ids));
        GrantsShelf(w, job.orderId.value, lines, ids);
      }
    }
    hide SetWorker, SameShelf, IssueGrants, Deliverables, FreshGrants;
  }

  lemma GrantsShelf(w: World, x: OrderId, lines: seq<Line>, ids: seq<GrantId>)
    requires |ids| == |Deliverables(lines)|
    ensures SameShelf(w.db, IssueGrants(w, x, lines, ids).db)
  {
    ShelfStays(w.db);
    hide SameShelf, EmitLinks, Deliverables;
  }

  lemma MailShelf(w: World, p: Pid)
    ensures SameShelf(w.db, DoSendMail(w, p).db)
  {
    ShelfStays(w.db);
    Hands(w);
    hide SetWorker, SameShelf;
  }

  lemma ThrowShelf(w: World, p: Pid)
    ensures SameShelf(w.db, DoThrow(w, p).db)
  {
    ShelfStays(w.db);
    Hands(w);
    hide SetWorker, SameShelf;
  }

  lemma DoneShelf(w: World, p: Pid)
    ensures SameShelf(w.db, DoWriteDone(w, p).db)
  {
    ShelfStays(w.db);
    if p in w.workers && w.workers[p].Finished? && w.workers[p].job in w.db.jobs {
      var j := w.workers[p].job;
      Hands(w.(db := w.db.(jobs := w.db.jobs[j := Completed(w.db.jobs[j], w.now)])));
    }
    hide SetWorker, SameShelf, Completed;
  }

  lemma AttemptsShelf(w: World, p: Pid)
    ensures SameShelf(w.db, DoReadAttempts(w, p).db)
  {
    ShelfStays(w.db);
    Hands(w);
    hide SetWorker, SameShelf, Drop;
  }

  lemma FailureShelf(w: World, p: Pid, random: real)
    ensures SameShelf(w.db, DoWriteFailure(w, p, random).db)
  {
    hide SetWorker, SameShelf, Drop, Backoff.BackoffMs, FailedOnce;
    ShelfStays(w.db);
    Hands(w);
    if p in w.workers && w.workers[p].Counted? && w.workers[p].job in w.db.jobs && 0.0 <= random < 1.0 {
      var Counted(j, a, max, _) := w.workers[p];
      var row := FailedOnce(w.db.jobs[j], a, max, w.now + Backoff.BackoffMs(a + 1, random));
      Hands(w.(db := w.db.(jobs := w.db.jobs[j := row])));
    }
  }

  lemma ResendShelf(w: World, p: Pid, ids: seq<GrantId>)
    ensures SameShelf(w.db, DoIssueResend(w, p, ids).db)
  {
    ShelfStays(w.db);
    Hands(w);
    if p in w.requests && w.requests[p].ResendRead? && |ids| == |Deliverables(w.requests[p].lines)| {
      GrantsShelf(w, w.requests[p].order, w.requests[p].lines, ids);
      Hands(IssueGrants(w, w.requests[p].order, w.requests[p].lines, ids));
    }
    hide EndRequest, SameShelf, IssueGrants, Deliverables, FreshGrants;
  }

  lemma RequeueShelf(w: World, p: Pid)
    ensures SameShelf(w.db, DoRequeueRetry(w, p).db)
  {
    ShelfStays(w.db);
    Hands(w);
    hide EndRequest, SameShelf, FailedOf, RequeueFailed;
  }

  lemma CountShelf(w: World, p: Pid)
    ensures SameShelf(w.db, DoCountUse(w, p).db)
  {
    ShelfStays(w.db);
    if p in w.downloads && w.downloads[p].GrantRead? {
      var GrantRead(g, max) := w.downloads[p];
      hide SameShelf, CanCount, CountDownload, Drop;
      if CanCount(w.db.grants, g, max) {
        assert DoCountUse(w, p).db == w.db.(grants := CountDownload(w.db.grants, g));
      } else {
        assert DoCountUse(w, p).db == w.db;
      }
    }
  }

  lemma GrantShelf(w: World, p: Pid, g: GrantId)
    ensures SameShelf(w.db, DoReadGrant(w, p, g).db)
  {
    ShelfStays(w.db);
    hide SameShelf, Downloadable;
  }

  lemma HandOutShelf(w: World, p: Pid)
    ensures SameShelf(w.db, DoHandOut(w, p).db)
  {
    ShelfStays(w.db);
    hide SameShelf, Drop;
  }

  lemma DownloadShelf(w: World, s: Step)
    requires IsDownloadStep(s)
    ensures SameShelf(w.db, ApplyDownload(w, s).db)
  {
    hide SameShelf, DoReadGrant, DoCountUse, DoHandOut, Drop;
    ShelfStays(w.db);
    match s
    case ReadGrant(p, g) => GrantShelf(w, p, g);
    case CountUse(p) => CountShelf(w, p);
    case HandOut(p) => HandOutShelf(w, p);
    case CrashDownload(_) =>
  }

  /** The steps of the queue, an escalation and a submission aside. */
  lemma QueueShelf(w: World, s: Step)
    requires IsQueueStep(s) && !s.Submit? && !s.Escalate?
    ensures SameShelf(w.db, ApplyQueue(w, s).db)
  {
    hide SameShelf, DoClaim, DoBegin, DoLoad, DoIssueLinks, DoSendMail, DoWriteDone, DoReadAttempts, DoWriteFailure;
    hide IsBatch, Drop, DoThrow;
    ShelfStays(w.db);
    match s
    case ReadBatch(_, _) =>
    case ClaimBatch(p) => ClaimShelf(w, p);
    case BeginJob(p) => BeginShelf(w, p);
    case LoadOrder(p) => LoadShelf(w, p);
    case IssueLinks(p, ids) => IssueShelf(w, p, ids);
    case SendMail(p) => MailShelf(w, p);
    case Throw(p) => ThrowShelf(w, p);
    case WriteDone(p) => DoneShelf(w, p);
    case ReadAttempts(p) => AttemptsShelf(w, p);
    case WriteFailure(p, r) => FailureShelf(w, p, r);
    case CrashWorker(_) =>
  }

  // ---------------------------------------------------------------- the status, step by step

  lemma Stays(db: Db, db': Db, o: OrderId)
    requires SameShelf(db, db')
    ensures Unmoved(db.orders, db'.orders, o)
  {
  }

  lemma SameOrders(db: Db, db': Db, o: OrderId)
    requires db'.orders == db.orders
    ensures Unmoved(db.orders, db'.orders, o)
  {
  }

  /** A row other than this one is written, or this one with another status. */
  lemma Written(orders: map<OrderId, Order>, x: OrderId, row: Order, o: OrderId)
    requires x != o || x !in orders || row.status !in {PAID, NEEDS_REVIEW} || row.status == orders[x].status
    ensures Unmoved(orders, orders[x := row], o)
  {
  }

  lemma SubmitUnmoved(w: World, p: Pid, o: OrderId)
    ensures Unmoved(w.db.orders, DoSubmit(w, p).db.orders, o)
  {
    ShelfStays(w.db);
    Stays(w.db, w.db, o);
    if p in w.workers && w.workers[p].Running? && w.workers[p].job in w.db.jobs {
      var job := w.db.jobs[w.workers[p].job];
      if job.orderId.Some? && job.orderId.value in w.db.orders {
        var x := job.orderId.value;
        Written(w.db.orders, x, SubmittedRow(w.db.orders[x], job.kind, w.now), o);
      }
    }
    hide Unmoved, SubmittedRow;
  }

  lemma EscalateUnmoved(w: World, p: Pid, o: OrderId)
    requires !Escalates(w, Escalate(p), o)
    ensures Unmoved(w.db.orders, DoEscalate(w, p).db.orders, o)
  {
    ShelfStays(w.db);
    Stays(w.db, w.db, o);
    if p in w.workers && w.workers[p].Escalating? && w.workers[p].order in w.db.orders {
      var x := w.workers[p].order;
      Written(w.db.orders, x, w.db.orders[x].(status := NEEDS_REVIEW), o);
    }
    hide Unmoved, Drop;
  }

  lemma QueueUnmoved(w: World, s: Step, o: OrderId)
    requires IsQueueStep(s) && !Escalates(w, s, o)
    ensures Unmoved(w.db.orders, ApplyQueue(w, s).db.orders, o)
  {
    hide Unmoved, SameShelf, DoSubmit, DoEscalate;
    if s.Submit? {
      SubmitUnmoved(w, s.p, o);
    } else if s.Escalate? {
      EscalateUnmoved(w, s.p, o);
    } else {
      QueueShelf(w, s);
      hide ApplyQueue;
      Stays(w.db, ApplyQueue(w, s).db, o);
    }
  }

  lemma DeletedUnmoved(db: Db, victims: set<OrderId>, o: OrderId)
    requires DeleteOrders(db, victims).Some?
    ensures Unmoved(db.orders, DeleteOrders(db, victims).value.orders, o)
  {
  }

  lemma PurgeUnmoved(w: World, o: OrderId)
    ensures Unmoved(w.db.orders, DoPurgeUnpaid(w).db.orders, o)
  {
    var victims := StaleUnpaid(w.db, Before(w.now, DIAS_RETENCION_SIN_COBRO));
    hide StaleUnpaid;
    if DeleteOrders(w.db, victims).Some? {
      DeletedUnmoved(w.db, victims, o);
    }
    hide DeleteOrders;
  }

  lemma MoveRetryUnmoved(w: World, p: Pid, o: OrderId)
    requires !MovesBack(w, MoveRetry(p), o)
    ensures Unmoved(w.db.orders, DoMoveRetry(w, p).db.orders, o)
  {
    ShelfStays(w.db);
    Stays(w.db, w.db, o);
    if p in w.requests && w.requests[p].RetryRequeued? && w.requests[p].order in w.db.orders {
      var x := w.requests[p].order;
      Written(w.db.orders, x, w.db.orders[x].(status := PAID), o);
    }
    hide Unmoved, Drop;
  }

  lemma UpkeepUnmoved(w: World, s: Step, o: OrderId)
    requires IsUpkeepStep(s) && !MovesBack(w, s, o)
    ensures Unmoved(w.db.orders, ApplyUpkeep(w, s).db.orders, o)
  {
    hide Unmoved, SameShelf, DoPurgeUnpaid, DoMoveRetry, DoRequeueRetry, Enqueue, PurgeDone, FreshJob;
    ShelfStays(w.db);
    Stays(w.db, w.db, o);
    match s
    case PurgeUnpaid => PurgeUnmoved(w, o);
    case MoveRetry(p) => MoveRetryUnmoved(w, p, o);
    case RequeueRetry(p) => RequeueShelf(w, p); Stays(w.db, DoRequeueRetry(w, p).db, o);
    case _ =>
  }

  lemma DeletionUnmoved(w: World, p: Pid, o: OrderId)
    ensures Unmoved(w.db.orders, DoCommitDeletion(w, p).db.orders, o)
  {
    ShelfStays(w.db);
    Stays(w.db, w.db, o);
    if p in w.requests && w.requests[p].DeletionChecked? {
      var x := w.requests[p].product;
      if DeleteProduct(w.db, x).Some? {
        DeletedUnmoved(w.db, UnpaidOf(w.db, x), o);
        hide DeleteOrders, UnpaidOf;
        assert DeleteProduct(w.db, x).value.orders == DeleteOrders(w.db, UnpaidOf(w.db, x)).value.orders;
      }
    }
    hide Unmoved, DeleteProduct, Drop;
  }

  lemma VariantUnmoved(w: World, p: Pid, o: OrderId)
    ensures Unmoved(w.db.orders, DoCommitVariant(w, p).db.orders, o)
  {
    ShelfStays(w.db);
    Stays(w.db, w.db, o);
    Hands(w);
    if p in w.requests && w.requests[p].VariantChecked? {
      var result := DeleteVariant(w.db, w.requests[p].variant);
      hide VariantReferenced;
      if result.Some? {
        assert result.value.orders == w.db.orders;
        Hands(w.(db := result.value));
      }
    }
    hide Unmoved, DeleteVariant, EndRequest;
  }

  lemma CheckOrders(w: World, p: Pid, x: ProductId, v: VariantId)
    ensures DoCheckDeletion(w, p, x).db == w.db && DoCheckVariant(w, p, v).db == w.db
  {
    hide HasSales, VariantReferenced;
    assert w.(requests := w.requests[p := DeletionChecked(x)]).db == w.db;
    assert w.(requests := w.requests[p := VariantChecked(v)]).db == w.db;
  }

  lemma ReadResendOrders(w: World, p: Pid, x: OrderId, email: string)
    ensures DoReadResend(w, p, x, email).db == w.db
  {
  }

  lemma AdminUnmoved(w: World, s: Step, o: OrderId)
    requires IsAdminStep(s)
    ensures Unmoved(w.db.orders, ApplyAdmin(w, s).db.orders, o)
  {
    hide Unmoved, SameShelf, DoCommitDeletion, DoCommitVariant, DoIssueResend, DoReadResend, HasSales;
    hide VariantReferenced, EndRequest, DoCheckDeletion, DoCheckVariant;
    SameOrders(w.db, w.db, o);
    Hands(w);
    match s
    case CheckDeletion(p, x) => CheckOrders(w, p, x, 0);
    case CheckVariant(p, v) => CheckOrders(w, p, 0, v);
    case ReadResend(p, x, email) => ReadResendOrders(w, p, x, email);
    case CommitDeletion(p) => DeletionUnmoved(w, p, o);
    case CommitVariant(p) => VariantUnmoved(w, p, o);
    case IssueResend(p, ids) => ResendShelf(w, p, ids); Stays(w.db, DoIssueResend(w, p, ids).db, o);
    case CrashRequest(p) =>
  }

  lemma CheckoutUnmoved(w: World, x: OrderId, lines: seq<Line>, email: string, o: OrderId)
    requires o in w.db.orders ==> o in w.usedOrders
    ensures Unmoved(w.db.orders, DoCheckout(w, x, lines, email).db.orders, o)
  {
    ShelfStays(w.db);
    Stays(w.db, w.db, o);
    Written(w.db.orders, x, Order(PENDING_PAYMENT, None, None, None, w.now, email, lines), o);
    hide Unmoved, Sellable;
  }

  lemma ExpireUnmoved(db: Db, x: OrderId, o: OrderId)
    ensures Unmoved(db.orders, ExpireSession(db, x).orders, o) && Unmoved(db.orders, CancelUnpaid(db, x).orders, o)
  {
  }

  lemma RefundUnmoved(w: World, p: Pid, o: OrderId)
    ensures Unmoved(w.db.orders, DoRefundCommit(w, p).db.orders, o)
  {
    ShelfStays(w.db);
    Stays(w.db, w.db, o);
    Hands(w);
    if p in w.requests && w.requests[p].RefundRead? && w.requests[p].order in w.db.orders {
      var x := w.requests[p].order;
      Written(w.db.orders, x, w.db.orders[x].(status := REFUNDED), o);
      Hands(w.(db := CommitRefund(w.db, x, w.now).value));
    }
    hide Unmoved, RevokeLive, EndRequest;
  }

  lemma CommitUnmoved(w: World, p: Pid, j1: JobId, j2: JobId, o: OrderId)
    requires !Recharges(w, PaymentCommit(p, j1, j2), o)
    ensures Unmoved(w.db.orders, DoPaymentCommit(w, p, j1, j2).db.orders, o)
  {
    hide Enqueue, DeliveryKind, IntentFree, FreshJob, Drop;
  }

  lemma DispatchUnmoved(w: World, p: Pid, o: OrderId)
    ensures Unmoved(w.db.orders, DoDispatch(w, p).db.orders, o)
  {
    hide Unmoved, ExpireSession, ReadPayment, ReadRefund, Drop;
    SameOrders(w.db, w.db, o);
    if p in w.requests && w.requests[p].EventClaimed? {
      var e := w.requests[p].event;
      var w1 := w.(requests := Drop(w.requests, p),
                   dispatched := w.dispatched[e := if e in w.dispatched then w.dispatched[e] + 1 else 1]);
      match w.requests[p].payload
      case PaymentSucceeded(x, intent) => ReadOrders(w1, p, x, intent);
      case SessionExpired(x) => ExpireUnmoved(w.db, x, o);
      case ChargeRefunded(x, total) => ReadRefundOrders(w1, p, x, total);
      case Other =>
    }
  }

  lemma ReadRefundOrders(w: World, p: Pid, x: OrderId, total: bool)
    ensures ReadRefund(w, p, x, total).db == w.db
  {
    Hands(w);
    assert w.(requests := w.requests[p := RefundRead(x)]).db == w.db;
    hide EndRequest;
  }

  lemma ReceiveOrders(w: World, p: Pid, e: EventId, payload: Payload)
    ensures DoReceive(w, p, e, payload).db.orders == w.db.orders
  {
  }

  lemma ReadOrders(w: World, p: Pid, x: OrderId, intent: IntentId)
    ensures ReadPayment(w, p, x, intent).db == w.db
  {
    Hands(w);
    if x in w.db.orders && w.db.orders[x].status == PENDING_PAYMENT {
      var r := PaymentRead(x, intent, w.db.orders[x].lines);
      assert w.(requests := w.requests[p := r]).db == w.db;
    }
    hide EndRequest;
  }

  /** Clock, catalogue, and the reads that precede a payment. */
  predicate QuietPayment(s: Step) {
    s.Tick? || s.AddProduct? || s.AddVariant? || s.ReceiveEvent? || s.ReconcilePaid?
  }

  lemma QuietOrders(w: World, s: Step)
    requires IsPaymentStep(s) && QuietPayment(s)
    ensures ApplyPayment(w, s).db.orders == w.db.orders
  {
    hide DoReceive, ReadPayment;
    match s
    case Tick(t) => assert w.(now := t).db == w.db;
    case AddProduct(x) => assert w.(db := w.db.(products := w.db.products + {x})).db.orders == w.db.orders;
    case AddVariant(v, x) => assert w.(db := w.db.(variants := w.db.variants[v := x])).db.orders == w.db.orders;
    case ReceiveEvent(p, e, payload) => ReceiveOrders(w, p, e, payload);
    case ReconcilePaid(p, x, intent) => ReadOrders(w, p, x, intent);
  }

  lemma PaymentStepUnmoved(w: World, s: Step, o: OrderId)
    requires IsPaymentStep(s) && !QuietPayment(s) && !Recharges(w, s, o) && (o in w.db.orders ==> o in w.usedOrders)
    ensures Unmoved(w.db.orders, ApplyPayment(w, s).db.orders, o)
  {
    hide Unmoved, SameShelf, DoCheckout, DoDispatch, DoRefundCommit, DoPaymentCommit, ExpireSession, CancelUnpaid;
    match s
    case Checkout(x, lines, email) => CheckoutUnmoved(w, x, lines, email, o);
    case DispatchEvent(p) => DispatchUnmoved(w, p, o);
    case ReconcileExpired(x) => ExpireUnmoved(w.db, x, o);
    case ReconcileNoSession(x) => ExpireUnmoved(w.db, x, o);
    case PaymentCommit(p, j1, j2) => CommitUnmoved(w, p, j1, j2, o);
    case RefundCommit(p) => RefundUnmoved(w, p, o);
  }

  /** Anybody's step that does not escalate, move back or pay this order. */
  lemma StepUnmoved(w: World, s: Step, o: OrderId)
    requires !Escalates(w, s, o) && !MovesBack(w, s, o) && !Recharges(w, s, o)
    requires o in w.db.orders ==> o in w.usedOrders
    ensures Unmoved(w.db.orders, Apply(w, s).db.orders, o)
  {
    hide Unmoved, ApplyPayment, ApplyUpkeep, ApplyAdmin, ApplyDownload, ApplyQueue, Escalates, MovesBack, Recharges;
    if IsPaymentStep(s) && QuietPayment(s) {
      QuietOrders(w, s);
      SameOrders(w.db, ApplyPayment(w, s).db, o);
    } else if IsPaymentStep(s) {
      PaymentStepUnmoved(w, s, o);
    } else if IsUpkeepStep(s) {
      UpkeepUnmoved(w, s, o);
    } else if IsAdminStep(s) {
      AdminUnmoved(w, s, o);
    } else if IsDownloadStep(s) {
      DownloadShelf(w, s);
      Stays(w.db, ApplyDownload(w, s).db, o);
    } else {
      QueueUnmoved(w, s, o);
    }
  }
}
