/**
 * The transaction that deletes a product, with its two statements apart: abandoned
 * orders first, then the product. When exactly what came between rolls it back.
 *
 * It rests on what every step of the protocol keeps: an order that is not
 * never-charged stays so and is not removed, and lines keep pointing at the same
 * products. This is shown step by step first; then the two statements are run
 * with any steps between them.
 */
module DeletionOverlap {
  import opened Prelude
  import opened Store
  import opened Protocol
  import opened Invariant
  import opened ShopSteps
  import opened WorkerSteps
  import opened ProtocolTheorems
  import opened StatusFrames

  /** An order that is not never-charged stays so; lines keep pointing at the same products. */
  ghost predicate Stands(db: Db, db': Db, o: OrderId) {
    && (o in db.orders && !NeverCharged(db.orders[o]) ==> o in db'.orders && !NeverCharged(db'.orders[o]))
    && (o in db.orders && o in db'.orders ==> forall x :: RefersTo(db, o, x) <==> RefersTo(db', o, x))
  }

  // ---------------------------------------------------------------- what steps are made of

  lemma ShelfStands(db: Db, db': Db, o: OrderId)
    requires SameShelf(db, db')
    ensures Stands(db, db', o)
  {
    if o in db.orders {
      forall x ensures RefersTo(db, o, x) <==> RefersTo(db', o, x) { }
    }
  }

  lemma RowStands(db: Db, y: OrderId, row: Order, o: OrderId)
    requires y in db.orders ==> row.lines == db.orders[y].lines && (NeverCharged(row) ==> NeverCharged(db.orders[y]))
    requires y !in db.orders ==> y != o
    ensures Stands(db, SetOrder(db, y, row), o)
  {
    hide NeverCharged;
    if o in db.orders {
      var after := SetOrder(db, y, row);
      assert after.orders[o].lines == db.orders[o].lines && after.variants == db.variants;
      forall x ensures RefersTo(db, o, x) <==> RefersTo(after, o, x) { }
    }
  }

  lemma DeletedStands(db: Db, victims: set<OrderId>, o: OrderId)
    requires DeleteOrders(db, victims).Some?
    ensures Stands(db, DeleteOrders(db, victims).value, o)
  {
    var after := DeleteOrders(db, victims).value;
    assert o in victims && o in db.orders ==> NeverCharged(db.orders[o]);
    hide NeverCharged;
    if o in after.orders {
      forall x ensures RefersTo(db, o, x) <==> RefersTo(after, o, x) { }
    }
  }

  lemma DroppedStands(db: Db, y: ProductId, o: OrderId)
    requires DropProduct(db, y).Some?
    ensures Stands(db, DropProduct(db, y).value, o)
  {
    var after := DropProduct(db, y).value;
    hide NeverCharged;
    if o in db.orders {
      assert !RefersTo(db, o, y);
      forall x ensures RefersTo(db, o, x) <==> RefersTo(after, o, x) { }
    }
  }

  lemma VariantStands(db: Db, v: VariantId, o: OrderId)
    requires DeleteVariant(db, v).Some?
    ensures Stands(db, DeleteVariant(db, v).value, o)
  {
    var after := DeleteVariant(db, v).value;
    hide NeverCharged;
    if o in db.orders {
      assert forall i :: 0 <= i < |db.orders[o].lines| ==> db.orders[o].lines[i].variantId != v;
      forall x ensures RefersTo(db, o, x) <==> RefersTo(after, o, x) { }
    }
  }

  lemma NewVariantStands(db: Db, v: VariantId, y: ProductId, o: OrderId)
    requires v !in db.variants && LinesOk(db.orders, db.variants)
    ensures Stands(db, db.(variants := db.variants[v := y]), o)
  {
    var after := db.(variants := db.variants[v := y]);
    hide NeverCharged;
    if o in db.orders {
      assert forall i :: 0 <= i < |db.orders[o].lines| ==> db.orders[o].lines[i].variantId in db.variants;
      forall x ensures RefersTo(db, o, x) <==> RefersTo(after, o, x) { }
    }
  }

  lemma Through(db: Db, db1: Db, db2: Db, o: OrderId)
    requires Stands(db, db1, o) && Stands(db1, db2, o)
    requires o in db.orders && o in db2.orders ==> o in db1.orders
    ensures Stands(db, db2, o)
  {
    hide RefersTo, NeverCharged;
  }

  // ---------------------------------------------------------------- step by step

  lemma Same(db: Db, o: OrderId)
    ensures Stands(db, db, o)
  {
    ShelfStays(db);
    ShelfStands(db, db, o);
  }

  lemma SubmitStands(w: World, p: Pid, o: OrderId)
    ensures Stands(w.db, DoSubmit(w, p).db, o)
  {
    Same(w.db, o);
    if p in w.workers && w.workers[p].Running? && w.workers[p].job in w.db.jobs {
      var job := w.db.jobs[w.workers[p].job];
      if job.orderId.Some? && job.orderId.value in w.db.orders {
        var y := job.orderId.value;
        RowStands(w.db, y, SubmittedRow(w.db.orders[y], job.kind, w.now), o);
        Hands(w.(db := SetOrder(w.db, y, SubmittedRow(w.db.orders[y], job.kind, w.now))));
      }
    }
    hide Stands, SubmittedRow, SetOrder, SetWorker;
  }

  lemma EscalateStands(w: World, p: Pid, o: OrderId)
    ensures Stands(w.db, DoEscalate(w, p).db, o)
  {
    Same(w.db, o);
    Hands(w);
    if p in w.workers && w.workers[p].Escalating? && w.workers[p].order in w.db.orders {
      var y := w.workers[p].order;
      var row := w.db.orders[y].(status := NEEDS_REVIEW);
      RowStands(w.db, y, row, o);
      Hands(w.(db := SetOrder(w.db, y, row)));
    }
    hide Stands, SetOrder, SetWorker, Drop;
  }

  lemma QueueStands(w: World, s: Step, o: OrderId)
    requires IsQueueStep(s)
    ensures Stands(w.db, ApplyQueue(w, s).db, o)
  {
    hide Stands, SameShelf, DoSubmit, DoEscalate;
    if s.Submit? {
      SubmitStands(w, s.p, o);
    } else if s.Escalate? {
      EscalateStands(w, s.p, o);
    } else {
      QueueShelf(w, s);
      hide ApplyQueue;
      ShelfStands(w.db, ApplyQueue(w, s).db, o);
    }
  }

  lemma PurgeStands(w: World, o: OrderId)
    ensures Stands(w.db, DoPurgeUnpaid(w).db, o)
  {
    Same(w.db, o);
    var victims := StaleUnpaid(w.db, Before(w.now, DIAS_RETENCION_SIN_COBRO));
    hide StaleUnpaid, Stands;
    if DeleteOrders(w.db, victims).Some? {
      DeletedStands(w.db, victims, o);
    }
    hide DeleteOrders;
  }

  lemma MoveRetryStands(w: World, p: Pid, o: OrderId)
    ensures Stands(w.db, DoMoveRetry(w, p).db, o)
  {
    Same(w.db, o);
    Hands(w);
    if p in w.requests && w.requests[p].RetryRequeued? && w.requests[p].order in w.db.orders {
      var y := w.requests[p].order;
      var row := w.db.orders[y].(status := PAID);
      RowStands(w.db, y, row, o);
      Hands(w.(db := SetOrder(w.db, y, row)));
    }
    hide Stands, SetOrder, EndRequest;
  }

  lemma PurgeJobsShelf(w: World, limit: Time)
    ensures SameShelf(w.db, w.(db := w.db.(jobs := PurgeDone(w.db.jobs, limit))).db)
  {
    hide PurgeDone;
  }

  lemma ContactShelf(w: World, jobs: map<JobId, Job>)
    ensures SameShelf(w.db, NewJobs(w, jobs).db)
  {
  }

  lemma CheckRetryShelf(w: World, p: Pid, y: OrderId)
    ensures SameShelf(w.db, DoCheckRetry(w, p, y).db)
  {
  }

  lemma UpkeepStands(w: World, s: Step, o: OrderId)
    requires IsUpkeepStep(s)
    ensures Stands(w.db, ApplyUpkeep(w, s).db, o)
  {
    hide Stands, SameShelf, DoPurgeUnpaid, DoMoveRetry, DoRequeueRetry, DoCheckRetry, Enqueue, PurgeDone, FreshJob;
    hide NewJobs;
    match s
    case PurgeUnpaid => PurgeStands(w, o);
    case PurgeJobs =>
      PurgeJobsShelf(w, Before(w.now, DIAS_RETENCION_TRABAJOS_HECHOS));
      ShelfStands(w.db, ApplyUpkeep(w, s).db, o);
    case EnqueueContact(j, ref) =>
      Same(w.db, o);
      var jobs := Enqueue(w.db.jobs, j, SEND_CONTACT_MESSAGE, ref, None, w.now);
      ContactShelf(w, jobs);
      ShelfStands(w.db, NewJobs(w, jobs).db, o);
    case CheckRetry(p, y) => CheckRetryShelf(w, p, y); ShelfStands(w.db, DoCheckRetry(w, p, y).db, o);
    case RequeueRetry(p) => RequeueShelf(w, p); ShelfStands(w.db, DoRequeueRetry(w, p).db, o);
    case MoveRetry(p) => MoveRetryStands(w, p, o);
  }

  lemma ProductStands(db: Db, y: ProductId, o: OrderId)
    requires DeleteProduct(db, y).Some?
    ensures Stands(db, DeleteProduct(db, y).value, o)
  {
    var victims := UnpaidOf(db, y);
    var db1 := DeleteOrders(db, victims).value;
    DeletedStands(db, victims, o);
    DroppedStands(db1, y, o);
    assert DropProduct(db1, y).value.orders == db1.orders;
    hide DeleteOrders, UnpaidOf, DropProduct, Stands;
    Through(db, db1, DropProduct(db1, y).value, o);
  }

  lemma DeletionStands(w: World, p: Pid, o: OrderId)
    ensures Stands(w.db, DoCommitDeletion(w, p).db, o)
  {
    Same(w.db, o);
    Hands(w);
    if p in w.requests && w.requests[p].DeletionChecked? {
      var y := w.requests[p].product;
      if DeleteProduct(w.db, y).Some? {
        ProductStands(w.db, y, o);
        Hands(w.(db := DeleteProduct(w.db, y).value));
      }
    }
    hide Stands, DeleteProduct, EndRequest;
  }

  lemma VariantStepStands(w: World, p: Pid, o: OrderId)
    ensures Stands(w.db, DoCommitVariant(w, p).db, o)
  {
    Same(w.db, o);
    Hands(w);
    if p in w.requests && w.requests[p].VariantChecked? {
      var v := w.requests[p].variant;
      if DeleteVariant(w.db, v).Some? {
        VariantStands(w.db, v, o);
        Hands(w.(db := DeleteVariant(w.db, v).value));
      }
    }
    hide Stands, DeleteVariant, EndRequest;
  }

  lemma AdminStands(w: World, s: Step, o: OrderId)
    requires IsAdminStep(s)
    ensures Stands(w.db, ApplyAdmin(w, s).db, o)
  {
    hide Stands, SameShelf, DoCommitDeletion, DoCommitVariant, DoIssueResend, DoReadResend, DoCheckDeletion;
    hide DoCheckVariant, EndRequest;
    Same(w.db, o);
    Hands(w);
    match s
    case CheckDeletion(p, x) => CheckOrders(w, p, x, 0);
    case CommitDeletion(p) => DeletionStands(w, p, o);
    case CheckVariant(p, v) => CheckOrders(w, p, 0, v);
    case CommitVariant(p) => VariantStepStands(w, p, o);
    case ReadResend(p, x, email) => ReadResendOrders(w, p, x, email);
    case IssueResend(p, ids) => ResendShelf(w, p, ids); ShelfStands(w.db, DoIssueResend(w, p, ids).db, o);
    case CrashRequest(p) =>
  }

  lemma CheckoutStands(w: World, y: OrderId, lines: seq<Line>, email: string, o: OrderId)
    requires w.db.orders.Keys <= w.usedOrders
    ensures Stands(w.db, DoCheckout(w, y, lines, email).db, o)
  {
    Same(w.db, o);
    if o !in w.db.orders {
      assert Stands(w.db, DoCheckout(w, y, lines, email).db, o);
    } else if y != o && y !in w.db.orders {
      RowStands(w.db, y, Order(PENDING_PAYMENT, None, None, None, w.now, email, lines), o);
    }
    assert y in w.db.orders ==> y in w.db.orders.Keys;
    hide Stands, Sellable, SetOrder;
  }

  lemma ExpireStands(db: Db, y: OrderId, o: OrderId)
    ensures Stands(db, ExpireSession(db, y), o) && Stands(db, CancelUnpaid(db, y), o)
  {
    Same(db, o);
    if y in db.orders && (db.orders[y].status == PENDING_PAYMENT || NeverCharged(db.orders[y])) {
      RowStands(db, y, db.orders[y].(status := CANCELLED), o);
    }
    hide Stands, SetOrder;
  }

  /** A row written together with tables the order does not hang on. */
  lemma RowAndMore(db: Db, y: OrderId, row: Order, db': Db, o: OrderId)
    requires y in db.orders && row.lines == db.orders[y].lines && !NeverCharged(row)
    requires SameShelf(SetOrder(db, y, row), db')
    ensures Stands(db, db', o)
  {
    RowStands(db, y, row, o);
    ShelfStands(SetOrder(db, y, row), db', o);
    assert o in db.orders ==> o in SetOrder(db, y, row).orders;
    hide Stands, SameShelf;
    Through(db, SetOrder(db, y, row), db', o);
  }

  lemma RefundStands(w: World, p: Pid, o: OrderId)
    ensures Stands(w.db, DoRefundCommit(w, p).db, o)
  {
    Same(w.db, o);
    Hands(w);
    if p in w.requests && w.requests[p].RefundRead? && w.requests[p].order in w.db.orders {
      var y := w.requests[p].order;
      var db' := CommitRefund(w.db, y, w.now).value;
      RowAndMore(w.db, y, w.db.orders[y].(status := REFUNDED), db', o);
      Hands(w.(db := db'));
    }
    hide Stands, RevokeLive, EndRequest;
  }

  lemma PaidShelf(db: Db, y: OrderId, intent: IntentId, lines: seq<Line>, j1: JobId, j2: JobId, now: Time)
    requires CommitPayment(db, y, intent, lines, j1, j2, now).Some?
    ensures y in db.orders
    ensures SameShelf(SetOrder(db, y, PaidRow(db.orders[y], intent, now)),
                      CommitPayment(db, y, intent, lines, j1, j2, now).value)
  {
    hide Enqueue, DeliveryKind, IntentFree;
  }

  lemma PaymentStands(w: World, p: Pid, j1: JobId, j2: JobId, o: OrderId)
    ensures Stands(w.db, DoPaymentCommit(w, p, j1, j2).db, o)
  {
    hide Stands, SameShelf, CommitPayment, EndRequest, FreshJob, NewJobs;
    Same(w.db, o);
    Hands(w);
    if p in w.requests && w.requests[p].PaymentRead? {
      var r := w.requests[p];
      var result := CommitPayment(w.db, r.order, r.intent, r.lines, j1, j2, w.now);
      if result.Some? {
        PaidShelf(w.db, r.order, r.intent, r.lines, j1, j2, w.now);
        RowAndMore(w.db, r.order, PaidRow(w.db.orders[r.order], r.intent, w.now), result.value, o);
        Hands(NewJobs(w, result.value.jobs).(db := result.value));
      }
    }
  }

  lemma DispatchStands(w: World, p: Pid, o: OrderId)
    ensures Stands(w.db, DoDispatch(w, p).db, o)
  {
    hide Stands, ExpireSession, ReadPayment, ReadRefund, Drop;
    Same(w.db, o);
    if p in w.requests && w.requests[p].EventClaimed? {
      var e := w.requests[p].event;
      var w1 := w.(requests := Drop(w.requests, p),
                   dispatched := w.dispatched[e := if e in w.dispatched then w.dispatched[e] + 1 else 1]);
      match w.requests[p].payload
      case PaymentSucceeded(x, intent) => ReadOrders(w1, p, x, intent);
      case SessionExpired(x) => ExpireStands(w.db, x, o);
      case ChargeRefunded(x, total) => ReadRefundOrders(w1, p, x, total);
      case Other =>
    }
  }

  lemma ReceiveShelf(w: World, p: Pid, e: EventId, payload: Payload)
    ensures SameShelf(w.db, DoReceive(w, p, e, payload).db)
  {
  }

  lemma ProductsStand(db: Db, y: ProductId, o: OrderId)
    ensures Stands(db, db.(products := db.products + {y}), o)
  {
    if o in db.orders {
      forall x ensures RefersTo(db, o, x) <==> RefersTo(db.(products := db.products + {y}), o, x) { }
    }
  }

  lemma QuietStands(w: World, s: Step, o: OrderId)
    requires IsPaymentStep(s) && QuietPayment(s) && LinesOk(w.db.orders, w.db.variants)
    ensures Stands(w.db, ApplyPayment(w, s).db, o)
  {
    hide Stands, SameShelf, LinesOk, DoReceive, ReadPayment;
    Same(w.db, o);
    match s
    case Tick(t) => assert w.(now := t).db == w.db;
    case AddProduct(y) => ProductsStand(w.db, y, o);
    case AddVariant(v, y) => if v !in w.db.variants { NewVariantStands(w.db, v, y, o); }
    case ReceiveEvent(p, e, payload) =>
      ReceiveShelf(w, p, e, payload);
      ShelfStands(w.db, DoReceive(w, p, e, payload).db, o);
    case ReconcilePaid(p, x, intent) => ReadOrders(w, p, x, intent);
  }

  lemma PaymentStepStands(w: World, s: Step, o: OrderId)
    requires IsPaymentStep(s) && !QuietPayment(s) && w.db.orders.Keys <= w.usedOrders
    ensures Stands(w.db, ApplyPayment(w, s).db, o)
  {
    hide Stands, DoCheckout, DoDispatch, DoPaymentCommit, DoRefundCommit, ExpireSession, CancelUnpaid;
    match s
    case Checkout(y, lines, email) => CheckoutStands(w, y, lines, email, o);
    case DispatchEvent(p) => DispatchStands(w, p, o);
    case ReconcileExpired(x) => ExpireStands(w.db, x, o);
    case ReconcileNoSession(x) => ExpireStands(w.db, x, o);
    case PaymentCommit(p, j1, j2) => PaymentStands(w, p, j1, j2, o);
    case RefundCommit(p) => RefundStands(w, p, o);
  }

  lemma StepStands(w: World, s: Step, o: OrderId)
    requires Inv(w)
    ensures Stands(w.db, Apply(w, s).db, o)
  {
    assert w.db.orders.Keys <= w.usedOrders && LinesOk(w.db.orders, w.db.variants);
    hide Inv, LinesOk, Stands, SameShelf, ApplyPayment, ApplyUpkeep, ApplyAdmin, ApplyDownload, ApplyQueue;
    if IsPaymentStep(s) && QuietPayment(s) {
      QuietStands(w, s, o);
    } else if IsPaymentStep(s) {
      PaymentStepStands(w, s, o);
    } else if IsUpkeepStep(s) {
      UpkeepStands(w, s, o);
    } else if IsAdminStep(s) {
      AdminStands(w, s, o);
    } else if IsDownloadStep(s) {
      DownloadShelf(w, s);
      ShelfStands(w.db, ApplyDownload(w, s).db, o);
    } else {
      QueueStands(w, s, o);
    }
  }

  lemma {:induction false} RunStands(w: World, more: seq<Step>, o: OrderId)
    requires Inv(w) && o in w.db.orders
    ensures Stands(w.db, Run(w, more).db, o)
    decreases |more|
  {
    hide Inv, Apply, Stands, GrantsLater;
    if more == [] {
      Same(w.db, o);
    } else {
      var before, s := more[..|more|-1], more[|more|-1];
      var w1 := Run(w, before);
      RunStands(w, before, o);
      RunKeeps(w, before);
      OrdersUsed(w);
      StepStands(w1, s, o);
      StepKeeps(w1, s);
      Through(w.db, w1.db, Apply(w1, s).db, o);
    }
  }

  // ---------------------------------------------------------------- the two statements

  /** The second statement, on what it finds once the victims of the first are gone. */
  function Finish(db: Db, victims: set<OrderId>, x: ProductId): Option<Db> {
    match DeleteOrders(db, victims)
    case None => None
    case Some(db1) => DropProduct(db1, x)
  }

  /** Nobody else writes the rows the first statement deleted until the transaction ends. */
  ghost predicate Locked(db: Db, db': Db, victims: set<OrderId>) {
    forall o :: o in victims ==> o in db.orders && o in db'.orders && db'.orders[o] == db.orders[o]
  }

  /** An order of the product that was not there when the transaction began. */
  predicate Newcomer(db: Db, db': Db, x: ProductId) {
    exists o :: o in db'.orders && o !in db.orders && RefersTo(db', o, x)
  }

  lemma FinishExactly(db: Db, victims: set<OrderId>, x: ProductId)
    requires forall o :: o in victims ==> o in db.orders && NeverCharged(db.orders[o])
    ensures Finish(db, victims, x).Some? <==>
              x in db.products && forall o :: o in db.orders && o !in victims ==> !RefersTo(db, o, x)
  {
    var db1 := DeleteOrders(db, victims).value;
    forall o | o in db1.orders ensures RefersTo(db1, o, x) <==> RefersTo(db, o, x) { }
    hide NeverCharged, RefersTo;
  }

  /**
   * With any steps of anybody between its two statements, the deletion of a
   * product that is still there commits exactly when no order that is not
   * never-charged held it at the first, and no checkout of it came in by the second.
   */
  lemma SplitDeletionExactly(steps: seq<Step>, more: seq<Step>, x: ProductId)
    requires var db, db' := Run(INIT, steps).db, Run(INIT, steps + more).db;
             Locked(db, db', UnpaidOf(db, x))
    ensures var db, db' := Run(INIT, steps).db, Run(INIT, steps + more).db;
            Finish(db', UnpaidOf(db, x), x).Some? <==>
              x in db'.products && !HasSales(db, x) && !Newcomer(db, db', x)
  {
    var w := Run(INIT, steps);
    var db, db' := w.db, Run(INIT, steps + more).db;
    ReachableOk(steps);
    RunSplits(INIT, steps, more);
    forall o | o in db.orders ensures Stands(db, db', o) {
      RunStands(w, more, o);
    }
    hide Run, Inv;
    SplitTables(db, db', x);
  }

  lemma SplitTables(db: Db, db': Db, x: ProductId)
    requires Locked(db, db', UnpaidOf(db, x)) && forall o :: o in db.orders ==> Stands(db, db', o)
    ensures Finish(db', UnpaidOf(db, x), x).Some? <==>
              x in db'.products && !HasSales(db, x) && !Newcomer(db, db', x)
  {
    var victims := UnpaidOf(db, x);
    FinishExactly(db', victims, x);
    hide Finish, RefersTo, NeverCharged;
    if HasSales(db, x) {
      var o :| o in db.orders && !NeverCharged(db.orders[o]) && RefersTo(db, o, x);
      assert Stands(db, db', o) && o !in victims && RefersTo(db', o, x);
    } else if Newcomer(db, db', x) {
      var o :| o in db'.orders && o !in db.orders && RefersTo(db', o, x);
      assert o !in victims;
    } else {
      forall o | o in db'.orders && o !in victims ensures !RefersTo(db', o, x) {
        if o in db.orders {
          assert Stands(db, db', o);
        }
      }
    }
  }

  lemma CheckoutIn(w: World, o: OrderId, lines: seq<Line>, email: string)
    requires o !in w.usedOrders && o !in w.db.orders && lines != []
    requires forall i :: 0 <= i < |lines| ==> Sellable(w.db, lines[i])
    ensures Apply(w, Checkout(o, lines, email)).db ==
              SetOrder(w.db, o, Order(PENDING_PAYMENT, None, None, None, w.now, email, lines))
  {
  }

  /** One checkout of the product between the two statements rolls the deletion back, though nobody has paid. */
  lemma CheckoutRollsBack(steps: seq<Step>, o: OrderId, lines: seq<Line>, email: string, x: ProductId)
    requires var w := Run(INIT, steps);
             && o !in w.usedOrders && (forall i :: 0 <= i < |lines| ==> Sellable(w.db, lines[i]))
             && exists i :: 0 <= i < |lines| && lines[i].variantId in w.db.variants
                  && w.db.variants[lines[i].variantId] == x
    ensures var db := Run(INIT, steps).db;
            Finish(Run(INIT, steps + [Checkout(o, lines, email)]).db, UnpaidOf(db, x), x) == None
  {
    hide Run, Inv, Apply, Sellable, Finish, RefersTo, HasSales, UnpaidOf, Locked, Newcomer;
    var w := Run(INIT, steps);
    var db' := Run(INIT, steps + [Checkout(o, lines, email)]).db;
    ReachableOk(steps);
    OrdersUsed(w);
    assert o !in w.db.orders by { assert w.db.orders.Keys <= w.usedOrders; }
    CheckoutIn(w, o, lines, email);
    Extended(INIT, steps, Checkout(o, lines, email));
    ComesIn(w.db, o, Order(PENDING_PAYMENT, None, None, None, w.now, email, lines), x);
    SplitDeletionExactly(steps, [Checkout(o, lines, email)], x);
  }

  lemma ComesIn(db: Db, o: OrderId, row: Order, x: ProductId)
    requires o !in db.orders
    requires exists i :: 0 <= i < |row.lines| && row.lines[i].variantId in db.variants
               && db.variants[row.lines[i].variantId] == x
    ensures Newcomer(db, SetOrder(db, o, row), x) && Locked(db, SetOrder(db, o, row), UnpaidOf(db, x))
  {
    assert RefersTo(SetOrder(db, o, row), o, x);
  }

  /** With nothing between them, the two statements are the transaction of the protocol. */
  lemma NothingBetween(db: Db, x: ProductId)
    ensures Finish(db, UnpaidOf(db, x), x) == DeleteProduct(db, x)
  {
  }
}
