/**
 * The payment handler reads the order in one call and commits in another: when a second
 * commit rewrites an order already charged, what it then changes, and when none can come.
 *
 * A charge moves only by a commit of that very order, and only a request that read the
 * order before can make one. The first part shows that along any run, the second what
 * such a commit does, and the last builds a run in which it takes a refunded order back
 * to PAID.
 */
module PaymentRaces {
  import opened Prelude
  import opened Store
  import opened Protocol
  import opened Invariant
  import opened ShopSteps
  import opened ProtocolTheorems
  import opened Frames

  /** Request p read this order as pending and has yet to commit. */
  predicate Commits(w: World, p: Pid, o: OrderId) {
    p in w.requests && w.requests[p].PaymentRead? && w.requests[p].order == o
  }

  predicate Outstanding(w: World, o: OrderId) {
    exists p :: p in w.requests && Commits(w, p, o)
  }

  /** The step commits a payment of this order. */
  predicate Recharges(w: World, s: Step, o: OrderId) {
    s.PaymentCommit? && Commits(w, s.p, o)
  }

  ghost predicate Steady(w: World, w': World, o: OrderId) {
    SameCharge(w.db.orders, w'.db.orders, o) && NoNewRead(w.requests, w'.requests, o)
  }

  lemma SteadyDownload(w: World, downloads: map<Pid, Download>, o: OrderId)
    ensures Steady(w, w.(downloads := downloads), o)
  {
  }

  lemma CountSteady(w: World, p: Pid, o: OrderId)
    ensures Steady(w, DoCountUse(w, p), o)
  {
    SteadyDownload(w, w.downloads, o);
    if p in w.downloads && w.downloads[p].GrantRead? {
      var GrantRead(g, max) := w.downloads[p];
      SteadyDownload(w, Drop(w.downloads, p), o);
      hide Steady, Drop, CanCount, CountDownload;
      if CanCount(w.db.grants, g, max) {
        var grants := CountDownload(w.db.grants, g);
        SteadyGrants(w, grants, w.downloads[p := Signing(g)], o);
      }
    }
  }

  lemma SteadyGrants(w: World, grants: map<GrantId, Grant>, downloads: map<Pid, Download>, o: OrderId)
    ensures Steady(w, w.(db := w.db.(grants := grants), downloads := downloads), o)
  {
  }

  lemma HandOutSteady(w: World, p: Pid, o: OrderId)
    ensures Steady(w, DoHandOut(w, p), o)
  {
    SteadyDownload(w, w.downloads, o);
    if p in w.downloads && w.downloads[p].Signing? {
      var g := w.downloads[p].grant;
      SteadyHanded(w, Drop(w.downloads, p), w.handed[g := if g in w.handed then w.handed[g] + 1 else 1], o);
    }
    hide Steady, Drop;
  }

  lemma SteadyHanded(w: World, downloads: map<Pid, Download>, handed: map<GrantId, nat>, o: OrderId)
    ensures Steady(w, w.(downloads := downloads, handed := handed), o)
  {
  }

  lemma ReadGrantSteady(w: World, p: Pid, g: GrantId, o: OrderId)
    ensures Steady(w, DoReadGrant(w, p, g), o)
  {
    SteadyDownload(w, w.downloads, o);
    if g in w.db.grants {
      SteadyDownload(w, w.downloads[p := GrantRead(g, w.db.grants[g].maxDownloads)], o);
    }
    hide Steady;
  }

  lemma DownloadsSteady(w: World, s: Step, o: OrderId)
    requires IsDownloadStep(s)
    ensures Steady(w, ApplyDownload(w, s), o)
  {
    hide Steady, DoReadGrant, DoCountUse, DoHandOut, Drop;
    match s
    case ReadGrant(p, g) => ReadGrantSteady(w, p, g, o);
    case CountUse(p) => CountSteady(w, p, o);
    case HandOut(p) => HandOutSteady(w, p, o);
    case CrashDownload(p) => SteadyDownload(w, Drop(w.downloads, p), o);
  }

  lemma QuietSteady(w: World, w': World, o: OrderId)
    requires Quiet(w, w', o)
    ensures Steady(w, w', o)
  {
  }

  /** No step but a commit of its own payment moves the charge of a charged order, or makes such a commit possible. */
  lemma StepSteady(w: World, s: Step, o: OrderId)
    requires Inv(w) && IsPaid(w.db.orders, o) && !Recharges(w, s, o)
    ensures Steady(w, Apply(w, s), o)
  {
    assert Left(w, o) by { assert OrderRowOk(w.db.orders[o]); }
    OrdersUsed(w);
    hide Inv, ApplyPayment, ApplyUpkeep, ApplyAdmin, ApplyDownload, ApplyQueue, Quiet, Steady, Left;
    if IsPaymentStep(s) {
      if s.PaymentCommit? {
        CommitSteady(w, s, o);
      } else {
        PaymentQuiet(w, s, o);
        QuietSteady(w, ApplyPayment(w, s), o);
      }
    } else if IsUpkeepStep(s) {
      UpkeepQuiet(w, s, o);
      QuietSteady(w, ApplyUpkeep(w, s), o);
    } else if IsAdminStep(s) {
      AdminQuiet(w, s, o);
      QuietSteady(w, ApplyAdmin(w, s), o);
    } else if IsDownloadStep(s) {
      DownloadsSteady(w, s, o);
    } else {
      QueueQuiet(w, s, o);
      QuietSteady(w, ApplyQueue(w, s), o);
    }
  }

  lemma CommitSteady(w: World, s: Step, o: OrderId)
    requires s.PaymentCommit? && !Recharges(w, s, o)
    ensures Steady(w, ApplyPayment(w, s), o)
  {
    hide DoPaymentCommit, Quiet, Steady;
    CommitQuiet(w, s.p, s.j1, s.j2, o);
    QuietSteady(w, DoPaymentCommit(w, s.p, s.j1, s.j2), o);
  }

  lemma NoneOutstanding(w: World, w': World, o: OrderId)
    requires Steady(w, w', o) && !Outstanding(w, o)
    ensures !Outstanding(w', o)
  {
    assert forall p :: Commits(w', p, o) ==> Commits(w, p, o);
  }

  lemma {:induction false} FrozenRun(w: World, more: seq<Step>, o: OrderId)
    requires Inv(w) && IsPaid(w.db.orders, o) && !Outstanding(w, o)
    ensures var w' := Run(w, more);
            IsPaid(w'.db.orders, o) && SameCharge(w.db.orders, w'.db.orders, o) && !Outstanding(w', o)
    decreases |more|
  {
    hide Inv, Apply, GrantsLater;
    if more != [] {
      var before, s := more[..|more|-1], more[|more|-1];
      FrozenRun(w, before, o);
      RunKeeps(w, before);
      var w1 := Run(w, before);
      assert !Recharges(w1, s, o);
      hide Run, Outstanding, Later;
      StepSteady(w1, s, o);
      NoneOutstanding(w1, Apply(w1, s), o);
      StaysPaid(w1, s, o);
    }
  }

  lemma StaysPaid(w: World, s: Step, o: OrderId)
    requires Inv(w) && IsPaid(w.db.orders, o)
    ensures IsPaid(Apply(w, s).db.orders, o)
  {
    hide Inv, Apply, GrantsLater;
    StepKeeps(w, s);
  }

  /**
   * A charged order of which no payment is waiting to commit keeps its date and
   * its PaymentIntent for good.
   */
  lemma ChargeIsFrozen(steps: seq<Step>, more: seq<Step>, o: OrderId)
    requires IsPaid(Run(INIT, steps).db.orders, o) && !Outstanding(Run(INIT, steps), o)
    ensures var before, after := Run(INIT, steps).db.orders, Run(INIT, steps + more).db.orders;
            IsPaid(after, o) && after[o].paidAt == before[o].paidAt && after[o].paymentIntent == before[o].paymentIntent
  {
    hide Run, Inv, Outstanding;
    ReachableOk(steps);
    RunSplits(INIT, steps, more);
    FrozenRun(Run(INIT, steps), more, o);
  }

  // ---------------------------------------------------------------- the second commit

  /** A request that can commit: its order is there and nobody else holds its intent. */
  predicate Ready(w: World, p: Pid, o: OrderId) {
    Commits(w, p, o) && o in w.db.orders && IntentFree(w.db.orders, o, w.requests[p].intent)
  }

  /** Jobs stay; new ones are fresh rows under keys nobody held. */
  predicate OnlyMissing(before: map<JobId, Job>, after: map<JobId, Job>, o: OrderId, kind: JobKind, now: Time) {
    && (forall j :: j in before ==> j in after && after[j] == before[j])
    && (forall j :: j in after && j !in before ==>
          exists k :: k in {SEND_ORDER_CONFIRMATION, kind} && after[j] == Job(k, o, Some(o), PENDING, 0, 5, now, None)
                      && !KeyTaken(before, k, o))
  }

  lemma EnqueueMissing(jobs: map<JobId, Job>, j1: JobId, j2: JobId, o: OrderId, kind: JobKind, now: Time)
    requires j1 !in jobs && j2 !in jobs && j1 != j2
    ensures var jobs1 := Enqueue(jobs, j1, SEND_ORDER_CONFIRMATION, o, Some(o), now);
            OnlyMissing(jobs, Enqueue(jobs1, j2, kind, o, Some(o), now), o, kind, now)
  {
    var jobs1 := Enqueue(jobs, j1, SEND_ORDER_CONFIRMATION, o, Some(o), now);
    var jobs2 := Enqueue(jobs1, j2, kind, o, Some(o), now);
    forall j | j in jobs2 && j !in jobs
      ensures exists k ::
                k in {SEND_ORDER_CONFIRMATION, kind} && jobs2[j] == Job(k, o, Some(o), PENDING, 0, 5, now, None)
                && !KeyTaken(jobs, k, o)
    {
      if j in jobs1 {
        assert jobs2[j] == NewJob(SEND_ORDER_CONFIRMATION, o, Some(o), now);
      } else {
        assert jobs2[j] == NewJob(kind, o, Some(o), now);
        KeyGrows(jobs, jobs1, kind, o);
      }
    }
  }

  lemma KeyGrows(before: map<JobId, Job>, after: map<JobId, Job>, kind: JobKind, o: OrderId)
    requires !KeyTaken(after, kind, o) && forall j :: j in before ==> j in after && after[j] == before[j]
    ensures !KeyTaken(before, kind, o)
  {
  }

  lemma CommitStep(w: World, p: Pid, j1: JobId, j2: JobId)
    ensures Apply(w, PaymentCommit(p, j1, j2)) == DoPaymentCommit(w, p, j1, j2)
  {
    hide DoPaymentCommit;
  }

  lemma CommitTables(w: World, p: Pid, o: OrderId, j1: JobId, j2: JobId)
    requires Commits(w, p, o) && o in w.db.orders && FreshJob(w, j1) && FreshJob(w, j2) && j1 != j2
    requires w.requests[p].lines == w.db.orders[o].lines
    ensures var w' := DoPaymentCommit(w, p, j1, j2);
            var row := w.db.orders[o];
            && (Ready(w, p, o) ==>
                  && w'.db.orders == w.db.orders[o := PaidRow(row, w.requests[p].intent, w.now)]
                  && OnlyMissing(w.db.jobs, w'.db.jobs, o, DeliveryKind(row.lines), w.now))
            && (!Ready(w, p, o) ==> w'.db == w.db)
            && !Commits(w', p, o)
  {
    var r := w.requests[p];
    var result := CommitPayment(w.db, o, r.intent, r.lines, j1, j2, w.now);
    EnqueueMissing(w.db.jobs, j1, j2, o, DeliveryKind(r.lines), w.now);
    CommitRows(w.db, o, r.intent, r.lines, j1, j2, w.now);
    hide OnlyMissing, Enqueue, CommitPayment, DeliveryKind, IntentFree, NewJobs, FreshJob, PaidRow;
    if result.Some? {
      var w1 := NewJobs(w, result.value.jobs).(db := result.value);
      assert DoPaymentCommit(w, p, j1, j2) == EndRequest(w1, p);
    } else {
      assert DoPaymentCommit(w, p, j1, j2) == EndRequest(w, p);
    }
  }

  lemma CommitRows(db: Db, o: OrderId, intent: IntentId, lines: seq<Line>, j1: JobId, j2: JobId, now: Time)
    requires o in db.orders
    ensures var result := CommitPayment(db, o, intent, lines, j1, j2, now);
            && (result.Some? <==> IntentFree(db.orders, o, intent))
            && (result.Some? ==>
                  && result.value.orders == db.orders[o := PaidRow(db.orders[o], intent, now)]
                  && result.value.jobs ==
                     Enqueue(Enqueue(db.jobs, j1, SEND_ORDER_CONFIRMATION, o, Some(o), now), j2, DeliveryKind(lines), o,
                             Some(o), now))
  {
    hide Enqueue, DeliveryKind, PaidRow;
  }

  lemma OwedKey(orders: map<OrderId, Order>, jobs: map<JobId, Job>, o: OrderId, kind: JobKind)
    requires JobsOk(orders, jobs) && Owed(jobs, o, kind)
    ensures KeyTaken(jobs, kind, o)
  {
    var j :| j in jobs && jobs[j].orderId == Some(o) && jobs[j].kind == kind && jobs[j].status != DONE;
    assert JobRowOk(orders, jobs[j]);
  }

  lemma ReadLines(w: World, p: Pid, o: OrderId)
    requires Inv(w) && Commits(w, p, o) && o in w.db.orders
    ensures w.requests[p].lines == w.db.orders[o].lines
  {
    hide QueueInv, GrantInv, EventsOk, OrdersOk, IntentsUnique, LinesOk, VariantsOk;
    assert RequestOk(w.requests[p], w.db.orders, w.usedOrders);
  }

  /**
   * A commit that comes after the order was charged rewrites it exactly when
   * nobody else holds its intent: back to PAID whatever it was, refunds
   * included, with the new date and intent. Lines and submission stay, other
   * orders stay, and an undelivered order gets no second delivery job.
   */
  lemma RewriteExactly(steps: seq<Step>, p: Pid, o: OrderId, j1: JobId, j2: JobId)
    requires var w := Run(INIT, steps);
             Commits(w, p, o) && IsPaid(w.db.orders, o) && FreshJob(w, j1) && FreshJob(w, j2) && j1 != j2
    ensures var w := Run(INIT, steps);
            var after := Run(INIT, steps + [PaymentCommit(p, j1, j2)]).db;
            var row := w.db.orders[o];
            && (!IntentFree(w.db.orders, o, w.requests[p].intent) ==> after == w.db)
            && (IntentFree(w.db.orders, o, w.requests[p].intent) ==>
                  && after.orders.Keys == w.db.orders.Keys
                  && after.orders[o].status == PAID && Purchased(after.orders[o])
                  && after.orders[o].paidAt == Some(w.now)
                  && after.orders[o].paymentIntent == Some(w.requests[p].intent)
                  && after.orders[o].lines == row.lines && after.orders[o].submittedAt == row.submittedAt
                  && (forall x :: x in w.db.orders && x != o ==> after.orders[x] == w.db.orders[x])
                  && (forall j :: j in w.db.jobs ==> j in after.jobs && after.jobs[j] == w.db.jobs[j])
                  && (row.submittedAt.None? ==>
                        forall j :: j in after.jobs && j !in w.db.jobs ==>
                          after.jobs[j].kind == SEND_ORDER_CONFIRMATION))
  {
    hide Run, OrderInv, GrantInv, EventsOk, KeysUnique, CountsOk, WorkersOk, JobsOk, Owed, KeyTaken, DeliveryKind,
         IntentFree;
    var w := Run(INIT, steps);
    ReachableOk(steps);
    Extended(INIT, steps, PaymentCommit(p, j1, j2));
    CommitStep(w, p, j1, j2);
    ReadLines(w, p, o);
    CommitTables(w, p, o, j1, j2);
    if w.db.orders[o].submittedAt.None? {
      OwedKey(w.db.orders, w.db.jobs, o, DeliveryKind(w.db.orders[o].lines));
    }
    hide Inv, Apply, DoPaymentCommit;
  }

  predicate QueuesBoth(before: map<JobId, Job>, after: map<JobId, Job>, j1: JobId, j2: JobId, o: OrderId, kind: JobKind,
                       now: Time) {
    after == before[j1 := Job(SEND_ORDER_CONFIRMATION, o, Some(o), PENDING, 0, 5, now, None)]
                   [j2 := Job(kind, o, Some(o), PENDING, 0, 5, now, None)]
  }

  /** The first payment of an order finds both keys free and queues both jobs, pending and due at once. */
  lemma FirstPaymentQueuesBoth(steps: seq<Step>, p: Pid, o: OrderId, j1: JobId, j2: JobId)
    requires var w := Run(INIT, steps);
             Ready(w, p, o) && !IsPaid(w.db.orders, o) && FreshJob(w, j1) && FreshJob(w, j2) && j1 != j2
    ensures var w := Run(INIT, steps);
            var after := Run(INIT, steps + [PaymentCommit(p, j1, j2)]);
            QueuesBoth(w.db.jobs, after.db.jobs, j1, j2, o, DeliveryKind(w.db.orders[o].lines), w.now)
  {
    hide Run, OrderInv, GrantInv, EventsOk, KeysUnique, CountsOk, WorkersOk, Covered;
    var w := Run(INIT, steps);
    ReachableOk(steps);
    Extended(INIT, steps, PaymentCommit(p, j1, j2));
    CommitStep(w, p, j1, j2);
    ReadLines(w, p, o);
    KeysFree(w.db.orders, w.db.jobs, o);
    CommitQueues(w, p, o, j1, j2);
    hide Inv, Apply, DoPaymentCommit, JobsOk, KeyTaken;
  }

  lemma KeysFree(orders: map<OrderId, Order>, jobs: map<JobId, Job>, o: OrderId)
    requires JobsOk(orders, jobs) && !IsPaid(orders, o)
    ensures forall kind :: kind != SEND_CONTACT_MESSAGE ==> !KeyTaken(jobs, kind, o)
  {
    forall j | j in jobs ensures jobs[j].kind != SEND_CONTACT_MESSAGE ==> jobs[j].ref != o {
      assert JobRowOk(orders, jobs[j]);
    }
  }

  lemma CommitQueues(w: World, p: Pid, o: OrderId, j1: JobId, j2: JobId)
    requires Ready(w, p, o) && FreshJob(w, j1) && FreshJob(w, j2) && j1 != j2
    requires w.requests[p].lines == w.db.orders[o].lines
    requires forall kind :: kind != SEND_CONTACT_MESSAGE ==> !KeyTaken(w.db.jobs, kind, o)
    ensures QueuesBoth(w.db.jobs, DoPaymentCommit(w, p, j1, j2).db.jobs, j1, j2, o, DeliveryKind(w.db.orders[o].lines),
            w.now)
  {
    var r := w.requests[p];
    var kind := DeliveryKind(r.lines);
    var jobs1 := w.db.jobs[j1 := NewJob(SEND_ORDER_CONFIRMATION, o, Some(o), w.now)];
    assert kind != SEND_ORDER_CONFIRMATION && kind != SEND_CONTACT_MESSAGE;
    assert Enqueue(w.db.jobs, j1, SEND_ORDER_CONFIRMATION, o, Some(o), w.now) == jobs1;
    assert !KeyTaken(w.db.jobs, kind, o) && !KeyTaken(w.db.jobs, SEND_ORDER_CONFIRMATION, o);
    assert jobs1[j1].kind != kind;
    assert !KeyTaken(jobs1, kind, o);
    assert Enqueue(jobs1, j2, kind, o, Some(o), w.now) == jobs1[j2 := NewJob(kind, o, Some(o), w.now)];
    var result := CommitPayment(w.db, o, r.intent, r.lines, j1, j2, w.now);
    CommitRows(w.db, o, r.intent, r.lines, j1, j2, w.now);
    hide Enqueue, KeyTaken, CommitPayment, DeliveryKind, IntentFree, NewJobs, FreshJob;
    assert DoPaymentCommit(w, p, j1, j2) == EndRequest(NewJobs(w, result.value.jobs).(db := result.value), p);
  }

  // ---------------------------------------------------------------- exactly when a second commit can come

  function After(a: Time, b: Time): Time {
    (if a >= b then a else b) + 1
  }

  lemma TickStep(w: World, t: Time)
    requires t >= w.now
    ensures Apply(w, Tick(t)) == w.(now := t)
  {
  }

  lemma FreshJobs(w: World) returns (j1: JobId, j2: JobId)
    ensures FreshJob(w, j1) && FreshJob(w, j2) && j1 != j2
  {
    var taken := w.executions.Keys + w.requeues.Keys + w.db.jobs.Keys;
    j1 := Unused(taken);
    j2 := j1 + 1;
    assert j1 !in taken && j2 !in taken;
  }

  /** A ready request on a charged order: the clock moves, it commits, and the date of the charge is another. */
  lemma CommitMoves(w: World, p: Pid, o: OrderId) returns (more: seq<Step>)
    requires Inv(w) && Ready(w, p, o) && IsPaid(w.db.orders, o)
    ensures !SameCharge(w.db.orders, Run(w, more).db.orders, o)
  {
    var t := After(w.now, w.db.orders[o].paidAt.value);
    var j1, j2 := FreshJobs(w);
    var w1 := w.(now := t);
    TickStep(w, t);
    CommitStep(w1, p, j1, j2);
    ReadLines(w, p, o);
    CommitTables(w1, p, o, j1, j2);
    more := [] + [Tick(t)] + [PaymentCommit(p, j1, j2)];
    hide Apply, DoPaymentCommit, IntentFree, FreshJob, OnlyMissing, Inv;
    assert Run(w, []) == w;
    Extended(w, [], Tick(t));
    Extended(w, [] + [Tick(t)], PaymentCommit(p, j1, j2));
  }

  /**
   * When every payment waiting on the order carries an intent no other order
   * holds, its charge is final exactly when no payment is waiting.
   */
  lemma ChargeIsFinalExactly(steps: seq<Step>, o: OrderId)
    requires IsPaid(Run(INIT, steps).db.orders, o)
    requires forall p :: p in Run(INIT, steps).requests && Commits(Run(INIT, steps), p, o) ==>
               IntentFree(Run(INIT, steps).db.orders, o, Run(INIT, steps).requests[p].intent)
    ensures !Outstanding(Run(INIT, steps), o) <==>
              forall more :: SameCharge(Run(INIT, steps).db.orders, Run(INIT, steps + more).db.orders, o)
  {
    hide Run, Inv, SameCharge, IntentFree;
    var w := Run(INIT, steps);
    ReachableOk(steps);
    if Outstanding(w, o) {
      var p :| p in w.requests && Commits(w, p, o);
      var more := CommitMoves(w, p, o);
      RunSplits(INIT, steps, more);
    } else {
      forall more ensures SameCharge(w.db.orders, Run(INIT, steps + more).db.orders, o) {
        RunSplits(INIT, steps, more);
        FrozenRun(w, more, o);
      }
    }
  }

  // ---------------------------------------------------------------- a run in which a refund is undone

  const SHIRT := Line(0, "shirt", POD, None, 1000, 1, 1000)

  /** What the run keeps an eye on: the one order, the two payments that read it, and who else is busy. */
  predicate Watch(w: World, status: OrderStatus, paid: bool, first: bool, events: set<EventId>) {
    && w.db.orders.Keys == {0} && w.db.orders[0].status == status && w.db.orders[0].lines == [SHIRT]
    && w.db.orders[0].paidAt.Some? == paid && (paid ==> w.db.orders[0].paymentIntent == Some(7))
    && 2 in w.requests && w.requests[2] == PaymentRead(0, 7, [SHIRT])
    && (1 in w.requests <==> first) && (first ==> w.requests[1] == PaymentRead(0, 7, [SHIRT]))
    && w.db.events == events
  }

  lemma Prepared() returns (steps: seq<Step>)
    ensures var w := Run(INIT, steps); Watch(w, PENDING_PAYMENT, false, true, {}) && 3 !in w.requests
    ensures Run(INIT, steps).db.jobs == map[]
  {
    steps := [] + [AddProduct(0)] + [AddVariant(0, 0)] + [Step.Checkout(0, [SHIRT], "")];
    var w0 := INIT.(db := EMPTY_DB.(products := {0}));
    var w1 := w0.(db := w0.db.(variants := map[0 := 0]));
    var row := Order(PENDING_PAYMENT, None, None, None, 0, "", [SHIRT]);
    var w2 := w1.(db := w1.db.(orders := map[0 := row]), usedOrders := {0});
    ShopOpens(w0, w1, w2);
    var r := PaymentRead(0, 7, [SHIRT]);
    ReadStep(w2, 1, 0, 7);
    var w3 := w2.(requests := w2.requests[1 := r]);
    ReadStep(w3, 2, 0, 7);
    hide Apply, Run;
    assert Run(INIT, []) == INIT by { RunsNowhere(); }
    Extended(INIT, [], AddProduct(0));
    Extended(INIT, [] + [AddProduct(0)], AddVariant(0, 0));
    Extended(INIT, [] + [AddProduct(0)] + [AddVariant(0, 0)], Step.Checkout(0, [SHIRT], ""));
    Extended(INIT, steps, ReconcilePaid(1, 0, 7));
    Extended(INIT, steps + [ReconcilePaid(1, 0, 7)], ReconcilePaid(2, 0, 7));
    steps := steps + [ReconcilePaid(1, 0, 7)] + [ReconcilePaid(2, 0, 7)];
  }

  lemma RunsNowhere()
    ensures Run(INIT, []) == INIT
  {
  }

  lemma ShopOpens(w0: World, w1: World, w2: World)
    requires w0 == INIT.(db := EMPTY_DB.(products := {0}))
    requires w1 == w0.(db := w0.db.(variants := map[0 := 0]))
    requires w2 == w1.(db := w1.db.(orders := map[0 := Order(PENDING_PAYMENT, None, None, None, 0, "", [SHIRT])]),
                       usedOrders := {0})
    ensures Apply(INIT, AddProduct(0)) == w0 && Apply(w0, AddVariant(0, 0)) == w1
    ensures Apply(w1, Step.Checkout(0, [SHIRT], "")) == w2
  {
    assert {} + {0} == {0};
    assert EMPTY_DB.products + {0} == {0};
    assert Sellable(w1.db, SHIRT);
    assert w1.usedOrders + {0} == {0};
  }

  lemma ReadStep(w: World, p: Pid, o: OrderId, intent: IntentId)
    requires p !in w.requests && o in w.db.orders && w.db.orders[o].status == PENDING_PAYMENT
    ensures Apply(w, ReconcilePaid(p, o, intent))
         == w.(requests := w.requests[p := PaymentRead(o, intent, w.db.orders[o].lines)])
  {
  }

  lemma Charged(w: World, j1: JobId, j2: JobId)
    requires Watch(w, PENDING_PAYMENT, false, true, {}) && FreshJob(w, j1) && FreshJob(w, j2) && j1 != j2
    requires 3 !in w.requests
    ensures var w' := Apply(w, PaymentCommit(1, j1, j2)); Watch(w', PAID, true, false, {}) && 3 !in w'.requests
  {
    CommitStep(w, 1, j1, j2);
    CommitTables(w, 1, 0, j1, j2);
    CommitRequests(w, 1, 0, j1, j2);
    OneLess(w.requests);
    hide Apply, DoPaymentCommit, OnlyMissing, FreshJob, Drop;
  }

  lemma OneLess(requests: map<Pid, Request>)
    requires 2 in requests && 3 !in requests
    ensures 2 in Drop(requests, 1) && Drop(requests, 1)[2] == requests[2] && 1 !in Drop(requests, 1)
    ensures 3 !in Drop(requests, 1)
  {
  }

  lemma CommitRequests(w: World, p: Pid, o: OrderId, j1: JobId, j2: JobId)
    requires Commits(w, p, o) && FreshJob(w, j1) && FreshJob(w, j2) && j1 != j2
    ensures var w' := DoPaymentCommit(w, p, j1, j2); w'.requests == Drop(w.requests, p) && w'.db.events == w.db.events
  {
    var r := w.requests[p];
    var result := CommitPayment(w.db, o, r.intent, r.lines, j1, j2, w.now);
    assert result.Some? ==> result.value.events == w.db.events;
    hide CommitPayment, NewJobs, FreshJob, Drop;
    if result.Some? {
      var w1 := NewJobs(w, result.value.jobs).(db := result.value);
      SameRequests(w, result.value.jobs);
      assert DoPaymentCommit(w, p, j1, j2) == EndRequest(w1, p);
    } else {
      assert DoPaymentCommit(w, p, j1, j2) == EndRequest(w, p);
    }
  }

  lemma SameRequests(w: World, jobs: map<JobId, Job>)
    ensures NewJobs(w, jobs).requests == w.requests
  {
  }

  lemma RefundArrives(w: World)
    requires Watch(w, PAID, true, false, {}) && 3 !in w.requests
    ensures var w' := Apply(w, ReceiveEvent(3, 0, ChargeRefunded(0, true)));
            Watch(w', PAID, true, false, {0}) && 3 in w'.requests
              && w'.requests[3] == EventClaimed(0, ChargeRefunded(0, true))
  {
    ReceiveStep(w, 3, 0, ChargeRefunded(0, true));
    hide Apply;
  }

  lemma ReceiveStep(w: World, p: Pid, e: EventId, payload: Payload)
    requires p !in w.requests && e !in w.db.events
    ensures Apply(w, ReceiveEvent(p, e, payload))
         == w.(db := w.db.(events := w.db.events + {e}), requests := w.requests[p := EventClaimed(e, payload)],
               dispatched := w.dispatched[e := 0])
  {
  }

  lemma RefundDispatched(w: World)
    requires Watch(w, PAID, true, false, {0}) && 3 in w.requests
             && w.requests[3] == EventClaimed(0, ChargeRefunded(0, true))
    ensures var w' := Apply(w, DispatchEvent(3));
            Watch(w', PAID, true, false, {0}) && 3 in w'.requests && w'.requests[3] == RefundRead(0)
  {
    DispatchStep(w);
    hide Apply;
  }

  lemma DispatchStep(w: World)
    requires 3 in w.requests && w.requests[3] == EventClaimed(0, ChargeRefunded(0, true)) && 0 in w.db.orders
    ensures var w' := Apply(w, DispatchEvent(3));
            w'.db == w.db && w'.requests == Drop(w.requests, 3)[3 := RefundRead(0)]
  {
    DispatchApplies(w, 3);
    hide Apply, Drop;
  }

  lemma DispatchApplies(w: World, p: Pid)
    ensures Apply(w, DispatchEvent(p)) == DoDispatch(w, p)
  {
    hide DoDispatch;
  }

  lemma Refunded(w: World)
    requires Watch(w, PAID, true, false, {0}) && 3 in w.requests && w.requests[3] == RefundRead(0)
    ensures Watch(Apply(w, RefundCommit(3)), REFUNDED, true, false, {0})
  {
    RefundApplies(w, 3);
    var result := CommitRefund(w.db, 0, w.now);
    assert result.Some? && result.value.orders == w.db.orders[0 := w.db.orders[0].(status := REFUNDED)]
      && result.value.events == w.db.events;
    hide Apply, CommitRefund, Drop;
    assert DoRefundCommit(w, 3) == EndRequest(w.(db := result.value), 3);
    StillThere(w.requests);
  }

  lemma StillThere(requests: map<Pid, Request>)
    requires 2 in requests && 1 !in requests
    ensures 2 in Drop(requests, 3) && Drop(requests, 3)[2] == requests[2] && 1 !in Drop(requests, 3)
  {
  }

  lemma RefundApplies(w: World, p: Pid)
    ensures Apply(w, RefundCommit(p)) == DoRefundCommit(w, p)
  {
    hide DoRefundCommit;
  }

  /**
   * Two reconciliations read one pending order, one commits, the charge is
   * refunded, and the other commits: the order is PAID again.
   */
  lemma RefundCanBeUndone() returns (steps: seq<Step>, last: Step)
    ensures var before, after := Run(INIT, steps).db.orders, Run(INIT, steps + [last]).db.orders;
            && 0 in before && before[0].status == REFUNDED && !Purchased(before[0])
            && 0 in after && after[0].status == PAID && Purchased(after[0])
  {
    hide Run, Apply;
    var first := Prepared();
    var w := Run(INIT, first);
    var j1, j2 := FreshJobs(w);
    Charged(w, j1, j2);
    Extended(INIT, first, PaymentCommit(1, j1, j2));
    var s1 := first + [PaymentCommit(1, j1, j2)];
    RefundArrives(Run(INIT, s1));
    Extended(INIT, s1, ReceiveEvent(3, 0, ChargeRefunded(0, true)));
    var s2 := s1 + [ReceiveEvent(3, 0, ChargeRefunded(0, true))];
    RefundDispatched(Run(INIT, s2));
    Extended(INIT, s2, DispatchEvent(3));
    var s3 := s2 + [DispatchEvent(3)];
    Refunded(Run(INIT, s3));
    Extended(INIT, s3, RefundCommit(3));
    steps := s3 + [RefundCommit(3)];
    var j3, j4 := FreshJobs(Run(INIT, steps));
    last := PaymentCommit(2, j3, j4);
    RewriteExactly(steps, 2, 0, j3, j4);
  }
}
