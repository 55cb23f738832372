/**
 * The purges, the deletion of a variant, refunds, resends, the retry and the alerts, each
 * told by the rows it looks at and in the figures of the shop, in every state it can reach.
 */
module Maintenance {
  import opened Prelude
  import opened Store
  import opened Protocol
  import opened Invariant
  import opened OrderProof
  import opened ProtocolTheorems

  // ---------------------------------------------------------------- purges

  /** An attempt to buy that nobody ever paid, thirty days old. */
  predicate Abandoned(row: Order, now: Time) {
    && (row.status == PENDING_PAYMENT || row.status == CANCELLED)
    && row.paymentIntent.None? && row.paidAt.None?
    && row.createdAt + 2_592_000_000 < now
  }

  /** The purge takes the abandoned orders, all of them, and no other row of any table. */
  lemma PurgeExactly(steps: seq<Step>)
    ensures var w, w' := Run(INIT, steps), Run(INIT, steps + [PurgeUnpaid]);
            && (forall o :: o in w'.db.orders <==> o in w.db.orders && !Abandoned(w.db.orders[o], w.now))
            && (forall o :: o in w'.db.orders ==> w'.db.orders[o] == w.db.orders[o])
            && w' == w.(db := w.db.(orders := w'.db.orders))
  {
    hide Run, Inv, DeleteOrders, Apply;
    var w := Run(INIT, steps);
    var limit := Before(w.now, DIAS_RETENCION_SIN_COBRO);
    Extended(INIT, steps, PurgeUnpaid);
    PurgeTakesOnlyAbandoned(steps, limit);
    ReachableOk(steps);
    PurgeStep(w);
    DeletedElsewhere(w.db, StaleUnpaid(w.db, limit));
  }

  lemma PurgeStep(w: World)
    ensures var result := DeleteOrders(w.db, StaleUnpaid(w.db, Before(w.now, DIAS_RETENCION_SIN_COBRO)));
            result.Some? ==> Apply(w, PurgeUnpaid) == w.(db := result.value)
  {
    hide DeleteOrders, StaleUnpaid;
  }

  lemma DeletedElsewhere(db: Db, victims: set<OrderId>)
    ensures var result := DeleteOrders(db, victims);
            result.Some? ==> result.value.events == db.events && result.value.products == db.products
  {
  }

  /** A job done ninety days ago. */
  predicate LongDone(job: Job, now: Time) {
    job.status == DONE && job.completedAt.Some? && job.completedAt.value + 7_776_000_000 < now
  }

  /** The purge of the queue takes the jobs done long ago, all of them, and no other row of any table. */
  lemma PurgeJobsExactly(w: World)
    ensures var w' := Apply(w, PurgeJobs);
            && (forall j :: j in w'.db.jobs <==> j in w.db.jobs && !LongDone(w.db.jobs[j], w.now))
            && (forall j :: j in w'.db.jobs ==> w'.db.jobs[j] == w.db.jobs[j])
            && w' == w.(db := w.db.(jobs := w'.db.jobs))
  {
    assert Apply(w, PurgeJobs)
        == w.(db := w.db.(jobs := PurgeDone(w.db.jobs, Before(w.now, DIAS_RETENCION_TRABAJOS_HECHOS))));
    hide Apply;
  }

  // ---------------------------------------------------------------- the contact form

  /** A message is queued under its number, not begun, due at once and with five attempts, unless it was already. */
  lemma ContactExactly(w: World, j: JobId, ref: nat)
    requires FreshJob(w, j)
    ensures var after := Apply(w, EnqueueContact(j, ref)).db;
            if exists i :: i in w.db.jobs && w.db.jobs[i].kind == SEND_CONTACT_MESSAGE && w.db.jobs[i].ref == ref
            then after == w.db
            else after == w.db.(jobs :=
                   w.db.jobs[j := Job(SEND_CONTACT_MESSAGE, ref, None, PENDING, 0, 5, w.now, None)])
  {
    var jobs := Enqueue(w.db.jobs, j, SEND_CONTACT_MESSAGE, ref, None, w.now);
    assert Apply(w, EnqueueContact(j, ref)) == NewJobs(w, jobs) by {
      hide NewJobs, FreshJob;
    }
    hide Apply;
  }

  // ---------------------------------------------------------------- deleting a variant

  predicate InSomeLine(orders: map<OrderId, Order>, v: VariantId) {
    exists o :: o in orders && exists i :: 0 <= i < |orders[o].lines| && orders[o].lines[i].variantId == v
  }

  /** What was checked earlier is checked again by the foreign key: the variant goes iff no line names it now. */
  lemma VariantDeletionExactly(w: World, p: Pid)
    requires p in w.requests && w.requests[p].VariantChecked?
    ensures var w' := Apply(w, CommitVariant(p));
            var v := w.requests[p].variant;
            && p !in w'.requests
            && (v in w.db.variants && !InSomeLine(w.db.orders, v) ==>
                  w'.db == w.db.(variants := w'.db.variants) && w'.db.variants == w.db.variants - {v})
            && (v !in w.db.variants || InSomeLine(w.db.orders, v) ==> w'.db == w.db)
  {
    hide InSomeLine, VariantReferenced;
    var v := w.requests[p].variant;
    SomeLineRefers(w.db, v);
    CommitVariantStep(w, p);
    assert (map x | x in w.db.variants && x != v :: w.db.variants[x]) == w.db.variants - {v};
    hide Apply;
  }

  lemma SomeLineRefers(db: Db, v: VariantId)
    ensures VariantReferenced(db, v) <==> InSomeLine(db.orders, v)
  {
  }

  lemma CommitVariantStep(w: World, p: Pid)
    requires p in w.requests && w.requests[p].VariantChecked?
    ensures var result := DeleteVariant(w.db, w.requests[p].variant);
            Apply(w, CommitVariant(p)).db == (if result.Some? then result.value else w.db)
            && p !in Apply(w, CommitVariant(p)).requests
  {
    hide DeleteVariant;
  }

  // ---------------------------------------------------------------- refunds

  lemma RefundReadStep(w: World, p: Pid, o: OrderId, total: bool)
    requires p !in w.requests
    ensures var w' := ReadRefund(w, p, o, total);
            && w'.db == w.db && w'.now == w.now
            && w'.requests == if total && o in w.db.orders then w.requests[p := RefundRead(o)] else w.requests
  {
    assert Drop(w.requests, p) == w.requests;
    hide Drop;
  }

  lemma Gone(requests: map<Pid, Request>, p: Pid)
    ensures p !in Drop(requests, p)
  {
  }

  lemma RefundDispatched(w: World, p: Pid, o: OrderId, total: bool)
    requires p in w.requests && w.requests[p].EventClaimed? && w.requests[p].payload == ChargeRefunded(o, total)
    ensures var e := w.requests[p].event;
            var w1 := w.(requests := Drop(w.requests, p),
                         dispatched := w.dispatched[e := if e in w.dispatched then w.dispatched[e] + 1 else 1]);
            Apply(w, DispatchEvent(p)) == ReadRefund(w1, p, o, total)
  {
    hide ReadRefund, Drop;
  }

  /** A partial refund, or one of an order that is not there, is received and forgotten. */
  lemma PartialRefundIsNothing(w: World, p: Pid, o: OrderId, total: bool)
    requires p in w.requests && w.requests[p].EventClaimed? && w.requests[p].payload == ChargeRefunded(o, total)
    ensures var w' := Apply(w, DispatchEvent(p));
            && w'.db == w.db && w'.now == w.now
            && w'.requests == if total && o in w.db.orders
                              then Drop(w.requests, p)[p := RefundRead(o)] else Drop(w.requests, p)
  {
    hide ReadRefund, Drop;
    RefundDispatched(w, p, o, total);
    var e := w.requests[p].event;
    var w1 := w.(requests := Drop(w.requests, p),
                 dispatched := w.dispatched[e := if e in w.dispatched then w.dispatched[e] + 1 else 1]);
    hide Apply;
    assert p !in w1.requests by {
      Gone(w.requests, p);
    }
    RefundReadStep(w1, p, o, total);
  }

  // ---------------------------------------------------------------- requests that check first

  /** A resend goes on for the buyer of a purchase that stands, named by their address. */
  lemma ResendExactly(w: World, p: Pid, o: OrderId, email: string)
    requires p !in w.requests
    ensures var w' := Apply(w, ReadResend(p, o, email));
            && w'.db == w.db
            && if o in w.db.orders && w.db.orders[o].customerEmail == email
                  && w.db.orders[o].status in {PAID, IN_PRODUCTION, SHIPPED, DELIVERED}
               then w'.requests == w.requests[p := Request.ResendRead(o, w.db.orders[o].lines)]
               else w'.requests == w.requests
  {
    hide DoReadResend;
    assert Apply(w, ReadResend(p, o, email)) == DoReadResend(w, p, o, email);
    hide Apply;
    ResendOutcome(w, p, o, email);
  }

  lemma Asked(w: World, p: Pid, r: Request)
    ensures var w' := w.(requests := w.requests[p := r]);
            w'.db == w.db && w'.now == w.now && w'.requests == w.requests[p := r]
  {
  }

  lemma ResendOutcome(w: World, p: Pid, o: OrderId, email: string)
    requires p !in w.requests
    ensures var w' := DoReadResend(w, p, o, email);
            && w'.db == w.db
            && if o in w.db.orders && w.db.orders[o].customerEmail == email
                  && w.db.orders[o].status in {PAID, IN_PRODUCTION, SHIPPED, DELIVERED}
               then w'.requests == w.requests[p := Request.ResendRead(o, w.db.orders[o].lines)]
               else w'.requests == w.requests
  {
    if o in w.db.orders {
      Asked(w, p, Request.ResendRead(o, w.db.orders[o].lines));
    }
  }

  /** A retry goes on for an order in review. */
  lemma RetryExactly(w: World, p: Pid, o: OrderId)
    requires p !in w.requests
    ensures var w' := Apply(w, CheckRetry(p, o));
            && w'.db == w.db && w'.now == w.now
            && if o in w.db.orders && w.db.orders[o].status == NEEDS_REVIEW
               then w'.requests == w.requests[p := RetryChecked(o)] else w'.requests == w.requests
  {
    assert Apply(w, CheckRetry(p, o)) == DoCheckRetry(w, p, o);
    hide Apply;
    Asked(w, p, RetryChecked(o));
  }

  // ---------------------------------------------------------------- alerts

  lemma NoneIsZero<T>(s: set<T>)
    ensures |s| == 0 <==> s == {}
  {
  }

  /** Paid before the limit, and nothing was sent. */
  predicate Waiting(row: Order, limit: int) {
    row.status == PAID && row.submittedAt.None? && row.paidAt.Some? && row.paidAt.value < limit
  }

  /** In the queue, and due before the limit. */
  predicate Stalled(job: Job, limit: int) {
    job.status == PENDING && job.nextAttemptAt < limit
  }

  /** Each count is zero exactly when there is no such row; the limit is thirty minutes ago. */
  lemma AlertsExactly(db: Db, now: Time)
    ensures AlertsAt(db, now).needsReview == 0 <==> forall o :: o in db.orders ==> db.orders[o].status != NEEDS_REVIEW
    ensures AlertsAt(db, now).failedJobs == 0 <==> forall j :: j in db.jobs ==> db.jobs[j].status != FAILED
    ensures AlertsAt(db, now).stuckPaid == 0 <==>
              forall o :: o in db.orders ==> !Waiting(db.orders[o], now - 1_800_000)
    ensures AlertsAt(db, now).stalledJobs == 0 <==>
              forall j :: j in db.jobs ==> !Stalled(db.jobs[j], now - 1_800_000)
  {
    hide InReview, FailedJobs, StuckPaid, StalledJobs, Waiting, Stalled;
    var stale := now - STALE_ORDER_MS;
    NoneIsZero(InReview(db));
    NoneIsZero(FailedJobs(db));
    NoneIsZero(StuckPaid(db, stale));
    NoneIsZero(StalledJobs(db, stale));
    OrdersEmpty(db, stale);
    JobsEmpty(db, stale);
  }

  lemma OrdersEmpty(db: Db, stale: int)
    ensures InReview(db) == {} <==> forall o :: o in db.orders ==> db.orders[o].status != NEEDS_REVIEW
    ensures StuckPaid(db, stale) == {} <==> forall o :: o in db.orders ==> !Waiting(db.orders[o], stale)
  {
    assert forall o :: o in db.orders && db.orders[o].status == NEEDS_REVIEW ==> o in InReview(db);
    assert forall o :: o in db.orders && Waiting(db.orders[o], stale) ==> o in StuckPaid(db, stale);
  }

  lemma JobsEmpty(db: Db, stale: int)
    ensures FailedJobs(db) == {} <==> forall j :: j in db.jobs ==> db.jobs[j].status != FAILED
    ensures StalledJobs(db, stale) == {} <==> forall j :: j in db.jobs ==> !Stalled(db.jobs[j], stale)
  {
    assert forall j :: j in db.jobs && db.jobs[j].status == FAILED ==> j in FailedJobs(db);
    assert forall j :: j in db.jobs && Stalled(db.jobs[j], stale) ==> j in StalledJobs(db, stale);
  }
}
