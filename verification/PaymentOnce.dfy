/**
 * The two roads to a paid order, with each handler run to its end: whatever is repeated
 * or fails halfway, the payment takes effect at most once and always in the same way.
 */
module PaymentOnce {
  import opened Prelude
  import opened Store

  /** One try at telling the shop that the order was paid. */
  datatype Attempt =
    | Webhook(event: EventId, fails: bool, j1: JobId, j2: JobId, now: Time)
    | Reconciliation(fails: bool, j1: JobId, j2: JobId, now: Time)

  /** handlePaymentSucceeded: nothing unless the order is pending; a failure rolls back. */
  function HandlePayment(db: Db, o: OrderId, intent: IntentId, fails: bool, j1: JobId, j2: JobId, now: Time): Db {
    if o !in db.orders || db.orders[o].status != PENDING_PAYMENT || fails then db
    else
      match CommitPayment(db, o, intent, db.orders[o].lines, j1, j2, now)
      case None => db
      case Some(db1) => db1
  }

  /** The webhook claims its event first, and never gives the claim back. */
  function Try(db: Db, o: OrderId, intent: IntentId, a: Attempt): Db {
    match a
    case Webhook(e, fails, j1, j2, now) =>
      if e in db.events then db
      else HandlePayment(db.(events := db.events + {e}), o, intent, fails, j1, j2, now)
    case Reconciliation(fails, j1, j2, now) => HandlePayment(db, o, intent, fails, j1, j2, now)
  }

  function TryAll(db: Db, o: OrderId, intent: IntentId, attempts: seq<Attempt>): Db
    decreases |attempts|
  {
    if attempts == [] then db else TryAll(Try(db, o, intent, attempts[0]), o, intent, attempts[1..])
  }

  /** This attempt is not a duplicate and does not fail. */
  predicate GoesThrough(events: set<EventId>, a: Attempt) {
    !a.fails && (a.Webhook? ==> a.event !in events)
  }

  function Claimed(events: set<EventId>, a: Attempt): set<EventId> {
    if a.Webhook? then events + {a.event} else events
  }

  /** The first attempt that goes through, if any does. */
  function FirstThrough(events: set<EventId>, attempts: seq<Attempt>): (r: Option<nat>)
    ensures r.Some? ==> r.value < |attempts| && !attempts[r.value].fails
    decreases |attempts|
  {
    if attempts == [] then None
    else if GoesThrough(events, attempts[0]) then Some(0)
    else
      match FirstThrough(Claimed(events, attempts[0]), attempts[1..])
      case None => None
      case Some(k) => Some(k + 1)
  }

  /** How many attempts committed the payment transaction. */
  function Commits(db: Db, o: OrderId, intent: IntentId, attempts: seq<Attempt>): nat
    decreases |attempts|
  {
    if attempts == [] then 0
    else
      var next := Try(db, o, intent, attempts[0]);
      (if next.orders != db.orders then 1 else 0) + Commits(next, o, intent, attempts[1..])
  }

  predicate Payable(db: Db, o: OrderId, intent: IntentId) {
    o in db.orders && db.orders[o].status == PENDING_PAYMENT && IntentFree(db.orders, o, intent)
  }

  /** Once the order has left PENDING_PAYMENT no attempt does anything to it. */
  lemma {:induction false} SettledStays(db: Db, o: OrderId, intent: IntentId, attempts: seq<Attempt>)
    requires o in db.orders && db.orders[o].status != PENDING_PAYMENT
    ensures TryAll(db, o, intent, attempts).orders == db.orders
    ensures TryAll(db, o, intent, attempts).jobs == db.jobs
    ensures Commits(db, o, intent, attempts) == 0
    decreases |attempts|
  {
    if attempts != [] {
      SettledStays(Try(db, o, intent, attempts[0]), o, intent, attempts[1..]);
    }
  }

  /**
   * Any sequence of deliveries and reconciliations of one paid session leaves
   * the orders and the queue as they were, if none went through, or exactly as
   * the first one that did would have left them alone.
   */
  lemma {:induction false} TakesEffectOnce(db: Db, o: OrderId, intent: IntentId, attempts: seq<Attempt>)
    requires Payable(db, o, intent)
    ensures var end := TryAll(db, o, intent, attempts);
            match FirstThrough(db.events, attempts)
            case None => end.orders == db.orders && end.jobs == db.jobs && Commits(db, o, intent, attempts) == 0
            case Some(k) =>
              var a := attempts[k];
              var alone := CommitPayment(db, o, intent, db.orders[o].lines, a.j1, a.j2, a.now);
              alone.Some? && end.orders == alone.value.orders && end.jobs == alone.value.jobs
              && Commits(db, o, intent, attempts) == 1
    decreases |attempts|
  {
    hide Enqueue;
    if attempts != [] {
      var a := attempts[0];
      var next := Try(db, o, intent, a);
      if GoesThrough(db.events, a) {
        assert next.orders[o].status == PAID;
        SettledStays(next, o, intent, attempts[1..]);
      } else {
        assert next.orders == db.orders && next.jobs == db.jobs;
        assert next.events == Claimed(db.events, a);
        TakesEffectOnce(next, o, intent, attempts[1..]);
      }
    }
  }

  /** A job of order o as a payment leaves it: not begun, due at once, five attempts to spend. */
  predicate JustQueued(jobs: map<JobId, Job>, j: JobId, kind: JobKind, o: OrderId, now: Time) {
    j in jobs && jobs[j] == Job(kind, o, Some(o), PENDING, 0, 5, now, None)
  }

  /**
   * The order is paid, now, with this intent, and keeps everything else; the mail that
   * confirms it and the delivery its lines ask for are queued unless they were already,
   * and no other row of any table moves.
   */
  ghost predicate Charged(db: Db, end: Db, o: OrderId, intent: IntentId, j1: JobId, j2: JobId, now: Time)
    requires o in db.orders
  {
    var row := db.orders[o];
    var digital := row.lines != [] && forall i :: 0 <= i < |row.lines| ==> row.lines[i].kind == DIGITAL;
    var kind := if digital then DELIVER_DIGITAL else FULFILL_ORDER;
    && end == db.(jobs := end.jobs, orders := db.orders[o := Order(
         PAID, Some(intent), Some(now), row.submittedAt, row.createdAt, row.customerEmail, row.lines)])
    && KeyTaken(end.jobs, SEND_ORDER_CONFIRMATION, o) && KeyTaken(end.jobs, kind, o)
    && (!KeyTaken(db.jobs, SEND_ORDER_CONFIRMATION, o) ==> JustQueued(end.jobs, j1, SEND_ORDER_CONFIRMATION, o, now))
    && (!KeyTaken(db.jobs, kind, o) ==> JustQueued(end.jobs, j2, kind, o, now))
    && (forall j :: j in db.jobs ==> j in end.jobs && end.jobs[j] == db.jobs[j])
    && (forall j :: j in end.jobs && j !in db.jobs ==> (j == j1 || j == j2) && end.jobs[j].ref == o)
  }

  /** What one payment leaves behind, whichever road it came by. */
  lemma EffectOfOne(db: Db, o: OrderId, intent: IntentId, j1: JobId, j2: JobId, now: Time)
    requires Payable(db, o, intent)
    requires j1 !in db.jobs && j2 !in db.jobs && j1 != j2
    ensures var end := CommitPayment(db, o, intent, db.orders[o].lines, j1, j2, now);
            end.Some? && Charged(db, end.value, o, intent, j1, j2, now)
  {
    hide KeyTaken, Enqueue, IntentFree;
    BothQueued(db.jobs, j1, j2, o, DeliveryKind(db.orders[o].lines), now);
  }

  /** Some other order holds this PaymentIntent. */
  predicate HeldElsewhere(orders: map<OrderId, Order>, o: OrderId, intent: IntentId) {
    exists x :: x in orders && x != o && orders[x].paymentIntent == Some(intent)
  }

  /** The order is waiting for its payment and this one can be written. */
  predicate Chargeable(orders: map<OrderId, Order>, o: OrderId, intent: IntentId, fails: bool) {
    o in orders && orders[o].status == PENDING_PAYMENT && !fails && !HeldElsewhere(orders, o, intent)
  }

  /** The handler charges a pending order whose intent nobody else holds, or does nothing at all. */
  lemma HandlesExactly(db: Db, o: OrderId, intent: IntentId, fails: bool, j1: JobId, j2: JobId, now: Time)
    requires j1 !in db.jobs && j2 !in db.jobs && j1 != j2
    ensures var end := HandlePayment(db, o, intent, fails, j1, j2, now);
            if Chargeable(db.orders, o, intent, fails)
            then Charged(db, end, o, intent, j1, j2, now)
            else end == db
  {
    hide CommitPayment, Charged;
    if Payable(db, o, intent) {
      EffectOfOne(db, o, intent, j1, j2, now);
    } else if o in db.orders && db.orders[o].status == PENDING_PAYMENT {
      Refused(db, o, intent, j1, j2, now);
    }
  }

  lemma Refused(db: Db, o: OrderId, intent: IntentId, j1: JobId, j2: JobId, now: Time)
    requires o in db.orders && HeldElsewhere(db.orders, o, intent)
    ensures CommitPayment(db, o, intent, db.orders[o].lines, j1, j2, now).None?
  {
    hide Enqueue;
  }

  /** The two jobs of a payment: each is there afterwards, new where its key was free. */
  lemma BothQueued(jobs: map<JobId, Job>, j1: JobId, j2: JobId, o: OrderId, kind: JobKind, now: Time)
    requires j1 !in jobs && j2 !in jobs && j1 != j2 && kind != SEND_ORDER_CONFIRMATION
    ensures var jobs1 := Enqueue(jobs, j1, SEND_ORDER_CONFIRMATION, o, Some(o), now);
            var end := Enqueue(jobs1, j2, kind, o, Some(o), now);
            && KeyTaken(end, SEND_ORDER_CONFIRMATION, o) && KeyTaken(end, kind, o)
            && (!KeyTaken(jobs, SEND_ORDER_CONFIRMATION, o) ==>
                  JustQueued(end, j1, SEND_ORDER_CONFIRMATION, o, now))
            && (!KeyTaken(jobs, kind, o) ==> JustQueued(end, j2, kind, o, now))
            && (forall j :: j in jobs ==> j in end && end[j] == jobs[j])
            && (forall j :: j in end && j !in jobs ==> (j == j1 || j == j2) && end[j].ref == o)
  {
    var jobs1 := Enqueue(jobs, j1, SEND_ORDER_CONFIRMATION, o, Some(o), now);
    if !KeyTaken(jobs, kind, o) {
      OtherKeyStays(jobs, j1, o, kind, now);
    }
    hide KeyTaken, Enqueue;
    EnqueuedOnce(jobs, j1, SEND_ORDER_CONFIRMATION, o, now);
    EnqueuedOnce(jobs1, j2, kind, o, now);
    KeyStays(jobs1, Enqueue(jobs1, j2, kind, o, Some(o), now), SEND_ORDER_CONFIRMATION, o);
  }

  lemma EnqueuedOnce(jobs: map<JobId, Job>, id: JobId, kind: JobKind, o: OrderId, now: Time)
    requires id !in jobs
    ensures var after := Enqueue(jobs, id, kind, o, Some(o), now);
            && KeyTaken(after, kind, o)
            && (forall j :: j in jobs ==> j in after && after[j] == jobs[j])
            && (forall j :: j in after && j !in jobs ==> j == id && after[j].ref == o)
            && (!KeyTaken(jobs, kind, o) ==> JustQueued(after, id, kind, o, now))
  {
    var after := Enqueue(jobs, id, kind, o, Some(o), now);
    if !KeyTaken(jobs, kind, o) {
      assert id in after && after[id].kind == kind && after[id].ref == o;
    }
  }

  lemma OtherKeyStays(jobs: map<JobId, Job>, id: JobId, o: OrderId, kind: JobKind, now: Time)
    requires id !in jobs && kind != SEND_ORDER_CONFIRMATION && !KeyTaken(jobs, kind, o)
    ensures !KeyTaken(Enqueue(jobs, id, SEND_ORDER_CONFIRMATION, o, Some(o), now), kind, o)
  {
  }

  lemma KeyStays(before: map<JobId, Job>, after: map<JobId, Job>, kind: JobKind, o: OrderId)
    requires KeyTaken(before, kind, o) && forall j :: j in before ==> j in after && after[j] == before[j]
    ensures KeyTaken(after, kind, o)
  {
    var j :| j in before && before[j].kind == kind && before[j].ref == o;
    assert j in after;
  }

  /** The swallowed failure: a claimed event that failed, repaired by the reconciliation. */
  lemma ReconciliationRepairs(
      db: Db, o: OrderId, intent: IntentId, e: EventId, j1: JobId, j2: JobId, t1: Time, t2: Time)
    requires Payable(db, o, intent) && e !in db.events
    ensures var repaired := TryAll(db, o, intent, [Webhook(e, true, j1, j2, t1), Reconciliation(false, j1, j2, t2)]);
            var direct := Try(db, o, intent, Webhook(e, false, j1, j2, t2));
            repaired == direct
  {
    var attempts := [Webhook(e, true, j1, j2, t1), Reconciliation(false, j1, j2, t2)];
    var failed := Try(db, o, intent, attempts[0]);
    assert attempts[1..] == [attempts[1]];
    assert TryAll(failed, o, intent, [attempts[1]]) == Try(failed, o, intent, attempts[1]) by {
      assert [attempts[1]][1..] == [];
    }
  }
}
