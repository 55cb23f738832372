/** The sweep over the pending orders: what Stripe says about each, and what becomes of it. */
module Reconciliation {
  import opened Prelude
  import opened Store
  import opened PaymentOnce

  /** What Stripe says about one pending order. */
  datatype Answer =
    | NoSession
    | Open
    | Paid(intent: IntentId, fails: bool, j1: JobId, j2: JobId)
    | PaidWithoutIntent
    | Expired
    | Unpaid
    | Unreachable

  datatype Resumen = Resumen(
    revisados: nat, recuperados: nat, caducados: nat, sinSesion: nat, enCurso: nat, fallos: nat)

  function Reconcile(db: Db, o: OrderId, a: Answer, now: Time): Db {
    match a
    case NoSession => CancelUnpaid(db, o)
    case Paid(intent, fails, j1, j2) => HandlePayment(db, o, intent, fails, j1, j2, now)
    case Expired => ExpireSession(db, o)
    case _ => db
  }

  /** handlePaymentSucceeded throws when its transaction aborts. */
  predicate PaymentThrows(db: Db, o: OrderId, intent: IntentId, fails: bool) {
    o in db.orders && db.orders[o].status == PENDING_PAYMENT && (fails || HeldElsewhere(db.orders, o, intent))
  }

  function Tally(r: Resumen, db: Db, o: OrderId, a: Answer): Resumen {
    match a
    case NoSession => r.(sinSesion := r.sinSesion + 1)
    case Open => r.(enCurso := r.enCurso + 1)
    case Unpaid => r.(enCurso := r.enCurso + 1)
    case Paid(intent, fails, _, _) =>
      if PaymentThrows(db, o, intent, fails) then r.(fallos := r.fallos + 1) else r.(recuperados := r.recuperados + 1)
    case Expired => r.(caducados := r.caducados + 1)
    case PaidWithoutIntent => r.(fallos := r.fallos + 1)
    case Unreachable => r.(fallos := r.fallos + 1)
  }

  /** The whole pass: the tables and the counters, order by order. */
  function ReconcileAll(db: Db, pending: seq<OrderId>, answers: seq<Answer>, now: Time, revisados: nat): (Db, Resumen)
    requires |pending| == |answers|
  {
    if pending == [] then (db, Resumen(revisados, 0, 0, 0, 0, 0))
    else
      var n := |pending| - 1;
      var (db1, r) := ReconcileAll(db, pending[..n], answers[..n], now, revisados);
      (Reconcile(db1, pending[n], answers[n], now), Tally(r, db1, pending[n], answers[n]))
  }

  // ---------------------------------------------------------------- one order

  /** Order o is cancelled and nothing else moves. */
  predicate Cancelled(db: Db, end: Db, o: OrderId)
    requires o in db.orders
  {
    var row := db.orders[o];
    end == db.(orders := db.orders[o := Order(
      CANCELLED, row.paymentIntent, row.paidAt, row.submittedAt, row.createdAt, row.customerEmail, row.lines)])
  }

  /** The answer closes this order: its session expired, or it never had one and nothing was ever charged. */
  predicate Closes(row: Order, a: Answer) {
    || (a.Expired? && row.status == PENDING_PAYMENT)
    || (a.NoSession? && (row.status == PENDING_PAYMENT || row.status == CANCELLED)
        && row.paymentIntent.None? && row.paidAt.None?)
  }

  /** The answer charges this order at this moment. */
  predicate Charges(orders: map<OrderId, Order>, o: OrderId, a: Answer) {
    a.Paid? && Chargeable(orders, o, a.intent, a.fails)
  }

  /** The ids of the jobs an answer brings for its payment. */
  predicate FreshIds(jobs: map<JobId, Job>, a: Answer) {
    a.Paid? ==> a.j1 !in jobs && a.j2 !in jobs && a.j1 != a.j2
  }

  /** Each answer does what it says: charged, closed, or left as it was. */
  lemma ReconcileExactly(db: Db, o: OrderId, a: Answer, now: Time)
    requires FreshIds(db.jobs, a)
    ensures var end := Reconcile(db, o, a, now);
            if Charges(db.orders, o, a) then Charged(db, end, o, a.intent, a.j1, a.j2, now)
            else if o in db.orders && Closes(db.orders[o], a) then Cancelled(db, end, o)
            else end == db
  {
    if a.Paid? {
      hide Charged, CommitPayment, Chargeable, HandlePayment;
      HandlesExactly(db, o, a.intent, a.fails, a.j1, a.j2, now);
    }
  }

  // ---------------------------------------------------------------- the whole list

  /** The tables when the turn of the k-th order comes. */
  function AtTurn(db: Db, pending: seq<OrderId>, answers: seq<Answer>, now: Time, k: nat): Db
    requires |pending| == |answers| && k <= |pending|
  {
    ReconcileAll(db, pending[..k], answers[..k], now, 0).0
  }

  lemma NextTurn(db: Db, pending: seq<OrderId>, answers: seq<Answer>, now: Time, k: nat)
    requires |pending| == |answers| && k < |pending|
    ensures AtTurn(db, pending, answers, now, k + 1)
         == Reconcile(AtTurn(db, pending, answers, now, k), pending[k], answers[k], now)
  {
    assert pending[..k+1][..k] == pending[..k] && answers[..k+1][..k] == answers[..k];
    hide Reconcile, Tally;
  }

  lemma {:induction false} CounterAside(
      db: Db, pending: seq<OrderId>, answers: seq<Answer>, now: Time, revisados: nat)
    requires |pending| == |answers|
    ensures ReconcileAll(db, pending, answers, now, revisados).0 == ReconcileAll(db, pending, answers, now, 0).0
    decreases |pending|
  {
    hide Reconcile, Tally;
    if pending != [] {
      CounterAside(db, pending[..|pending|-1], answers[..|pending|-1], now, revisados);
    }
  }

  lemma LastTurn(db: Db, pending: seq<OrderId>, answers: seq<Answer>, now: Time, revisados: nat)
    requires |pending| == |answers|
    ensures AtTurn(db, pending, answers, now, |pending|) == ReconcileAll(db, pending, answers, now, revisados).0
  {
    hide ReconcileAll;
    assert pending[..|pending|] == pending && answers[..|pending|] == answers;
    CounterAside(db, pending, answers, now, revisados);
  }

  /** The ids the payments of the first answers bring for their jobs. */
  function IdsOf(answers: seq<Answer>): set<JobId> {
    (set k: nat | k < |answers| && answers[k].Paid? :: answers[k].j1)
    + (set k: nat | k < |answers| && answers[k].Paid? :: answers[k].j2)
  }

  /** Every payment brings ids of its own, which the queue does not know. */
  predicate AllFresh(jobs: map<JobId, Job>, answers: seq<Answer>) {
    && (forall k :: 0 <= k < |answers| ==> FreshIds(jobs, answers[k]))
    && (forall i, k :: 0 <= i < k < |answers| && answers[i].Paid? && answers[k].Paid? ==>
          {answers[i].j1, answers[i].j2} !! {answers[k].j1, answers[k].j2})
  }

  /** What the first k answers have made of the tables. */
  ghost predicate SoFar(db: Db, pending: seq<OrderId>, answers: seq<Answer>, k: nat, mid: Db)
    requires |pending| == |answers| && k <= |pending|
  {
    && mid == db.(orders := mid.orders, jobs := mid.jobs)
    && mid.orders.Keys == db.orders.Keys
    && (forall o :: o in db.orders && o !in pending[..k] ==> mid.orders[o] == db.orders[o])
    && (forall j :: j in db.jobs ==> j in mid.jobs && mid.jobs[j] == db.jobs[j])
    && (forall j :: j in mid.jobs && j !in db.jobs ==> j in IdsOf(answers[..k]) && mid.jobs[j].ref in pending[..k])
  }

  /** What one turn may touch: its own order and its own two jobs. */
  ghost predicate Touches(mid: Db, end: Db, o: OrderId, a: Answer) {
    && end == mid.(orders := end.orders, jobs := end.jobs) && end.orders.Keys == mid.orders.Keys
    && (forall x :: x in mid.orders && x != o ==> end.orders[x] == mid.orders[x])
    && (forall j :: j in mid.jobs ==> j in end.jobs && end.jobs[j] == mid.jobs[j])
    && (forall j :: j in end.jobs && j !in mid.jobs ==> a.Paid? && (j == a.j1 || j == a.j2) && end.jobs[j].ref == o)
  }

  lemma SoFarGrows(db: Db, pending: seq<OrderId>, answers: seq<Answer>, k: nat, mid: Db, end: Db)
    requires |pending| == |answers| && k < |pending|
    requires SoFar(db, pending, answers, k, mid) && Touches(mid, end, pending[k], answers[k])
    ensures SoFar(db, pending, answers, k + 1, end)
  {
    hide IdsOf;
    var a, o := answers[k], pending[k];
    assert pending[..k+1] == pending[..k] + [o] && answers[..k+1] == answers[..k] + [a];
    MoreIds(answers[..k], a);
  }

  lemma OneMoreTurn(db: Db, pending: seq<OrderId>, answers: seq<Answer>, now: Time, k: nat, mid: Db)
    requires |pending| == |answers| && k < |pending| && AllFresh(db.jobs, answers)
    requires SoFar(db, pending, answers, k, mid)
    ensures FreshIds(mid.jobs, answers[k])
    ensures SoFar(db, pending, answers, k + 1, Reconcile(mid, pending[k], answers[k], now))
  {
    hide Reconcile, AllFresh, FreshIds, Charged, Cancelled, Charges, Closes, SoFar, Touches;
    StillFresh(db, pending, answers, k, mid);
    var end := Reconcile(mid, pending[k], answers[k], now);
    ReconcileExactly(mid, pending[k], answers[k], now);
    TurnTouches(mid, end, pending[k], answers[k], now);
    SoFarGrows(db, pending, answers, k, mid, end);
  }

  /** A turn changes no other order, no job that was there, and adds none but its own. */
  lemma TurnTouches(mid: Db, end: Db, o: OrderId, a: Answer, now: Time)
    requires if Charges(mid.orders, o, a) then Charged(mid, end, o, a.intent, a.j1, a.j2, now)
             else if o in mid.orders && Closes(mid.orders[o], a) then Cancelled(mid, end, o) else end == mid
    ensures Touches(mid, end, o, a)
  {
    hide Closes, KeyTaken, JustQueued;
  }

  lemma MoreIds(answers: seq<Answer>, a: Answer)
    ensures IdsOf(answers + [a]) == IdsOf(answers) + (if a.Paid? then {a.j1, a.j2} else {})
  {
    var all := answers + [a];
    assert all[|answers|] == a && forall k :: 0 <= k < |answers| ==> all[k] == answers[k];
    assert forall j :: j in IdsOf(all) ==> j in IdsOf(answers) || (a.Paid? && (j == a.j1 || j == a.j2));
    forall j | j in IdsOf(answers) ensures j in IdsOf(all) {
      var k: nat :| k < |answers| && answers[k].Paid? && (j == answers[k].j1 || j == answers[k].j2);
      assert all[k] == answers[k];
    }
  }

  lemma StillFresh(db: Db, pending: seq<OrderId>, answers: seq<Answer>, k: nat, mid: Db)
    requires |pending| == |answers| && k < |pending| && AllFresh(db.jobs, answers)
    requires SoFar(db, pending, answers, k, mid)
    ensures FreshIds(mid.jobs, answers[k])
  {
    var a := answers[k];
    if a.Paid? {
      forall j | j in {a.j1, a.j2} ensures j !in mid.jobs {
        if j in IdsOf(answers[..k]) {
          var i: nat :| i < k && answers[i].Paid? && (j == answers[i].j1 || j == answers[i].j2);
          assert {answers[i].j1, answers[i].j2} !! {a.j1, a.j2};
        }
      }
    }
  }

  lemma {:induction false} TurnsSoFar(db: Db, pending: seq<OrderId>, answers: seq<Answer>, now: Time, k: nat)
    requires |pending| == |answers| && k <= |pending| && AllFresh(db.jobs, answers)
    ensures SoFar(db, pending, answers, k, AtTurn(db, pending, answers, now, k))
    ensures k < |answers| ==> FreshIds(AtTurn(db, pending, answers, now, k).jobs, answers[k])
  {
    hide SoFar, AllFresh, FreshIds, Reconcile, ReconcileAll;
    if k == 0 {
      StartsThere(db, pending, answers, now);
      NoTurn(db, pending, answers);
    } else {
      TurnsSoFar(db, pending, answers, now, k - 1);
      NextTurn(db, pending, answers, now, k - 1);
      OneMoreTurn(db, pending, answers, now, k - 1, AtTurn(db, pending, answers, now, k - 1));
    }
    if k < |answers| {
      StillFresh(db, pending, answers, k, AtTurn(db, pending, answers, now, k));
    }
  }

  lemma StartsThere(db: Db, pending: seq<OrderId>, answers: seq<Answer>, now: Time)
    requires |pending| == |answers|
    ensures AtTurn(db, pending, answers, now, 0) == db
  {
    assert pending[..0] == [];
  }

  lemma NoTurn(db: Db, pending: seq<OrderId>, answers: seq<Answer>)
    requires |pending| == |answers|
    ensures SoFar(db, pending, answers, 0, db)
  {
    hide IdsOf;
  }

  /** The turn of the k-th order. */
  lemma Turn(db: Db, pending: seq<OrderId>, answers: seq<Answer>, now: Time, k: nat)
    requires |pending| == |answers| && k < |pending| && AllFresh(db.jobs, answers)
    ensures var mid, end := AtTurn(db, pending, answers, now, k), AtTurn(db, pending, answers, now, k + 1);
            var a, o := answers[k], pending[k];
            && Touches(mid, end, o, a)
            && if Charges(mid.orders, o, a) then Charged(mid, end, o, a.intent, a.j1, a.j2, now)
               else if o in mid.orders && Closes(mid.orders[o], a) then Cancelled(mid, end, o) else end == mid
  {
    hide SoFar, AtTurn, AllFresh, FreshIds, Reconcile, Touches, Charged, Cancelled, Closes, Charges;
    TurnsSoFar(db, pending, answers, now, k);
    NextTurn(db, pending, answers, now, k);
    var mid := AtTurn(db, pending, answers, now, k);
    ReconcileExactly(mid, pending[k], answers[k], now);
    TurnTouches(mid, Reconcile(mid, pending[k], answers[k], now), pending[k], answers[k], now);
  }

  /** What a turn made of its order and of the queue stays to the end of the pass. */
  lemma {:induction false} StaysToTheEnd(
      db: Db, pending: seq<OrderId>, answers: seq<Answer>, now: Time, k: nat, n: nat, o: OrderId)
    requires |pending| == |answers| && k <= n <= |pending| && AllFresh(db.jobs, answers)
    requires o !in pending[k..n]
    ensures var mid, end := AtTurn(db, pending, answers, now, k), AtTurn(db, pending, answers, now, n);
            && mid.orders.Keys == end.orders.Keys
            && (o in mid.orders ==> end.orders[o] == mid.orders[o])
            && (forall j :: j in mid.jobs ==> j in end.jobs && end.jobs[j] == mid.jobs[j])
    decreases n - k
  {
    hide AtTurn, AllFresh, Charged, Cancelled, Closes, Charges;
    if k < n {
      assert pending[k..n] == pending[k..n-1] + [pending[n-1]];
      StaysToTheEnd(db, pending, answers, now, k, n - 1, o);
      Turn(db, pending, answers, now, n - 1);
    }
  }

  /** Orders that are not on the list, jobs that were in the queue and every other table stay as they were. */
  lemma NothingElse(db: Db, pending: seq<OrderId>, answers: seq<Answer>, now: Time)
    requires |pending| == |answers| && AllFresh(db.jobs, answers)
    ensures var end := ReconcileAll(db, pending, answers, now, |pending|).0;
            && end == db.(orders := end.orders, jobs := end.jobs) && end.orders.Keys == db.orders.Keys
            && (forall o :: o in db.orders && o !in pending ==> end.orders[o] == db.orders[o])
            && (forall j :: j in db.jobs ==> j in end.jobs && end.jobs[j] == db.jobs[j])
            && (forall j :: j in end.jobs && j !in db.jobs ==> end.jobs[j].ref in pending)
  {
    hide ReconcileAll, AllFresh, AtTurn, IdsOf;
    TurnsSoFar(db, pending, answers, now, |pending|);
    LastTurn(db, pending, answers, now, |pending|);
    assert pending[..|pending|] == pending;
  }

  // ---------------------------------------------------------------- what becomes of each order

  /** A payment written: the row, and both jobs in the queue. */
  ghost predicate Recovered(db: Db, end: Db, o: OrderId, a: Answer, now: Time)
    requires o in db.orders && a.Paid?
  {
    var row := db.orders[o];
    var digital := row.lines != [] && forall i :: 0 <= i < |row.lines| ==> row.lines[i].kind == DIGITAL;
    var kind := if digital then DELIVER_DIGITAL else FULFILL_ORDER;
    && o in end.orders && end.orders[o] == Order(
         PAID, Some(a.intent), Some(now), row.submittedAt, row.createdAt, row.customerEmail, row.lines)
    && KeyTaken(end.jobs, SEND_ORDER_CONFIRMATION, o) && KeyTaken(end.jobs, kind, o)
    && (!KeyTaken(db.jobs, SEND_ORDER_CONFIRMATION, o) ==>
          JustQueued(end.jobs, a.j1, SEND_ORDER_CONFIRMATION, o, now))
    && (!KeyTaken(db.jobs, kind, o) ==> JustQueued(end.jobs, a.j2, kind, o, now))
  }

  /** Nobody else brings this order's jobs before its turn. */
  lemma KeysWait(db: Db, pending: seq<OrderId>, answers: seq<Answer>, k: nat, mid: Db, kind: JobKind)
    requires |pending| == |answers| && k < |pending| && NoDup(pending)
    requires SoFar(db, pending, answers, k, mid) && !KeyTaken(db.jobs, kind, pending[k])
    ensures !KeyTaken(mid.jobs, kind, pending[k])
  {
    hide IdsOf;
    assert pending[k] !in pending[..k];
  }

  lemma KeyKept(before: map<JobId, Job>, after: map<JobId, Job>, kind: JobKind, o: OrderId)
    requires forall j :: j in before ==> j in after && after[j] == before[j]
    ensures KeyTaken(before, kind, o) ==> KeyTaken(after, kind, o)
  {
    if KeyTaken(before, kind, o) {
      KeyStays(before, after, kind, o);
    }
  }

  lemma RecoveredLater(db: Db, mid: Db, next: Db, end: Db, o: OrderId, a: Answer, now: Time)
    requires a.Paid? && o in db.orders && o in mid.orders && mid.orders[o] == db.orders[o]
    requires forall kind :: !KeyTaken(db.jobs, kind, o) ==> !KeyTaken(mid.jobs, kind, o)
    requires Charged(mid, next, o, a.intent, a.j1, a.j2, now)
    requires o in end.orders && end.orders[o] == next.orders[o]
    requires forall j :: j in next.jobs ==> j in end.jobs && end.jobs[j] == next.jobs[j]
    ensures Recovered(db, end, o, a, now)
  {
    hide KeyTaken;
    forall kind ensures KeyTaken(next.jobs, kind, o) ==> KeyTaken(end.jobs, kind, o) {
      KeyKept(next.jobs, end.jobs, kind, o);
    }
  }

  /** The k-th order: recovered, cancelled, or exactly as it was. */
  ghost predicate EndsByItsAnswer(
      db: Db, end: Db, pending: seq<OrderId>, answers: seq<Answer>, now: Time, k: nat)
    requires |pending| == |answers| && k < |pending|
  {
    var mid := AtTurn(db, pending, answers, now, k);
    var a, o := answers[k], pending[k];
    o in db.orders ==>
      && o in mid.orders && mid.orders[o] == db.orders[o]
      && o in end.orders
      && (Charges(mid.orders, o, a) ==> Recovered(db, end, o, a, now))
      && (!Charges(mid.orders, o, a) && Closes(db.orders[o], a) ==>
            end.orders[o] == db.orders[o].(status := CANCELLED))
      && (!Charges(mid.orders, o, a) && !Closes(db.orders[o], a) ==> end.orders[o] == db.orders[o])
  }

  /**
   * Each order of the list ends as its own answer says at its turn: recovered with both jobs
   * queued, cancelled, or exactly as it was.
   */
  lemma EachByItsAnswer(db: Db, pending: seq<OrderId>, answers: seq<Answer>, now: Time, k: nat)
    requires |pending| == |answers| && k < |pending| && NoDup(pending) && AllFresh(db.jobs, answers)
    ensures EndsByItsAnswer(db, ReconcileAll(db, pending, answers, now, |pending|).0, pending, answers, now, k)
  {
    hide AtTurn, AllFresh, ReconcileAll, Recovered, Charged, Closes, Charges, KeyTaken, SoFar, Touches;
    var mid, next := AtTurn(db, pending, answers, now, k), AtTurn(db, pending, answers, now, k + 1);
    var end := ReconcileAll(db, pending, answers, now, |pending|).0;
    var a, o := answers[k], pending[k];
    LastTurn(db, pending, answers, now, |pending|);
    TurnsSoFar(db, pending, answers, now, k);
    Turn(db, pending, answers, now, k);
    StaysToTheEnd(db, pending, answers, now, k + 1, |pending|, o);
    if o in db.orders {
      Untouched(db, pending, answers, k, mid);
      NextKeys(mid, next, o, a);
      if Charges(mid.orders, o, a) {
        forall kind | !KeyTaken(db.jobs, kind, o) ensures !KeyTaken(mid.jobs, kind, o) {
          KeysWait(db, pending, answers, k, mid, kind);
        }
        ChargesPaid(mid.orders, o, a);
        RecoveredLater(db, mid, next, end, o, a, now);
      }
    }
  }

  lemma ChargesPaid(orders: map<OrderId, Order>, o: OrderId, a: Answer)
    requires Charges(orders, o, a)
    ensures a.Paid?
  {
  }

  lemma NextKeys(mid: Db, next: Db, o: OrderId, a: Answer)
    requires Touches(mid, next, o, a)
    ensures next.orders.Keys == mid.orders.Keys
  {
  }

  lemma Untouched(db: Db, pending: seq<OrderId>, answers: seq<Answer>, k: nat, mid: Db)
    requires |pending| == |answers| && k < |pending| && NoDup(pending) && SoFar(db, pending, answers, k, mid)
    ensures pending[k] in db.orders ==> pending[k] in mid.orders && mid.orders[pending[k]] == db.orders[pending[k]]
  {
    hide IdsOf;
    assert pending[k] !in pending[..k];
  }

  /** The answers never speak of one PaymentIntent twice. */
  predicate DistinctIntents(answers: seq<Answer>) {
    forall i, k :: 0 <= i < k < |answers| && answers[i].Paid? && answers[k].Paid? ==>
      answers[i].intent != answers[k].intent
  }

  /** An intent nobody else held is not taken by the payments of others either. */
  lemma {:induction false} IntentWaits(
      db: Db, pending: seq<OrderId>, answers: seq<Answer>, now: Time, k: nat, o: OrderId, intent: IntentId)
    requires |pending| == |answers| && k <= |pending| && AllFresh(db.jobs, answers)
    requires !HeldElsewhere(db.orders, o, intent)
    requires forall i :: 0 <= i < k && answers[i].Paid? ==> answers[i].intent != intent
    ensures !HeldElsewhere(AtTurn(db, pending, answers, now, k).orders, o, intent)
  {
    if k > 0 {
      hide AtTurn, AllFresh, HeldElsewhere, KeyTaken, JustQueued, Touches, Closes;
      IntentWaits(db, pending, answers, now, k - 1, o, intent);
      Turn(db, pending, answers, now, k - 1);
      var mid, next := AtTurn(db, pending, answers, now, k - 1), AtTurn(db, pending, answers, now, k);
      StillUnheld(mid.orders, next.orders, pending[k-1], o, intent);
    } else {
      assert pending[..0] == [] && answers[..0] == [];
    }
  }

  lemma StillUnheld(before: map<OrderId, Order>, after: map<OrderId, Order>, x: OrderId, o: OrderId, intent: IntentId)
    requires !HeldElsewhere(before, o, intent) && after.Keys == before.Keys
    requires forall y :: y in before && y != x ==> after[y] == before[y]
    requires x in before ==> after[x].paymentIntent == before[x].paymentIntent || after[x].paymentIntent != Some(intent)
    ensures !HeldElsewhere(after, o, intent)
  {
  }

  /**
   * Whatever else is on the list, an order that was waiting for a payment Stripe confirms ends
   * the pass paid with it and with both its jobs in the queue.
   */
  lemma PaidIsRecovered(db: Db, pending: seq<OrderId>, answers: seq<Answer>, now: Time, k: nat)
    requires |pending| == |answers| && k < |pending| && NoDup(pending) && AllFresh(db.jobs, answers)
    requires DistinctIntents(answers) && Charges(db.orders, pending[k], answers[k])
    ensures Recovered(db, ReconcileAll(db, pending, answers, now, |pending|).0, pending[k], answers[k], now)
  {
    hide ReconcileAll, AllFresh, Recovered, HeldElsewhere, AtTurn, Closes;
    EachByItsAnswer(db, pending, answers, now, k);
    IntentWaits(db, pending, answers, now, k, pending[k], answers[k].intent);
  }

  // ---------------------------------------------------------------- which orders are looked at

  const LOTE := 50

  /** Still unpaid 35 minutes after it was made: the life of its payment session and five minutes more. */
  predicate Overdue(row: Order, now: Time) {
    row.status == PENDING_PAYMENT && row.createdAt + 2_100_000 < now
  }

  /** What findMany answers: the overdue orders, oldest first, at most fifty. */
  predicate IsSweep(orders: map<OrderId, Order>, now: Time, pending: seq<OrderId>) {
    && NoDup(pending) && |pending| <= LOTE
    && (forall o :: o in pending ==> o in orders && Overdue(orders[o], now))
    && (forall i, k :: 0 <= i < k < |pending| && pending[i] in orders && pending[k] in orders ==>
          orders[pending[i]].createdAt <= orders[pending[k]].createdAt)
    && (forall o :: o in orders && Overdue(orders[o], now) && o !in pending ==>
          |pending| == LOTE
          && forall x :: x in pending && x in orders ==> orders[x].createdAt <= orders[o].createdAt)
  }

  /**
   * A sweep touches no order that is not overdue; when fewer than fifty are and every answer
   * charges or closes its order, none is left.
   */
  lemma SweepSettles(db: Db, pending: seq<OrderId>, answers: seq<Answer>, now: Time)
    requires |pending| == |answers| && IsSweep(db.orders, now, pending) && AllFresh(db.jobs, answers)
    ensures var end := ReconcileAll(db, pending, answers, now, |pending|).0;
            && (forall o :: o in db.orders && !Overdue(db.orders[o], now) ==>
                  o in end.orders && end.orders[o] == db.orders[o])
            && ((|pending| < 50 && forall k :: 0 <= k < |pending| ==>
                  Charges(AtTurn(db, pending, answers, now, k).orders, pending[k], answers[k])
                  || (pending[k] in db.orders && Closes(db.orders[pending[k]], answers[k]))) ==>
                forall o :: o in end.orders ==> !Overdue(end.orders[o], now))
  {
    hide ReconcileAll, AtTurn, AllFresh, Charges, Closes, KeyTaken, JustQueued;
    NothingElse(db, pending, answers, now);
    forall k | 0 <= k < |pending|
      ensures var mid := AtTurn(db, pending, answers, now, k);
              var end := ReconcileAll(db, pending, answers, now, |pending|).0;
              pending[k] in end.orders && pending[k] in db.orders
              && (Charges(mid.orders, pending[k], answers[k]) || Closes(db.orders[pending[k]], answers[k]) ==>
                    end.orders[pending[k]].status != PENDING_PAYMENT)
    {
      assert pending[k] in pending;
      EachByItsAnswer(db, pending, answers, now, k);
    }
  }

  // ---------------------------------------------------------------- the counters

  datatype Counter = SinSesion | EnCurso | Caducado | Recuperado | Fallo

  /** Where an answer belongs. A payment that could not be written is a failure. */
  function CounterOf(orders: map<OrderId, Order>, o: OrderId, a: Answer): Counter {
    var unwritten := a.Paid? && o in orders && orders[o].status == PENDING_PAYMENT
                     && !Chargeable(orders, o, a.intent, a.fails);
    if a.NoSession? then SinSesion
    else if a.Expired? then Caducado
    else if a.Open? || a.Unpaid? then EnCurso
    else if a.Paid? && !unwritten then Recuperado
    else Fallo
  }

  function Reading(r: Resumen, c: Counter): nat {
    match c
    case SinSesion => r.sinSesion
    case EnCurso => r.enCurso
    case Caducado => r.caducados
    case Recuperado => r.recuperados
    case Fallo => r.fallos
  }

  /** The first n orders of the list an answer put in this counter. */
  function CountedIn(db: Db, pending: seq<OrderId>, answers: seq<Answer>, now: Time, n: nat, c: Counter): set<nat>
    requires |pending| == |answers| && n <= |pending|
  {
    set k: nat | k < n && CounterOf(AtTurn(db, pending, answers, now, k).orders, pending[k], answers[k]) == c
  }

  lemma TallyExact(r: Resumen, db: Db, o: OrderId, a: Answer, c: Counter)
    ensures Reading(Tally(r, db, o, a), c) == Reading(r, c) + (if CounterOf(db.orders, o, a) == c then 1 else 0)
  {
    hide HeldElsewhere;
  }

  lemma OneMoreCounted(db: Db, pending: seq<OrderId>, answers: seq<Answer>, now: Time, n: nat, c: Counter)
    requires |pending| == |answers| && n < |pending|
    ensures |CountedIn(db, pending, answers, now, n + 1, c)| == |CountedIn(db, pending, answers, now, n, c)|
         + (if CounterOf(AtTurn(db, pending, answers, now, n).orders, pending[n], answers[n]) == c then 1 else 0)
  {
    hide AtTurn, CounterOf;
    var before, after := CountedIn(db, pending, answers, now, n, c), CountedIn(db, pending, answers, now, n + 1, c);
    assert n !in before;
    assert n in after <==> CounterOf(AtTurn(db, pending, answers, now, n).orders, pending[n], answers[n]) == c;
    assert after - {n} == before;
  }

  lemma {:induction false} CountersUpTo(
      db: Db, pending: seq<OrderId>, answers: seq<Answer>, now: Time, n: nat, revisados: nat, c: Counter)
    requires |pending| == |answers| && n <= |pending|
    ensures var r := ReconcileAll(db, pending[..n], answers[..n], now, revisados).1;
            r.revisados == revisados && Reading(r, c) == |CountedIn(db, pending, answers, now, n, c)|
  {
    if n == 0 {
      assert CountedIn(db, pending, answers, now, 0, c) == {};
    } else {
      hide CountedIn, Tally, Reconcile, CounterOf, Reading;
      CountersUpTo(db, pending, answers, now, n - 1, revisados, c);
      var (db1, r) := ReconcileAll(db, pending[..n-1], answers[..n-1], now, revisados);
      CounterAside(db, pending[..n-1], answers[..n-1], now, revisados);
      assert pending[..n][..n-1] == pending[..n-1] && answers[..n][..n-1] == answers[..n-1];
      TallyExact(r, db1, pending[n-1], answers[n-1], c);
      TallyKeeps(r, db1, pending[n-1], answers[n-1]);
      OneMoreCounted(db, pending, answers, now, n - 1, c);
    }
  }

  lemma TallyKeeps(r: Resumen, db: Db, o: OrderId, a: Answer)
    ensures Tally(r, db, o, a).revisados == r.revisados
  {
    hide PaymentThrows;
  }

  ghost predicate Accounts(r: Resumen, db: Db, pending: seq<OrderId>, answers: seq<Answer>, now: Time)
    requires |pending| == |answers|
  {
    && r.revisados == |pending|
    && r.sinSesion == |CountedIn(db, pending, answers, now, |pending|, SinSesion)|
    && r.enCurso == |CountedIn(db, pending, answers, now, |pending|, EnCurso)|
    && r.caducados == |CountedIn(db, pending, answers, now, |pending|, Caducado)|
    && r.recuperados == |CountedIn(db, pending, answers, now, |pending|, Recuperado)|
    && r.fallos == |CountedIn(db, pending, answers, now, |pending|, Fallo)|
    && r.revisados == r.recuperados + r.caducados + r.sinSesion + r.enCurso + r.fallos
  }

  /** Each counter is the number of orders whose answer belongs in it, and every order is in one. */
  lemma ReconciliationAccounts(db: Db, pending: seq<OrderId>, answers: seq<Answer>, now: Time)
    requires |pending| == |answers|
    ensures Accounts(ReconcileAll(db, pending, answers, now, |pending|).1, db, pending, answers, now)
  {
    hide CountedIn, ReconcileAll;
    assert pending[..|pending|] == pending && answers[..|pending|] == answers;
    forall c ensures var r := ReconcileAll(db, pending, answers, now, |pending|).1;
        r.revisados == |pending| && Reading(r, c) == |CountedIn(db, pending, answers, now, |pending|, c)|
    {
      CountersUpTo(db, pending, answers, now, |pending|, |pending|, c);
    }
    var r := ReconcileAll(db, pending, answers, now, |pending|).1;
    assert Reading(r, SinSesion) == r.sinSesion && Reading(r, EnCurso) == r.enCurso;
    assert Reading(r, Caducado) == r.caducados && Reading(r, Recuperado) == r.recuperados;
    assert Reading(r, Fallo) == r.fallos;
    CountersAdd(db, pending, answers, now, |pending|);
  }

  lemma {:induction false} CountersAdd(db: Db, pending: seq<OrderId>, answers: seq<Answer>, now: Time, revisados: nat)
    requires |pending| == |answers|
    ensures var r := ReconcileAll(db, pending, answers, now, revisados).1;
            |pending| == r.recuperados + r.caducados + r.sinSesion + r.enCurso + r.fallos
    decreases |pending|
  {
    hide Reconcile, PaymentThrows;
    if pending != [] {
      CountersAdd(db, pending[..|pending|-1], answers[..|pending|-1], now, revisados);
    }
  }
}
