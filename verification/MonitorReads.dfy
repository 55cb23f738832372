/**
 * The alerts endpoint with its four counts apart, each read at its own moment of
 * one run: when a healthy answer misses an order, and that it can.
 *
 * Between two counts an order that owes its delivery can only change places: an
 * escalation takes it from the stuck ones to those in review, a retry takes it back.
 * The last part builds, step by step, a run from the empty shop in which that
 * happens.
 */
module MonitorReads {
  import opened Prelude
  import opened Store
  import opened Protocol
  import opened Invariant
  import opened ShopSteps
  import opened WorkerSteps
  import opened ProtocolTheorems
  import opened StatusFrames
  import opened PaymentRaces
  import RefundUndone
  import opened Frames
  import Backoff

  /** How many steps of the run had passed when the request began and when each count was taken. */
  datatype Reads = Reads(start: nat, review: nat, failed: nat, stuck: nat, stalled: nat) {
    predicate Fit(n: nat) {
      && start <= review <= n && start <= failed <= n && start <= stuck <= n && start <= stalled <= n
    }
  }

  function At(steps: seq<Step>, k: nat): World
    requires k <= |steps|
  {
    Run(INIT, steps[..k])
  }

  /** The date limit, computed once when the request begins. */
  function Limit(steps: seq<Step>, start: nat): int
    requires start <= |steps|
  {
    At(steps, start).now - STALE_ORDER_MS
  }

  /** The four counts, each of the tables it found. */
  function Counts(review: Db, failed: Db, stuck: Db, stalled: Db, stale: int): Alerts {
    Alerts(|InReview(review)|, |FailedJobs(failed)|, |StuckPaid(stuck, stale)|, |StalledJobs(stalled, stale)|)
  }

  function Answer(steps: seq<Step>, r: Reads): Alerts
    requires r.Fit(|steps|)
  {
    Counts(At(steps, r.review).db, At(steps, r.failed).db, At(steps, r.stuck).db, At(steps, r.stalled).db,
           Limit(steps, r.start))
  }

  /** Four counts at one moment are the snapshot. */
  lemma AtOneMoment(steps: seq<Step>, k: nat)
    requires k <= |steps|
    ensures Answer(steps, Reads(k, k, k, k, k)) == AlertsAt(At(steps, k).db, At(steps, k).now)
  {
    hide At, InReview, FailedJobs, StuckPaid, StalledJobs;
  }

  lemma HealthyExactly(review: Db, failed: Db, stuck: Db, stalled: Db, stale: int)
    ensures Counts(review, failed, stuck, stalled, stale).Healthy() <==>
              && InReview(review) == {} && FailedJobs(failed) == {}
              && StuckPaid(stuck, stale) == {} && StalledJobs(stalled, stale) == {}
  {
    NoneIsZero(InReview(review));
    NoneIsZero(FailedJobs(failed));
    NoneIsZero(StuckPaid(stuck, stale));
    NoneIsZero(StalledJobs(stalled, stale));
    hide InReview, FailedJobs, StuckPaid, StalledJobs;
  }

  lemma NoneIsZero<T>(s: set<T>)
    ensures |s| == 0 <==> s == {}
  {
  }

  /** A charged order from before the limit that nobody submitted or refunded. */
  predicate Owing(db: Db, stale: int, o: OrderId) {
    && IsPaid(db.orders, o) && db.orders[o].paidAt.value < stale
    && db.orders[o].submittedAt.None? && db.orders[o].status != REFUNDED
  }

  /** A healthy answer, though the order was owing at both counts that could have seen it. */
  predicate Misses(steps: seq<Step>, r: Reads, o: OrderId)
    requires r.Fit(|steps|)
  {
    var stale := Limit(steps, r.start);
    Answer(steps, r).Healthy() && Owing(At(steps, r.review).db, stale, o) && Owing(At(steps, r.stuck).db, stale, o)
  }

  // ---------------------------------------------------------------- moments of one run

  lemma NextMoment(steps: seq<Step>, k: nat)
    requires k < |steps|
    ensures At(steps, k + 1) == Apply(At(steps, k), steps[k])
  {
    hide Apply;
    assert steps[..k+1] == steps[..k] + [steps[k]];
    Extended(INIT, steps[..k], steps[k]);
  }

  lemma MomentOk(steps: seq<Step>, k: nat)
    requires k <= |steps|
    ensures Inv(At(steps, k))
  {
    ReachableOk(steps[..k]);
    hide Inv, Run;
  }

  lemma MomentsLater(steps: seq<Step>, a: nat, b: nat)
    requires a <= b <= |steps|
    ensures Later(At(steps, a), At(steps, b))
  {
    hide Inv, Later, Run;
    assert steps[..b] == steps[..a] + steps[a..b];
    RunSplits(INIT, steps[..a], steps[a..b]);
    ReachableOk(steps[..a]);
    RunKeeps(Run(INIT, steps[..a]), steps[a..b]);
  }

  /** An order charged at one moment is there, charged, at every later one; the clock does not go back. */
  lemma StaysThere(steps: seq<Step>, a: nat, b: nat, o: OrderId)
    requires a <= b <= |steps| && IsPaid(At(steps, a).db.orders, o)
    ensures IsPaid(At(steps, b).db.orders, o) && At(steps, a).now <= At(steps, b).now
  {
    hide At, GrantsLater;
    MomentsLater(steps, a, b);
  }

  // ---------------------------------------------------------------- what one step does to the status

  /** A commit of a payment leaves the row, or charges it afresh. */
  lemma RechargedRow(w: World, s: Step, o: OrderId)
    requires Inv(w) && Recharges(w, s, o) && o in w.db.orders
    ensures var w' := Apply(w, s);
            && o in w'.db.orders
            && (w'.db.orders[o] == w.db.orders[o]
                || (w'.db.orders[o].status == PAID && w'.db.orders[o].paidAt == Some(w.now)))
  {
    ReadLines(w, s.p, o);
    CommitStep(w, s.p, s.j1, s.j2);
    hide Inv, Apply, IntentFree, OnlyMissing;
    if FreshJob(w, s.j1) && FreshJob(w, s.j2) && s.j1 != s.j2 {
      CommitTables(w, s.p, o, s.j1, s.j2);
      hide DoPaymentCommit;
    }
  }

  lemma MovedBack(w: World, s: Step, o: OrderId)
    requires MovesBack(w, s, o) && o in w.db.orders
    ensures Apply(w, s).db == SetOrder(w.db, o, w.db.orders[o].(status := PAID))
  {
    hide Drop;
  }

  lemma Escalated(w: World, s: Step, o: OrderId)
    requires Escalates(w, s, o) && o in w.db.orders
    ensures Apply(w, s).db == SetOrder(w.db, o, w.db.orders[o].(status := NEEDS_REVIEW))
  {
  }

  /** Only an escalation brings a charged order to NEEDS_REVIEW. */
  lemma ToReview(w: World, s: Step, o: OrderId)
    requires Inv(w) && IsPaid(w.db.orders, o) && o in Apply(w, s).db.orders
    requires Apply(w, s).db.orders[o].status == NEEDS_REVIEW && !Escalates(w, s, o)
    ensures w.db.orders[o].status == NEEDS_REVIEW
  {
    OrdersUsed(w);
    hide Inv, Apply, MovesBack, Recharges, Escalates;
    if MovesBack(w, s, o) {
      MovedBack(w, s, o);
    } else if Recharges(w, s, o) {
      RechargedRow(w, s, o);
    } else {
      StepUnmoved(w, s, o);
    }
  }

  /** Only a retry brings an order charged before the limit back to PAID. */
  lemma ToPaid(w: World, s: Step, o: OrderId, stale: int)
    requires Inv(w) && IsPaid(w.db.orders, o) && IsPaid(Apply(w, s).db.orders, o) && stale <= w.now
    requires Apply(w, s).db.orders[o].status == PAID && Apply(w, s).db.orders[o].paidAt.value < stale
    requires !MovesBack(w, s, o)
    ensures w.db.orders[o].status == PAID && w.db.orders[o].paidAt.value < stale
  {
    OrdersUsed(w);
    hide Inv, Apply, MovesBack, Recharges, Escalates;
    if Escalates(w, s, o) {
      Escalated(w, s, o);
    } else if Recharges(w, s, o) {
      RechargedRow(w, s, o);
    } else {
      StepUnmoved(w, s, o);
      StepSteady(w, s, o);
      hide NoNewRead;
    }
  }

  predicate EscalatedAt(steps: seq<Step>, k: nat, o: OrderId) {
    k < |steps| && Escalates(At(steps, k), steps[k], o)
  }

  predicate MovedBackAt(steps: seq<Step>, k: nat, o: OrderId) {
    k < |steps| && MovesBack(At(steps, k), steps[k], o)
  }

  lemma {:induction false} LastEscalation(steps: seq<Step>, a: nat, b: nat, o: OrderId)
    requires a <= b <= |steps| && IsPaid(At(steps, a).db.orders, o)
    requires o in At(steps, b).db.orders && At(steps, b).db.orders[o].status == NEEDS_REVIEW
    ensures At(steps, a).db.orders[o].status == NEEDS_REVIEW || exists k :: a <= k < b && EscalatedAt(steps, k, o)
    decreases b - a
  {
    hide Inv, At, Apply, Escalates;
    if a < b && !EscalatedAt(steps, b - 1, o) {
      NextMoment(steps, b - 1);
      MomentOk(steps, b - 1);
      StaysThere(steps, a, b - 1, o);
      ToReview(At(steps, b - 1), steps[b-1], o);
      LastEscalation(steps, a, b - 1, o);
    }
  }

  lemma {:induction false} LastRetry(steps: seq<Step>, a: nat, b: nat, o: OrderId, stale: int)
    requires a <= b <= |steps| && IsPaid(At(steps, a).db.orders, o) && stale <= At(steps, a).now
    requires IsPaid(At(steps, b).db.orders, o) && At(steps, b).db.orders[o].status == PAID
    requires At(steps, b).db.orders[o].paidAt.value < stale
    ensures At(steps, a).db.orders[o].status == PAID || exists k :: a <= k < b && MovedBackAt(steps, k, o)
    decreases b - a
  {
    hide Inv, At, Apply, MovesBack;
    if a < b && !MovedBackAt(steps, b - 1, o) {
      NextMoment(steps, b - 1);
      MomentOk(steps, b - 1);
      StaysThere(steps, a, b - 1, o);
      ToPaid(At(steps, b - 1), steps[b-1], o, stale);
      LastRetry(steps, a, b - 1, o, stale);
    }
  }

  // ---------------------------------------------------------------- what a healthy answer misses

  /** An owing order is PAID or in NEEDS_REVIEW, and is counted where it is. */
  lemma Counted(w: World, stale: int, o: OrderId)
    requires Inv(w) && Owing(w.db, stale, o)
    ensures o in InReview(w.db) <==> w.db.orders[o].status == NEEDS_REVIEW
    ensures o in StuckPaid(w.db, stale) <==> w.db.orders[o].status == PAID
    ensures w.db.orders[o].status in {PAID, NEEDS_REVIEW}
  {
    RowFacts(w, o);
    hide Inv;
  }

  lemma LimitPast(steps: seq<Step>, start: nat, k: nat)
    requires start <= k <= |steps|
    ensures Limit(steps, start) <= At(steps, k).now
  {
    MomentsLater(steps, start, k);
    hide At, OrdersLater, GrantsLater;
  }

  lemma UncountedStatuses(steps: seq<Step>, r: Reads, o: OrderId)
    requires r.Fit(|steps|) && Misses(steps, r, o)
    requires Inv(At(steps, r.review)) && Inv(At(steps, r.stuck))
    ensures At(steps, r.review).db.orders[o].status == PAID && At(steps, r.stuck).db.orders[o].status == NEEDS_REVIEW
  {
    hide Inv, At, Limit, Counts, InReview, StuckPaid, FailedJobs, StalledJobs;
    var stale := Limit(steps, r.start);
    Counted(At(steps, r.review), stale, o);
    Counted(At(steps, r.stuck), stale, o);
    HealthyExactly(At(steps, r.review).db, At(steps, r.failed).db, At(steps, r.stuck).db, At(steps, r.stalled).db,
                   stale);
  }

  /**
   * A healthy answer misses an order only if the order was escalated after the
   * review count and before the count of stuck orders, or moved back to PAID by
   * a retry after the count of stuck orders and before the review count.
   */
  lemma MissedOnlyBetween(steps: seq<Step>, r: Reads, o: OrderId)
    requires r.Fit(|steps|) && Misses(steps, r, o)
    ensures At(steps, r.review).db.orders[o].status == PAID
    ensures At(steps, r.stuck).db.orders[o].status == NEEDS_REVIEW
    ensures || (exists k :: r.review <= k < r.stuck && EscalatedAt(steps, k, o))
            || (exists k :: r.stuck <= k < r.review && MovedBackAt(steps, k, o))
  {
    hide Inv, At, Answer, EscalatedAt, MovedBackAt;
    var stale := Limit(steps, r.start);
    MomentOk(steps, r.review);
    MomentOk(steps, r.stuck);
    LimitPast(steps, r.start, r.stuck);
    UncountedStatuses(steps, r, o);
    hide Limit;
    if r.review <= r.stuck {
      LastEscalation(steps, r.review, r.stuck, o);
    } else {
      LastRetry(steps, r.stuck, r.review, o, stale);
    }
  }

  // ---------------------------------------------------------------- the one step that makes it

  lemma StillOwing(db: Db, stale: int, o: OrderId, status: OrderStatus)
    requires Owing(db, stale, o) && status != REFUNDED
    ensures var db' := SetOrder(db, o, db.orders[o].(status := status));
            Owing(db', stale, o) && db'.orders[o].status == status
  {
  }

  /** An order about to be counted as stuck leaves that count, still owing, exactly by its escalation. */
  lemma LeavesStuck(w: World, s: Step, o: OrderId, stale: int)
    requires Inv(w) && Owing(w.db, stale, o) && w.db.orders[o].status == PAID
    ensures var db' := Apply(w, s).db;
            Owing(db', stale, o) && o !in StuckPaid(db', stale) <==> Escalates(w, s, o)
  {
    StepKeeps(w, s);
    hide Inv, Apply, Later, InReview, StuckPaid, Escalates, SetOrder;
    var w' := Apply(w, s);
    if Escalates(w, s, o) {
      Escalated(w, s, o);
      StillOwing(w.db, stale, o, NEEDS_REVIEW);
      Counted(w', stale, o);
    } else if Owing(w'.db, stale, o) {
      Counted(w', stale, o);
      if w'.db.orders[o].status == NEEDS_REVIEW {
        ToReview(w, s, o);
      }
    }
  }

  /** An order about to be counted in review leaves that count, still owing, exactly by a retry. */
  lemma LeavesReview(w: World, s: Step, o: OrderId, stale: int)
    requires Inv(w) && Owing(w.db, stale, o) && w.db.orders[o].status == NEEDS_REVIEW && stale <= w.now
    ensures var db' := Apply(w, s).db;
            Owing(db', stale, o) && o !in InReview(db') <==> MovesBack(w, s, o)
  {
    StepKeeps(w, s);
    hide Inv, Apply, Later, InReview, StuckPaid, MovesBack, SetOrder;
    var w' := Apply(w, s);
    if MovesBack(w, s, o) {
      MovedBack(w, s, o);
      StillOwing(w.db, stale, o, PAID);
      Counted(w', stale, o);
    } else if Owing(w'.db, stale, o) {
      Counted(w', stale, o);
      if w'.db.orders[o].status == PAID {
        ToPaid(w, s, o, stale);
      }
    }
  }

  // ---------------------------------------------------------------- the last count of an answer

  lemma SameMoments(steps: seq<Step>, s: Step, k: nat)
    requires k <= |steps|
    ensures At(steps + [s], k) == At(steps, k)
    ensures At(steps + [s], |steps| + 1) == Apply(At(steps, |steps|), s)
  {
    SameMoment(steps, s, |steps|);
    SameMoment(steps, s, k);
    hide At, Apply;
    NextMoment(steps + [s], |steps|);
  }

  lemma SameMoment(steps: seq<Step>, s: Step, k: nat)
    requires k <= |steps|
    ensures At(steps + [s], k) == At(steps, k)
  {
    assert (steps + [s])[..k] == steps[..k];
    hide Run;
  }

  /** The other three counts came out zero, and the order was owing when it was not in review. */
  ghost predicate OnlyStuckLeft(steps: seq<Step>, r: Reads, o: OrderId) {
    && r.start <= r.review <= |steps| && r.start <= r.failed <= |steps| && r.start <= r.stalled <= |steps|
    && r.stuck == |steps| + 1
    && InReview(At(steps, r.review).db) == {} && FailedJobs(At(steps, r.failed).db) == {}
    && StalledJobs(At(steps, r.stalled).db, Limit(steps, r.start)) == {}
    && Owing(At(steps, r.review).db, Limit(steps, r.start), o)
    && StuckPaid(At(steps, |steps|).db, Limit(steps, r.start)) == {o}
  }

  lemma OthersStay(db: Db, stale: int, o: OrderId)
    requires o in db.orders && StuckPaid(db, stale) == {o}
    ensures Owing(db, stale, o) && db.orders[o].status == PAID
    ensures StuckPaid(SetOrder(db, o, db.orders[o].(status := NEEDS_REVIEW)), stale) == {}
  {
    assert o in StuckPaid(db, stale);
    var db' := SetOrder(db, o, db.orders[o].(status := NEEDS_REVIEW));
    forall x | x in db'.orders ensures x !in StuckPaid(db', stale) {
      assert x != o ==> x !in StuckPaid(db, stale);
    }
  }

  /**
   * With the order the only one still to be counted, as stuck, the next step
   * makes the answer healthy without it exactly if it is its escalation.
   */
  lemma MissedExactly(steps: seq<Step>, r: Reads, s: Step, o: OrderId)
    requires OnlyStuckLeft(steps, r, o)
    ensures Misses(steps + [s], r, o) <==> Escalates(At(steps, |steps|), s, o)
  {
    var w := At(steps, |steps|);
    var stale := Limit(steps, r.start);
    MomentOk(steps, |steps|);
    SameMoments(steps, s, r.start);
    assert Limit(steps + [s], r.start) == stale;
    SameMoments(steps, s, r.review);
    SameMoments(steps, s, r.failed);
    SameMoments(steps, s, r.stalled);
    assert o in w.db.orders by { assert o in StuckPaid(w.db, stale); }
    OthersStay(w.db, stale, o);
    hide Inv, At, Limit, Apply, Counts, InReview, StuckPaid, FailedJobs, StalledJobs, Escalates, Owing, SetOrder;
    LeavesStuck(w, s, o, stale);
    if Escalates(w, s, o) {
      Escalated(w, s, o);
    }
    HealthyExactly(At(steps, r.review).db, At(steps, r.failed).db, Apply(w, s).db, At(steps, r.stalled).db, stale);
  }

  ghost predicate OnlyReviewLeft(steps: seq<Step>, r: Reads, o: OrderId) {
    && r.start <= r.stuck <= |steps| && r.start <= r.failed <= |steps| && r.start <= r.stalled <= |steps|
    && r.review == |steps| + 1
    && StuckPaid(At(steps, r.stuck).db, Limit(steps, r.start)) == {} && FailedJobs(At(steps, r.failed).db) == {}
    && StalledJobs(At(steps, r.stalled).db, Limit(steps, r.start)) == {}
    && Owing(At(steps, r.stuck).db, Limit(steps, r.start), o)
    && InReview(At(steps, |steps|).db) == {o} && Owing(At(steps, |steps|).db, Limit(steps, r.start), o)
  }

  lemma OthersInReviewStay(db: Db, o: OrderId)
    requires o in db.orders && InReview(db) == {o}
    ensures db.orders[o].status == NEEDS_REVIEW
    ensures InReview(SetOrder(db, o, db.orders[o].(status := PAID))) == {}
  {
    assert o in InReview(db);
    var db' := SetOrder(db, o, db.orders[o].(status := PAID));
    forall x | x in db'.orders ensures x !in InReview(db') {
      assert x != o ==> x !in InReview(db);
    }
  }

  /** The same the other way round: still to be counted in review, it is missed exactly by a retry. */
  lemma MissedByRetryExactly(steps: seq<Step>, r: Reads, s: Step, o: OrderId)
    requires OnlyReviewLeft(steps, r, o)
    ensures Misses(steps + [s], r, o) <==> MovesBack(At(steps, |steps|), s, o)
  {
    var w := At(steps, |steps|);
    var stale := Limit(steps, r.start);
    MomentOk(steps, |steps|);
    LimitPast(steps, r.start, |steps|);
    SameMoments(steps, s, r.start);
    assert Limit(steps + [s], r.start) == stale;
    SameMoments(steps, s, r.stuck);
    SameMoments(steps, s, r.failed);
    SameMoments(steps, s, r.stalled);
    assert o in w.db.orders by { assert o in InReview(w.db); }
    OthersInReviewStay(w.db, o);
    hide Inv, At, Limit, Apply, Counts, InReview, StuckPaid, FailedJobs, StalledJobs, MovesBack, Owing, SetOrder;
    LeavesReview(w, s, o, stale);
    if MovesBack(w, s, o) {
      MovedBack(w, s, o);
    }
    HealthyExactly(Apply(w, s).db, At(steps, r.failed).db, At(steps, r.stuck).db, At(steps, r.stalled).db, stale);
  }

  // ---------------------------------------------------------------- the last failure of a job

  /** The pass has counted the last failure of a job of this order and is about to write it. */
  predicate LastFailure(w: World, p: Pid, o: OrderId) {
    && p in w.workers && w.workers[p].Counted? && w.workers[p].attempts + 1 >= w.workers[p].maxAttempts
    && w.workers[p].job in w.db.jobs && w.db.jobs[w.workers[p].job].orderId == Some(o)
  }

  /** Nothing to report but this order, charged too long ago. */
  ghost predicate OnlyStuck(db: Db, stale: int, o: OrderId) {
    && InReview(db) == {} && FailedJobs(db) == {} && StalledJobs(db, stale) == {} && StuckPaid(db, stale) == {o}
  }

  lemma WritesLast(w: World, p: Pid, o: OrderId)
    requires LastFailure(w, p, o)
    ensures var w' := Apply(w, WriteFailure(p, 0.0));
            w'.db.orders == w.db.orders && Escalates(w', Escalate(p), o)
  {
    FailureApplies(w, p);
    RefundUndone.WroteFailure(w, p);
    hide Apply, DoWriteFailure, Backoff.BackoffMs;
  }

  lemma FailureApplies(w: World, p: Pid)
    ensures Apply(w, WriteFailure(p, 0.0)) == DoWriteFailure(w, p, 0.0)
  {
    hide DoWriteFailure;
  }

  lemma SameStuck(db: Db, db': Db, stale: int, o: OrderId)
    requires db'.orders == db.orders
    ensures StuckPaid(db', stale) == StuckPaid(db, stale) && (Owing(db', stale, o) <==> Owing(db, stale, o))
  {
  }

  function LastSteps(p: Pid): seq<Step> {
    [] + [WriteFailure(p, 0.0)] + [Escalate(p)]
  }

  function LastReads(n: nat): Reads {
    Reads(n, n, n, n + 2, n)
  }

  /** The moments of a run and its end. */
  lemma WholeRun(steps: seq<Step>)
    ensures At(steps, |steps|) == Run(INIT, steps)
  {
    assert steps[..|steps|] == steps;
    hide Run;
  }

  lemma FailureWritten(steps: seq<Step>, p: Pid, o: OrderId)
    requires var w := Run(INIT, steps); LastFailure(w, p, o) && OnlyStuck(w.db, w.now - STALE_ORDER_MS, o)
    ensures var n := |steps|;
            var one := steps + [WriteFailure(p, 0.0)];
            && OnlyStuckLeft(one, LastReads(n), o) && Escalates(At(one, n + 1), Escalate(p), o)
            && Owing(At(one, n).db, Limit(one, n), o) && Owing(At(one, n + 1).db, Limit(one, n), o)
  {
    hide At, Run, Apply, InReview, FailedJobs, StalledJobs, StuckPaid, Owing, LastFailure, Escalates, Counts;
    var n := |steps|;
    var w := At(steps, n);
    var stale := w.now - STALE_ORDER_MS;
    WholeRun(steps);
    WritesLast(w, p, o);
    SameMoments(steps, WriteFailure(p, 0.0), n);
    StuckOwes(w.db, stale, o);
    SameStuck(w.db, Apply(w, WriteFailure(p, 0.0)).db, stale, o);
  }

  lemma StuckOwes(db: Db, stale: int, o: OrderId)
    requires StuckPaid(db, stale) == {o}
    ensures o in db.orders && Owing(db, stale, o)
  {
    assert o in StuckPaid(db, stale);
    OthersStay(db, stale, o);
  }

  /**
   * From any reachable state with nothing to report but a stuck order, whose job
   * is about to fail for the last time: three counts now and the count of stuck
   * orders two steps later are a healthy answer, and the order is owing all along.
   */
  lemma LastFailureIsMissed(steps: seq<Step>, p: Pid, o: OrderId)
    requires var w := Run(INIT, steps); LastFailure(w, p, o) && OnlyStuck(w.db, w.now - STALE_ORDER_MS, o)
    ensures var all := steps + LastSteps(p);
            var r := LastReads(|steps|);
            && r.Fit(|all|) && Misses(all, r, o)
            && forall k :: |steps| <= k <= |all| ==> Owing(At(all, k).db, Limit(all, |steps|), o)
  {
    hide OnlyStuck, LastFailure, Run, At, Counts, Owing, OnlyStuckLeft, Escalates, Apply;
    var n := |steps|;
    var one := steps + [WriteFailure(p, 0.0)];
    FailureWritten(steps, p, o);
    MissedExactly(one, LastReads(n), Escalate(p), o);
    SameMoments(one, Escalate(p), n);
    SameMoments(one, Escalate(p), n + 1);
    assert steps + LastSteps(p) == one + [Escalate(p)];
  }

  // ---------------------------------------------------------------- a run with a healthy answer that misses an order

  /** One order in all, charged and not submitted. */
  predicate OneCharged(db: Db, o: OrderId) {
    && db.orders.Keys == {o} && db.orders[o].status == PAID && db.orders[o].paidAt.Some?
    && db.orders[o].submittedAt.None?
  }

  /** The one order and one of its jobs in the queue; any other job is lost in a dead pass. */
  predicate Lone(db: Db, o: OrderId, j: JobId, a: nat) {
    && OneCharged(db, o)
    && RefundUndone.Tried(db.jobs, j, o, a) && db.jobs[j].status == PENDING && db.jobs[j].maxAttempts == MAX_ATTEMPTS
    && forall i :: i in db.jobs && i != j ==> db.jobs[i].status == PROCESSING
  }

  /** The same with the job in the hands of a pass. */
  predicate InHands(db: Db, o: OrderId, j: JobId, a: nat) {
    && OneCharged(db, o)
    && RefundUndone.Tried(db.jobs, j, o, a) && db.jobs[j].maxAttempts == MAX_ATTEMPTS
    && forall i :: i in db.jobs ==> db.jobs[i].status == PROCESSING
  }

  lemma OnlyBatch(w: World, p: Pid, ids: seq<JobId>, o: OrderId, j: JobId, a: nat)
    requires RefundUndone.HasBatch(w, p, ids, j) && Lone(w.db, o, j, a)
    ensures ids == [j]
  {
    SetOfSeq(ids);
    assert ToSet(ids) <= {j};
    SubsetSize(ToSet(ids), {j});
  }

  lemma InQueue(db: Db, o: OrderId, j: JobId, a: nat)
    requires Lone(db, o, j, a)
    ensures j in db.jobs && db.jobs[j].status == PENDING
  {
  }

  lemma BatchAt(w: World, p: Pid, ids: seq<JobId>, j: JobId)
    requires RefundUndone.HasBatch(w, p, ids, j)
    ensures p in w.workers && w.workers[p] == Reading(ids)
  {
  }

  /** A pass takes the job. */
  lemma Takes(w: World, o: OrderId, j: JobId, a: nat) returns (p: Pid, more: seq<Step>)
    requires Inv(w) && Lone(w.db, o, j, a)
    ensures var w' := Run(w, more);
            && Inv(w') && p in w'.workers && w'.workers[p] == Idle([j])
            && w'.db == w.db.(jobs := SetProcessing(w.db.jobs, {j}))
  {
    hide Inv, Later, Run, Apply, DoClaim, Lone, SetProcessing, RefundUndone.HasBatch;
    InQueue(w.db, o, j, a);
    var ids, first;
    p, ids, first := RefundUndone.BatchRead(w, j);
    var w1 := Run(w, first);
    OnlyBatch(w1, p, ids, o, j, a);
    BatchAt(w1, p, ids, j);
    RefundUndone.Applies(w1, p);
    RefundUndone.ClaimTakes(w1, p, ids, j);
    assert ToSet([j]) == {j};
    StepKeeps(w1, ClaimBatch(p));
    Extended(w, first, ClaimBatch(p));
    more := first + [ClaimBatch(p)];
  }

  lemma Taken(db: Db, o: OrderId, j: JobId, a: nat)
    requires Lone(db, o, j, a)
    ensures InHands(db.(jobs := SetProcessing(db.jobs, {j})), o, j, a)
  {
  }

  lemma Begins(w: World, p: Pid, j: JobId, q: seq<JobId>)
    requires p in w.workers && w.workers[p] == Idle([j] + q)
    ensures var w' := Apply(w, BeginJob(p)); w'.db == w.db && p in w'.workers && w'.workers[p] == Running(j, Started, q)
  {
    RefundUndone.Applies(w, p);
    assert ([j] + q)[1..] == q;
    hide Apply;
  }

  lemma Throws(w: World, p: Pid, j: JobId, q: seq<JobId>)
    requires p in w.workers && w.workers[p] == Running(j, Started, q)
    ensures var w' := Apply(w, Throw(p)); w'.db == w.db && p in w'.workers && w'.workers[p] == Raised(j, q)
  {
    RefundUndone.Applies(w, p);
    hide Apply;
  }

  lemma CountsFailure(w: World, p: Pid, j: JobId, q: seq<JobId>)
    requires p in w.workers && w.workers[p] == Raised(j, q) && j in w.db.jobs
    ensures var w' := Apply(w, ReadAttempts(p));
            && w'.db == w.db && p in w'.workers
            && w'.workers[p] == Worker.Counted(j, w.db.jobs[j].attempts, w.db.jobs[j].maxAttempts, q)
  {
    RefundUndone.Applies(w, p);
    hide Apply;
  }

  /** Whatever the pass tries throws, and it counts the failure. */
  lemma Fails(w: World, p: Pid, j: JobId, q: seq<JobId>) returns (more: seq<Step>)
    requires Inv(w) && p in w.workers && w.workers[p] == Idle([j] + q) && j in w.db.jobs
    ensures var w' := Run(w, more);
            && Inv(w') && w'.db == w.db && p in w'.workers
            && w'.workers[p] == Worker.Counted(j, w.db.jobs[j].attempts, w.db.jobs[j].maxAttempts, q)
  {
    hide Inv, Later, Run, Apply;
    Begins(w, p, j, q);
    var w1 := Apply(w, BeginJob(p));
    StepKeeps(w, BeginJob(p));
    Throws(w1, p, j, q);
    var w2 := Apply(w1, Throw(p));
    StepKeeps(w1, Throw(p));
    CountsFailure(w2, p, j, q);
    StepKeeps(w2, ReadAttempts(p));
    RefundUndone.Two(w, BeginJob(p), Throw(p));
    Extended(w, [BeginJob(p), Throw(p)], ReadAttempts(p));
    more := [BeginJob(p), Throw(p)] + [ReadAttempts(p)];
  }

  /** A failure that is not the last puts the job back in the queue. */
  lemma Requeues(w: World, p: Pid, o: OrderId, j: JobId, a: nat, q: seq<JobId>)
    requires InHands(w.db, o, j, a) && a + 1 < MAX_ATTEMPTS
    requires p in w.workers && w.workers[p] == Worker.Counted(j, a, MAX_ATTEMPTS, q)
    ensures Lone(Apply(w, WriteFailure(p, 0.0)).db, o, j, a + 1)
  {
    FailureApplies(w, p);
    RefundUndone.WroteFailure(w, p);
    hide Apply, DoWriteFailure, Backoff.BackoffMs;
  }

  lemma Threatens(w: World, p: Pid, o: OrderId, j: JobId, a: nat)
    requires InHands(w.db, o, j, a) && p in w.workers && w.workers[p] == Worker.Counted(j, a, MAX_ATTEMPTS, [])
    ensures a + 1 >= MAX_ATTEMPTS ==> LastFailure(w, p, o)
  {
  }

  lemma HandAttempts(db: Db, o: OrderId, j: JobId, a: nat)
    requires InHands(db, o, j, a)
    ensures j in db.jobs && db.jobs[j].attempts == a && db.jobs[j].maxAttempts == MAX_ATTEMPTS
  {
  }

  /** From the queue to a pass that has counted the last failure. */
  lemma {:induction false} ToLastFailure(w: World, o: OrderId, j: JobId, a: nat) returns (p: Pid, more: seq<Step>)
    requires Inv(w) && Lone(w.db, o, j, a) && a < MAX_ATTEMPTS
    ensures var w' := Run(w, more); LastFailure(w', p, o) && InHands(w'.db, o, j, MAX_ATTEMPTS - 1)
    decreases MAX_ATTEMPTS - a
  {
    hide Inv, Later, Run, Apply, Lone, SetProcessing, InHands, LastFailure;
    var first;
    p, first := Takes(w, o, j, a);
    Taken(w.db, o, j, a);
    var w1 := Run(w, first);
    HandAttempts(w1.db, o, j, a);
    assert [j] + [] == [j];
    var fails := Fails(w1, p, j, []);
    more := first + fails;
    RunSplits(w, first, fails);
    Threatens(Run(w, more), p, o, j, a);
    if a + 1 < MAX_ATTEMPTS {
      var w2 := Run(w, more);
      Requeues(w2, p, o, j, a, []);
      StepKeeps(w2, WriteFailure(p, 0.0));
      Extended(w, more, WriteFailure(p, 0.0));
      more := more + [WriteFailure(p, 0.0)];
      var q, rest := ToLastFailure(Run(w, more), o, j, a + 1);
      RunSplits(w, more, rest);
      p, more := q, more + rest;
    }
  }

  /** One charged order and its two jobs, both in the queue since the same moment. */
  predicate JustPaid(w: World, o: OrderId, j: JobId, i: JobId) {
    && OneCharged(w.db, o) && w.db.jobs.Keys == {j, i} && j != i
    && w.db.jobs[j] == NewJob(DeliveryKind(w.db.orders[o].lines), o, Some(o), w.now)
    && w.db.jobs[i] == NewJob(SEND_ORDER_CONFIRMATION, o, Some(o), w.now)
  }

  lemma BothDue(w: World, o: OrderId, j: JobId, i: JobId)
    requires JustPaid(w, o, j, i)
    ensures IsBatch(w.db.jobs, w.now, [j] + [i])
    ensures InHands(w.db.(jobs := SetProcessing(w.db.jobs, ToSet([j] + [i]))), o, j, 0)
  {
    assert w.db.jobs.Keys == {j, i} && j in w.db.jobs.Keys && i in w.db.jobs.Keys;
    forall k | k in w.db.jobs ensures k == j || k == i {
      assert k in w.db.jobs.Keys;
    }
    assert j in [j] + [i] && i in [j] + [i];
  }

  /** A pass takes both jobs, fails the delivery once and dies: the delivery is left alone in the queue. */
  lemma FirstFailure(w: World, o: OrderId, j: JobId, i: JobId) returns (more: seq<Step>)
    requires Inv(w) && JustPaid(w, o, j, i)
    ensures Inv(Run(w, more)) && Lone(Run(w, more).db, o, j, 1)
  {
    hide Inv, Later, Run, Apply, DoClaim, JustPaid, Lone, InHands, IsBatch, SetProcessing;
    BothDue(w, o, j, i);
    var p := Unused(w.workers.Keys);
    assert p !in w.workers.Keys;
    var ids := [j] + [i];
    RefundUndone.ReadApplies(w, p, ids);
    StepKeeps(w, ReadBatch(p, ids));
    var w1 := Apply(w, ReadBatch(p, ids));
    TakesBoth(w1, p, ids);
    StepKeeps(w1, ClaimBatch(p));
    var w2 := Apply(w1, ClaimBatch(p));
    HandAttempts(w2.db, o, j, 0);
    var fails := Fails(w2, p, j, [i]);
    var w3 := Run(w2, fails);
    Requeues(w3, p, o, j, 0, [i]);
    StepKeeps(w3, WriteFailure(p, 0.0));
    RefundUndone.Two(w, ReadBatch(p, ids), ClaimBatch(p));
    more := [ReadBatch(p, ids), ClaimBatch(p)];
    RunSplits(w, more, fails);
    Extended(w, more + fails, WriteFailure(p, 0.0));
    more := more + fails + [WriteFailure(p, 0.0)];
  }

  lemma TakesBoth(w: World, p: Pid, ids: seq<JobId>)
    requires p in w.workers && w.workers[p] == Reading(ids) && exists now :: IsBatch(w.db.jobs, now, ids)
    ensures var w' := Apply(w, ClaimBatch(p));
            && w'.db == w.db.(jobs := SetProcessing(w.db.jobs, ToSet(ids)))
            && p in w'.workers && w'.workers[p] == Idle(ids)
  {
    var now :| IsBatch(w.db.jobs, now, ids);
    SetOfSeq(ids);
    assert Claimable(w.db.jobs, ids) == ToSet(ids) by {
      assert forall j :: j in ids ==> Due(w.db.jobs, j, now);
    }
    RefundUndone.Applies(w, p);
    hide Apply, IsBatch, SetProcessing, Claimable;
  }

  lemma CommitsNow(w: World, p: Pid, j1: JobId, j2: JobId)
    ensures DoPaymentCommit(w, p, j1, j2).now == w.now
  {
    hide CommitPayment, FreshJob, EndRequest, NewJobs;
    SameClock(w);
    if p in w.requests && w.requests[p].PaymentRead? {
      var r := w.requests[p];
      var result := CommitPayment(w.db, r.order, r.intent, r.lines, j1, j2, w.now);
      if result.Some? {
        SameClock(NewJobs(w, result.value.jobs).(db := result.value));
      }
    }
  }

  lemma SameClock(w: World)
    ensures forall p :: EndRequest(w, p).now == w.now
    ensures forall jobs :: NewJobs(w, jobs).now == w.now
  {
    hide Drop;
  }

  /** The tables just after the one payment of the one order. */
  lemma PaidTables(w: World, w': World, i: JobId, j: JobId)
    requires Watch(w, PENDING_PAYMENT, false, true, {}) && w.db.jobs == map[] && w'.now == w.now && i != j
    requires OrderRowOk(w.db.orders[0])
    requires w'.db.orders == w.db.orders[0 := PaidRow(w.db.orders[0], 7, w.now)]
    requires QueuesBoth(w.db.jobs, w'.db.jobs, i, j, 0, DeliveryKind(w.db.orders[0].lines), w.now)
    ensures JustPaid(w', 0, j, i)
  {
  }

  lemma WatchReady(w: World)
    requires Watch(w, PENDING_PAYMENT, false, true, {})
    ensures Ready(w, 1, 0) && !IsPaid(w.db.orders, 0) && w.requests[1].lines == w.db.orders[0].lines
    ensures w.requests[1].intent == 7
  {
  }

  lemma PaidShop() returns (steps: seq<Step>, j: JobId, i: JobId)
    ensures JustPaid(Run(INIT, steps), 0, j, i)
  {
    hide Run, Inv, Apply, DoPaymentCommit, FreshJob, Watch, QueuesBoth, JustPaid, OrderRowOk, OnlyMissing;
    var first := Prepared();
    var w := Run(INIT, first);
    WatchReady(w);
    i, j := FreshJobs(w);
    steps := first + [PaymentCommit(1, i, j)];
    ReachableOk(first);
    RowFacts(w, 0);
    Extended(INIT, first, PaymentCommit(1, i, j));
    CommitStep(w, 1, i, j);
    CommitTables(w, 1, 0, i, j);
    CommitsNow(w, 1, i, j);
    FirstPaymentQueuesBoth(first, 1, 0, i, j);
    PaidTables(w, Run(INIT, steps), i, j);
  }

  lemma OnlyOneStuck(db: Db, stale: int, o: OrderId, j: JobId, a: nat)
    requires InHands(db, o, j, a) && db.orders[o].paidAt.value < stale
    ensures OnlyStuck(db, stale, o)
  {
    assert o in db.orders.Keys;
    forall x | x in db.orders ensures x == o {
      assert x in db.orders.Keys;
    }
  }

  lemma LaterLastFailure(w: World, t: Time, p: Pid, o: OrderId)
    requires LastFailure(w, p, o)
    ensures LastFailure(w.(now := t), p, o)
  {
  }

  lemma HandOrder(db: Db, o: OrderId, j: JobId, a: nat)
    requires InHands(db, o, j, a)
    ensures o in db.orders && db.orders[o].paidAt.Some?
  {
    assert o in db.orders.Keys;
  }

  /** A state of some run with nothing to report but a stuck order, whose job is about to fail for the last time. */
  lemma StuckShop() returns (steps: seq<Step>, p: Pid)
    ensures var w := Run(INIT, steps); LastFailure(w, p, 0) && OnlyStuck(w.db, w.now - STALE_ORDER_MS, 0)
  {
    hide Run, Inv, Apply, JustPaid, Lone, InHands, LastFailure, OnlyStuck;
    var first, j, i := PaidShop();
    ReachableOk(first);
    var second := FirstFailure(Run(INIT, first), 0, j, i);
    var w := Run(Run(INIT, first), second);
    RunSplits(INIT, first, second);
    var third;
    p, third := ToLastFailure(w, 0, j, 1);
    RunSplits(INIT, first + second, third);
    steps := first + second + third;
    var w1 := Run(INIT, steps);
    HandOrder(w1.db, 0, j, MAX_ATTEMPTS - 1);
    var t := w1.now + w1.db.orders[0].paidAt.value + STALE_ORDER_MS + 1;
    LaterLastFailure(w1, t, p, 0);
    TickStep(w1, t);
    Extended(INIT, steps, Tick(t));
    OnlyOneStuck(w1.db, t - STALE_ORDER_MS, 0, j, MAX_ATTEMPTS - 1);
    steps := steps + [Tick(t)];
  }

  /**
   * There is a run in which the endpoint answers that all is well while a
   * charged order is owing from the first read to the last.
   */
  lemma MonitorCanMiss() returns (steps: seq<Step>, r: Reads)
    ensures r.Fit(|steps|) && Misses(steps, r, 0)
    ensures forall k :: r.start <= k <= |steps| ==> Owing(At(steps, k).db, Limit(steps, r.start), 0)
  {
    hide Run, LastFailure, OnlyStuck, Misses, Owing;
    var first, p := StuckShop();
    LastFailureIsMissed(first, p, 0);
    steps, r := first + LastSteps(p), LastReads(|first|);
  }
}
