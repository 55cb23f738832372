/** One uninterrupted pass over the queue, and the answers of the outside world while a job is in hand (`Trial`). */
module Passes {
  import opened Prelude
  import opened Store
  import opened Backoff
  import opened PaymentOnce
  import opened GrantProof

  // ---------------------------------------------------------------- one job

  datatype Trial = Trial(mailOk: bool, updateOk: bool, doneOk: bool, grantIds: seq<GrantId>, random: real)

  predicate TrialOk(t: Trial) {
    0.0 <= t.random < 1.0
  }

  datatype Verdict = Done | Failed | Retrying

  /** Can these tokens be issued for these lines? */
  predicate Issuable(grants: map<GrantId, Grant>, lines: seq<Line>, ids: seq<GrantId>) {
    |ids| == |Deliverables(lines)| && NoDup(ids) && forall g :: g in ids ==> g !in grants
  }

  /** execute: the tables it leaves, and whether it returned instead of throwing. */
  function Execute(db: Db, job: Job, t: Trial, now: Time): (Db, bool) {
    if job.kind == SEND_CONTACT_MESSAGE then (db, t.mailOk)
    else if job.orderId.None? || job.orderId.value !in db.orders then (db, false)
    else
      var o := job.orderId.value;
      var order := db.orders[o];
      match job.kind
      case FULFILL_ORDER =>
        if t.mailOk && t.updateOk then (SetOrder(db, o, SubmittedRow(order, job.kind, now)), true) else (db, false)
      case DELIVER_DIGITAL =>
        if Deliverables(order.lines) == [] || !Issuable(db.grants, order.lines, t.grantIds) then (db, false)
        else
          var db1 := db.(grants := EmitLinks(db.grants, o, order.lines, t.grantIds, now));
          if t.mailOk && t.updateOk then (SetOrder(db1, o, SubmittedRow(order, job.kind, now)), true) else (db1, false)
      case _ => (db, t.mailOk)
  }

  /** recordFailure: one more attempt, and the order escalated when it was the last. */
  function RecordFailure(db: Db, j: JobId, t: Trial, now: Time): (Db, Verdict)
    requires j in db.jobs && TrialOk(t)
  {
    var job := db.jobs[j];
    var row := FailedOnce(job, job.attempts, job.maxAttempts, now + BackoffMs(job.attempts + 1, t.random));
    var db1 := db.(jobs := db.jobs[j := row]);
    if row.status != FAILED then (db1, Retrying)
    else if row.orderId.Some? && row.orderId.value in db.orders
    then (SetOrder(db1, row.orderId.value, db.orders[row.orderId.value].(status := NEEDS_REVIEW)), Failed)
    else (db1, Failed)
  }

  function Process(db: Db, j: JobId, t: Trial, now: Time): (Db, Verdict)
    requires j in db.jobs && TrialOk(t)
  {
    var (db1, ok) := Execute(db, db.jobs[j], t, now);
    if ok && t.doneOk then (db1.(jobs := db1.jobs[j := Completed(db1.jobs[j], now)]), Done)
    else RecordFailure(db1, j, t, now)
  }

  // ---------------------------------------------------------------- a batch

  datatype Summary = Summary(taken: nat, done: nat, failed: nat, retrying: nat)

  function Count(s: Summary, v: Verdict): Summary {
    match v
    case Done => s.(done := s.done + 1)
    case Failed => s.(failed := s.failed + 1)
    case Retrying => s.(retrying := s.retrying + 1)
  }

  predicate AllIn(jobs: map<JobId, Job>, ids: seq<JobId>) {
    forall j :: j in ids ==> j in jobs
  }

  /** The first n jobs of a batch, in order. */
  function ProcessAll(db: Db, ids: seq<JobId>, trials: seq<Trial>, now: Time, taken: nat): (r: (Db, Summary))
    requires AllIn(db.jobs, ids) && |trials| == |ids| && forall t :: t in trials ==> TrialOk(t)
    ensures r.0.jobs.Keys == db.jobs.Keys
  {
    if ids == [] then (db, Summary(taken, 0, 0, 0))
    else
      var n := |ids| - 1;
      var (db1, s) := ProcessAll(db, ids[..n], trials[..n], now, taken);
      assert ids[n] in ids && trials[n] in trials;
      ProcessSettles(db1, ids[n], trials[n], now);
      var (db2, v) := Process(db1, ids[n], trials[n], now);
      (db2, Count(s, v))
  }

  /** A settled job: no longer PROCESSING, one attempt older, otherwise the same job. */
  predicate Settles(before: Job, after: Job) {
    && after.kind == before.kind && after.ref == before.ref && after.orderId == before.orderId
    && after.maxAttempts == before.maxAttempts
    && after.attempts == before.attempts + 1
    && (after.status == DONE || after.status == PENDING || after.status == FAILED)
    && (after.status == FAILED ==> after.attempts >= after.maxAttempts)
    && (after.status == PENDING ==> after.attempts < after.maxAttempts)
  }

  /** Some line of the order is a download with its file. */
  predicate HasFile(lines: seq<Line>) {
    exists i :: 0 <= i < |lines| && lines[i].kind == DIGITAL && lines[i].asset.Some? && lines[i].asset.value != ""
  }

  /** The links of this job's order can be issued with these tokens, and there is one at least. */
  predicate CanLink(db: Db, job: Job, ids: seq<GrantId>) {
    && job.orderId.Some? && job.orderId.value in db.orders
    && HasFile(db.orders[job.orderId.value].lines) && Issuable(db.grants, db.orders[job.orderId.value].lines, ids)
  }

  /**
   * When a job is carried out: its mail went out; anything but a contact message has its
   * order; a delivery was written down; a download has links to send.
   */
  predicate Succeeds(db: Db, job: Job, t: Trial) {
    && t.mailOk
    && (job.kind != SEND_CONTACT_MESSAGE ==> job.orderId.Some? && job.orderId.value in db.orders)
    && (job.kind == FULFILL_ORDER || job.kind == DELIVER_DIGITAL ==> t.updateOk)
    && (job.kind == DELIVER_DIGITAL ==> CanLink(db, job, t.grantIds))
  }

  /** The row of a delivered order: its status and the date, and nothing else of it. */
  function Delivered(row: Order, kind: JobKind, now: Time): Order {
    Order(if kind == DELIVER_DIGITAL then DELIVERED else IN_PRODUCTION, row.paymentIntent, row.paidAt, Some(now),
          row.createdAt, row.customerEmail, row.lines)
  }

  lemma NoFileNoLink(lines: seq<Line>)
    ensures Deliverables(lines) == [] <==> !HasFile(lines)
  {
    DeliverablesExact(lines, 0);
    if HasFile(lines) {
      var i :| 0 <= i < |lines| && lines[i].kind == DIGITAL && lines[i].asset.Some? && lines[i].asset.value != "";
      assert i in Deliverables(lines);
    }
    if Deliverables(lines) != [] {
      assert Deliverables(lines)[0] in Deliverables(lines);
    }
  }

  /** The orders after a job: a delivery that succeeded is written into its own, and nothing else. */
  function OrdersAfter(db: Db, job: Job, t: Trial, now: Time): map<OrderId, Order> {
    if (job.kind == FULFILL_ORDER || job.kind == DELIVER_DIGITAL) && Succeeds(db, job, t)
    then db.orders[job.orderId.value := Delivered(db.orders[job.orderId.value], job.kind, now)]
    else db.orders
  }

  /**
   * What a job leaves. The links of a download are issued even when its mail or the
   * writing fails afterwards.
   */
  ghost predicate Carried(db: Db, end: Db, job: Job, t: Trial, now: Time) {
    && end == db.(orders := OrdersAfter(db, job, t, now), grants := end.grants)
    && (if job.kind == DELIVER_DIGITAL && CanLink(db, job, t.grantIds)
        then Emitted(db.grants, end.grants, job.orderId.value, db.orders[job.orderId.value].lines, t.grantIds, now)
        else end.grants == db.grants)
  }

  /** execute returns exactly when the job succeeds, and leaves what that job leaves. */
  lemma ExecuteExactly(db: Db, job: Job, t: Trial, now: Time)
    ensures Execute(db, job, t, now).1 <==> Succeeds(db, job, t)
    ensures Carried(db, Execute(db, job, t, now).0, job, t, now)
  {
    hide EmitLinks, Issuable, Deliverables, Emitted, HasFile;
    if job.orderId.Some? && job.orderId.value in db.orders {
      var lines := db.orders[job.orderId.value].lines;
      NoFileNoLink(lines);
      if Issuable(db.grants, lines, t.grantIds) {
        EmittedIssuable(db.grants, job.orderId.value, lines, t.grantIds, now);
      }
    }
  }

  lemma EmittedIssuable(grants: map<GrantId, Grant>, o: OrderId, lines: seq<Line>, ids: seq<GrantId>, now: Time)
    requires Issuable(grants, lines, ids)
    ensures Emitted(grants, EmitLinks(grants, o, lines, ids, now), o, lines, ids, now)
  {
    EmittedExactly(grants, o, lines, ids, now);
  }

  lemma ExecuteKeeps(db: Db, job: Job, t: Trial, now: Time)
    ensures var (db1, ok) := Execute(db, job, t, now);
            && db1.jobs == db.jobs && db1.orders.Keys == db.orders.Keys
            && (ok && IsDelivery(job.kind) ==>
                  job.orderId.Some? && job.orderId.value in db1.orders
                  && db1.orders[job.orderId.value].submittedAt == Some(now)
                  && db1.orders[job.orderId.value].status ==
                     (if job.kind == DELIVER_DIGITAL then DELIVERED else IN_PRODUCTION))
            && (!ok || !IsDelivery(job.kind) ==> db1.orders == db.orders)
            && (job.kind != DELIVER_DIGITAL ==> db1.grants == db.grants)
            && (forall o :: o in db.orders && job.orderId != Some(o) ==> db1.orders[o] == db.orders[o])
  {
    hide EmitLinks, Issuable;
  }

  lemma ProcessSettles(db: Db, j: JobId, t: Trial, now: Time)
    requires j in db.jobs && TrialOk(t)
    ensures var (db1, v) := Process(db, j, t, now);
            && db1.jobs.Keys == db.jobs.Keys
            && (forall k :: k in db.jobs && k != j ==> db1.jobs[k] == db.jobs[k])
            && Settles(db.jobs[j], db1.jobs[j])
            && (v.Done? <==> db1.jobs[j].status == DONE)
            && (v.Failed? <==> db1.jobs[j].status == FAILED)
            && db1.orders.Keys == db.orders.Keys
            && (v.Done? && IsDelivery(db.jobs[j].kind) ==>
                  db.jobs[j].orderId.Some? && db.jobs[j].orderId.value in db1.orders
                  && db1.orders[db.jobs[j].orderId.value].submittedAt == Some(now))
            && (v.Failed? && db.jobs[j].orderId.Some? && db.jobs[j].orderId.value in db.orders ==>
                  db1.orders[db.jobs[j].orderId.value].status == NEEDS_REVIEW)
  {
    hide Execute;
    ExecuteKeeps(db, db.jobs[j], t, now);
  }

  /** The row of a job that was tried: one attempt more, and its verdict. */
  predicate Tried(before: Job, after: Job, v: Verdict, now: Time) {
    && after.kind == before.kind && after.ref == before.ref && after.orderId == before.orderId
    && after.maxAttempts == before.maxAttempts && after.attempts == before.attempts + 1
    && match v
       case Done =>
         after.status == DONE && after.completedAt == Some(now) && after.nextAttemptAt == before.nextAttemptAt
       case Failed => after.status == FAILED && after.completedAt == before.completedAt
       case Retrying => after.status == PENDING && after.completedAt == before.completedAt
  }

  /** The orders after a verdict: the last failure of a job sends its order to review. */
  function OrdersJudged(db: Db, job: Job, t: Trial, v: Verdict, now: Time): map<OrderId, Order> {
    var orders := OrdersAfter(db, job, t, now);
    if v == Failed && job.orderId.Some? && job.orderId.value in orders
    then orders[job.orderId.value := orders[job.orderId.value].(status := NEEDS_REVIEW)]
    else orders
  }

  /**
   * A job is done exactly when it succeeded and that could be written; otherwise the attempt
   * is counted, and the last one allowed sends its order to review. No other job moves.
   */
  lemma ProcessExactly(db: Db, j: JobId, t: Trial, now: Time)
    requires j in db.jobs && TrialOk(t)
    ensures var (end, v) := Process(db, j, t, now);
            var job := db.jobs[j];
            && (v == Done <==> Succeeds(db, job, t) && t.doneOk)
            && (v == Failed <==> v != Done && job.attempts + 1 >= job.maxAttempts)
            && j in end.jobs && end.jobs == db.jobs[j := end.jobs[j]] && Tried(job, end.jobs[j], v, now)
            && Carried(db, end.(jobs := db.jobs, orders := OrdersAfter(db, job, t, now)), job, t, now)
            && end.orders == OrdersJudged(db, job, t, v, now)
  {
    hide Execute, Succeeds, Emitted, CanLink, BackoffMs, Delivered;
    ExecuteExactly(db, db.jobs[j], t, now);
  }

  /**
   * A job that will be tried again waits a quarter of its ceiling and the random part of
   * the rest, to the nearest millisecond.
   */
  lemma RetryIsPaced(db: Db, j: JobId, t: Trial, now: Time)
    requires j in db.jobs && TrialOk(t) && Process(db, j, t, now).1 != Done
    ensures var after := Process(db, j, t, now).0.jobs[j];
            var wait, ceiling := after.nextAttemptAt - now, Ceiling(db.jobs[j].attempts + 1);
            && ceiling <= 4 * wait <= 4 * ceiling
            && -0.5 < wait as real - ceiling as real * (0.25 + t.random * 0.75) <= 0.5
  {
    hide Execute, Ceiling, BackoffMs;
    ExecuteKeeps(db, db.jobs[j], t, now);
  }

  /** The jobs of a batch that ended in this state. */
  function EndedIn(jobs: map<JobId, Job>, ids: seq<JobId>, status: JobStatus): set<JobId> {
    set j | j in ids && j in jobs && jobs[j].status == status
  }

  /** The summary counts each job of the batch by the state it was left in. */
  predicate CountsThem(s: Summary, jobs: map<JobId, Job>, ids: seq<JobId>) {
    && s.done == |EndedIn(jobs, ids, DONE)|
    && s.failed == |EndedIn(jobs, ids, FAILED)|
    && s.retrying == |EndedIn(jobs, ids, PENDING)|
  }

  lemma OneMoreEnded(before: map<JobId, Job>, after: map<JobId, Job>, ids: seq<JobId>, j: JobId, status: JobStatus)
    requires j !in ids && j in after && forall k :: k in ids ==> k in before && k in after && after[k] == before[k]
    ensures |EndedIn(after, ids + [j], status)|
         == |EndedIn(before, ids, status)| + (if after[j].status == status then 1 else 0)
  {
    var earlier, ended := EndedIn(before, ids, status), EndedIn(after, ids + [j], status);
    assert j !in earlier && earlier <= ended <= earlier + {j};
    if after[j].status == status {
      assert ended == earlier + {j};
    } else {
      assert ended == earlier;
    }
  }

  lemma CountsOneMore(before: map<JobId, Job>, after: map<JobId, Job>, ids: seq<JobId>, j: JobId,
                      s: Summary, v: Verdict)
    requires j !in ids && j in after && forall k :: k in ids ==> k in before && k in after && after[k] == before[k]
    requires CountsThem(s, before, ids)
    requires (v.Done? <==> after[j].status == DONE) && (v.Failed? <==> after[j].status == FAILED)
    requires v.Retrying? <==> after[j].status == PENDING
    ensures CountsThem(Count(s, v), after, ids + [j])
  {
    hide EndedIn;
    OneMoreEnded(before, after, ids, j, DONE);
    OneMoreEnded(before, after, ids, j, FAILED);
    OneMoreEnded(before, after, ids, j, PENDING);
  }

  /** A pass settles every job it took, once each, and touches no other job. */
  lemma {:induction false} BatchSettles(db: Db, ids: seq<JobId>, trials: seq<Trial>, now: Time, taken: nat)
    requires AllIn(db.jobs, ids) && |trials| == |ids| && NoDup(ids) && forall t :: t in trials ==> TrialOk(t)
    ensures var (end, s) := ProcessAll(db, ids, trials, now, taken);
            && (forall j :: j in ids ==> Settles(db.jobs[j], end.jobs[j]))
            && (forall j :: j in db.jobs && j !in ids ==> end.jobs[j] == db.jobs[j])
            && s.taken == taken && s.done + s.failed + s.retrying == |ids|
            && end.orders.Keys == db.orders.Keys
  {
    hide Process, Settles;
    if ids != [] {
      var n := |ids| - 1;
      BatchSettles(db, ids[..n], trials[..n], now, taken);
      var (db1, s) := ProcessAll(db, ids[..n], trials[..n], now, taken);
      assert ids[n] in ids && trials[n] in trials;
      assert forall j :: j in ids[..n] ==> j in ids;
      assert ids[n] !in ids[..n];
      ProcessSettles(db1, ids[n], trials[n], now);
      assert ids == ids[..n] + [ids[n]];
    }
  }

  /** Only a job whose mail went out is called done. */
  predicate DoneHonestly(jobs: map<JobId, Job>, ids: seq<JobId>, trials: seq<Trial>)
    requires |trials| == |ids|
  {
    forall k :: 0 <= k < |ids| && ids[k] in jobs && jobs[ids[k]].status == DONE ==> trials[k].mailOk && trials[k].doneOk
  }

  lemma HonestOneMore(before: map<JobId, Job>, after: map<JobId, Job>, ids: seq<JobId>, trials: seq<Trial>,
                      j: JobId, t: Trial)
    requires |trials| == |ids| && DoneHonestly(before, ids, trials)
    requires forall k :: k in ids ==> k in before && k in after && after[k] == before[k]
    requires j in after && after[j].status == DONE ==> t.mailOk && t.doneOk
    ensures DoneHonestly(after, ids + [j], trials + [t])
  {
  }

  /** The summary counts each job where it ended. */
  lemma {:induction false} BatchCounts(db: Db, ids: seq<JobId>, trials: seq<Trial>, now: Time, taken: nat)
    requires AllIn(db.jobs, ids) && |trials| == |ids| && NoDup(ids) && forall t :: t in trials ==> TrialOk(t)
    ensures var (end, s) := ProcessAll(db, ids, trials, now, taken);
            CountsThem(s, end.jobs, ids) && DoneHonestly(end.jobs, ids, trials)
  {
    hide Process, Settles, CountsThem, TrialOk, Count, EndedIn, DoneHonestly;
    if ids == [] {
      NoneEnded(db.jobs, taken);
    } else {
      var n := |ids| - 1;
      BatchCounts(db, ids[..n], trials[..n], now, taken);
      var (db1, s) := ProcessAll(db, ids[..n], trials[..n], now, taken);
      assert ids[n] in ids && trials[n] in trials;
      ProcessSettles(db1, ids[n], trials[n], now);
      OneStatus(db1, ids[n], trials[n], now);
      var (db2, v) := Process(db1, ids[n], trials[n], now);
      assert ids == ids[..n] + [ids[n]] && ids[n] !in ids[..n];
      CountsOneMore(db1.jobs, db2.jobs, ids[..n], ids[n], s, v);
      HonestOneMore(db1.jobs, db2.jobs, ids[..n], trials[..n], ids[n], trials[n]);
      assert trials == trials[..n] + [trials[n]];
    }
  }

  lemma NoneEnded(jobs: map<JobId, Job>, taken: nat)
    ensures CountsThem(Summary(taken, 0, 0, 0), jobs, []) && DoneHonestly(jobs, [], [])
  {
    assert EndedIn(jobs, [], DONE) == {} && EndedIn(jobs, [], FAILED) == {} && EndedIn(jobs, [], PENDING) == {};
  }

  lemma OneStatus(db: Db, j: JobId, t: Trial, now: Time)
    requires j in db.jobs && TrialOk(t)
    ensures var (db1, v) := Process(db, j, t, now);
            && j in db1.jobs && (v.Retrying? <==> db1.jobs[j].status == PENDING)
            && (db1.jobs[j].status == DONE ==> t.mailOk && t.doneOk)
  {
    hide Process;
    ProcessExactly(db, j, t, now);
  }

  /** With nobody else about, a pass claims everything its query found. */
  lemma WholeBatch(jobs: map<JobId, Job>, found: seq<JobId>, now: Time)
    requires IsBatch(jobs, now, found)
    ensures Claimable(jobs, found) == ToSet(found) && |Claimable(jobs, found)| == |found| && AllIn(jobs, found)
  {
    SetOfSeq(found);
    assert forall j :: j in found ==> Due(jobs, j, now);
  }

  /** A pass from its claim to its summary. */
  function Pass(db: Db, found: seq<JobId>, trials: seq<Trial>, now: Time): (Db, Summary)
    requires AllIn(db.jobs, found) && |trials| == |found| && forall t :: t in trials ==> TrialOk(t)
  {
    ProcessAll(db.(jobs := SetProcessing(db.jobs, ToSet(found))), found, trials, now, |found|)
  }

  /** A whole pass leaves none of its jobs PROCESSING and counts each of them once. */
  lemma PassSettles(db: Db, found: seq<JobId>, trials: seq<Trial>, now: Time)
    requires IsBatch(db.jobs, now, found) && AllIn(db.jobs, found)
    requires |trials| == |found| && forall t :: t in trials ==> TrialOk(t)
    ensures var (end, s) := Pass(db, found, trials, now);
            && s.taken == |found| && s.taken == s.done + s.failed + s.retrying && CountsThem(s, end.jobs, found)
            && DoneHonestly(end.jobs, found, trials)
            && end.jobs.Keys == db.jobs.Keys
            && (forall j :: j in found ==> Settles(db.jobs[j], end.jobs[j]))
            && (forall j :: j in db.jobs && j !in found ==> end.jobs[j] == db.jobs[j])
  {
    hide Settles;
    var claimed := db.(jobs := SetProcessing(db.jobs, ToSet(found)));
    BatchSettles(claimed, found, trials, now, |found|);
    BatchCounts(claimed, found, trials, now, |found|);
    forall j | j in found ensures Settles(db.jobs[j], Pass(db, found, trials, now).0.jobs[j]) {
      assert Due(db.jobs, j, now);
      ClaimedSettles(db.jobs[j], Pass(db, found, trials, now).0.jobs[j]);
    }
  }

  lemma ClaimedSettles(before: Job, after: Job)
    requires Settles(before.(status := PROCESSING), after)
    ensures Settles(before, after)
  {
  }
}
