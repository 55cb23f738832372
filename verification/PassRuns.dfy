/**
 * The uninterrupted pass of the service is one of the runs of the protocol: the
 * guarantees proved over all interleavings are guarantees of that code too.
 *
 * The run is built as the code goes: claim, then for each job its beginning, the
 * branch of execute the answers of the outside world select, and its settlement.
 * Each piece leaves the tables of the function that describes it, and the pieces
 * are joined along the batch.
 */
module PassRuns {
  import opened Prelude
  import opened Store
  import opened Protocol
  import opened Invariant
  import opened WorkerSteps
  import opened ShopSteps
  import opened ProtocolTheorems
  import opened Passes
  import Backoff

  lemma RunEmpty(w: World)
    ensures Run(w, []) == w
  {
  }

  /** Every step is one of pass p. */
  predicate Only(steps: seq<Step>, p: Pid) {
    forall i :: 0 <= i < |steps| ==> IsQueueStep(steps[i]) && steps[i].p == p
  }

  /** Tokens nobody has been given yet. */
  ghost predicate NotGiven(w: World, ids: seq<GrantId>) {
    forall g :: g in ids ==> g !in w.handed
  }

  /** The tables moved to `db`, pass p to `next`; the clock stood still. */
  ghost predicate Reaches(w: World, w': World, p: Pid, db: Db, next: Worker, ids: seq<GrantId>) {
    && w'.db == db && w'.now == w.now
    && p in w'.workers && w'.workers[p] == next
    && forall g :: g in w'.handed ==> g in w.handed || g in ids
  }

  /** The lines of the order a job is about. */
  function LinesOf(db: Db, job: Job): seq<Line>
    requires job.orderId.Some? ==> job.orderId.value in db.orders
  {
    if job.orderId.Some? then db.orders[job.orderId.value].lines else []
  }

  // ---------------------------------------------------------------- one job

  lemma BeginStep(w: World, p: Pid, j: JobId, q: seq<JobId>)
    requires Inv(w) && p in w.workers && w.workers[p] == Idle([j] + q)
    ensures var w' := Apply(w, BeginJob(p)); Inv(w') && Reaches(w, w', p, w.db, Running(j, Started, q), [])
  {
    hide Inv, Later;
    BeginKeeps(w, p);
    assert ([j] + q)[1..] == q;
  }

  lemma ApplyLoad(w: World, p: Pid)
    ensures Apply(w, LoadOrder(p)) == DoLoad(w, p)
  {
    hide DoLoad;
  }

  lemma LoadReaches(w: World, p: Pid)
    requires p in w.workers && w.workers[p].Running? && w.workers[p].stage.Started?
    requires w.workers[p].job in w.db.jobs && JobRowOk(w.db.orders, w.db.jobs[w.workers[p].job])
    ensures var Running(j, _, q) := w.workers[p];
            var job := w.db.jobs[j];
            (job.orderId.Some? ==> job.orderId.value in w.db.orders)
            && Reaches(w, DoLoad(w, p), p, w.db,
                    Running(j, Loaded(if job.orderId.Some? then w.db.orders[job.orderId.value].lines else []), q), [])
  {
  }

  lemma LoadStep(w: World, p: Pid)
    requires Inv(w) && p in w.workers && w.workers[p].Running? && w.workers[p].stage.Started?
    ensures var Running(j, _, q) := w.workers[p];
            var w' := Apply(w, LoadOrder(p));
            && j in w.db.jobs && JobRowOk(w.db.orders, w.db.jobs[j]) && Inv(w')
            && var job := w.db.jobs[j];
               Reaches(w, w', p, w.db,
                       Running(j, Loaded(LinesOf(w.db, job)), q), [])
  {
    hide Inv, Later, StageOk, Apply, DoLoad, Reaches, JobRowOk;
    ApplyLoad(w, p);
    LoadKeeps(w, p);
    HandFacts(w, p);
    LoadReaches(w, p);
  }

  /** Beginning a job and reading its order. */
  lemma BeginRuns(w: World, p: Pid, j: JobId, q: seq<JobId>) returns (steps: seq<Step>)
    requires Inv(w) && p in w.workers && w.workers[p] == Idle([j] + q)
    ensures Only(steps, p)
    ensures var w' := Run(w, steps);
            && j in w.db.jobs && JobRowOk(w.db.orders, w.db.jobs[j]) && Inv(w')
            && var job := w.db.jobs[j];
               Reaches(w, w', p, w.db,
                       Running(j, Loaded(LinesOf(w.db, job)), q), [])
  {
    hide Inv, Run, Apply, JobRowOk;
    BeginStep(w, p, j, q);
    LoadStep(Apply(w, BeginJob(p)), p);
    RunEmpty(w);
    Extended(w, [], BeginJob(p));
    Extended(w, [] + [BeginJob(p)], LoadOrder(p));
    steps := [] + [BeginJob(p)] + [LoadOrder(p)];
  }

  /** A job whose order has been read, with the lines the row still has. */
  ghost predicate InHand(w: World, p: Pid) {
    && p in w.workers && w.workers[p].Running? && w.workers[p].stage.Loaded?
    && w.workers[p].job in w.db.jobs
    && var job := w.db.jobs[w.workers[p].job];
       && JobRowOk(w.db.orders, job)
       && (job.orderId.Some? ==> w.workers[p].stage.lines == w.db.orders[job.orderId.value].lines)
  }

  /** What execute leaves of the job pass p has in hand. */
  ghost predicate Executed(w: World, w': World, p: Pid, t: Trial)
    requires InHand(w, p)
  {
    var Running(j, _, q) := w.workers[p];
    var (db1, ok) := Execute(w.db, w.db.jobs[j], t, w.now);
    Inv(w') && Reaches(w, w', p, db1, if ok then Finished(j, q) else Raised(j, q), t.grantIds)
  }

  /** The digital branch of execute. */
  lemma DigitalRuns(w: World, p: Pid, t: Trial) returns (steps: seq<Step>)
    requires Inv(w) && InHand(w, p) && NotGiven(w, t.grantIds)
    requires w.db.jobs[w.workers[p].job].kind == DELIVER_DIGITAL
    ensures Only(steps, p) && Executed(w, Run(w, steps), p, t)
  {
    hide Inv, Run, Later, Apply;
    var lines := w.workers[p].stage.lines;
    RunEmpty(w);
    if Deliverables(lines) == [] || !Issuable(w.db.grants, lines, t.grantIds) {
      ThrowRuns(w, p);
      Extended(w, [], Throw(p));
      steps := [] + [Throw(p)];
    } else {
      var w1 := Apply(w, IssueLinks(p, t.grantIds));
      IssueRuns(w, p, t.grantIds);
      DeliveryRuns(w1, p, t.mailOk, t.updateOk);
      Extended(w, [], IssueLinks(p, t.grantIds));
      steps := [] + [IssueLinks(p, t.grantIds)];
      if t.mailOk && t.updateOk {
        Extended(w, steps, SendMail(p));
        Extended(w, steps + [SendMail(p)], Submit(p));
        steps := steps + [SendMail(p)] + [Submit(p)];
      } else {
        Extended(w, steps, Throw(p));
        steps := steps + [Throw(p)];
      }
    }
  }

  /** The rest of execute, once the order is in hand. */
  lemma BodyRuns(w: World, p: Pid, t: Trial) returns (steps: seq<Step>)
    requires Inv(w) && InHand(w, p) && NotGiven(w, t.grantIds)
    ensures Only(steps, p) && Executed(w, Run(w, steps), p, t)
  {
    hide Inv, Run, Later, Apply;
    var job := w.db.jobs[w.workers[p].job];
    RunEmpty(w);
    if !IsDelivery(job.kind) {
      MailRuns(w, p, t.mailOk);
      Extended(w, [], if t.mailOk then SendMail(p) else Throw(p));
      steps := [] + [if t.mailOk then SendMail(p) else Throw(p)];
    } else if job.kind == FULFILL_ORDER {
      DeliveryRuns(w, p, t.mailOk, t.updateOk);
      Extended(w, [], if t.mailOk && t.updateOk then SendMail(p) else Throw(p));
      steps := [] + [if t.mailOk && t.updateOk then SendMail(p) else Throw(p)];
      if t.mailOk && t.updateOk {
        Extended(w, steps, Submit(p));
        steps := steps + [Submit(p)];
      }
    } else {
      steps := DigitalRuns(w, p, t);
    }
  }

  lemma ThrowRuns(w: World, p: Pid)
    requires Inv(w) && p in w.workers && (w.workers[p].Running? || w.workers[p].Finished?)
    ensures var w' := Apply(w, Throw(p));
            Inv(w') && Reaches(w, w', p, w.db, Raised(w.workers[p].job, w.workers[p].queue), [])
  {
    hide Inv, Later;
    ThrowKeeps(w, p);
  }

  lemma MailRuns(w: World, p: Pid, ok: bool)
    requires Inv(w) && p in w.workers && w.workers[p].Running? && w.workers[p].stage.Loaded?
    requires w.workers[p].job in w.db.jobs && !IsDelivery(w.db.jobs[w.workers[p].job].kind)
    ensures var Running(j, _, q) := w.workers[p];
            var w' := Apply(w, if ok then SendMail(p) else Throw(p));
            Inv(w') && Reaches(w, w', p, w.db, if ok then Finished(j, q) else Raised(j, q), [])
  {
    hide Inv, Later;
    ThrowKeeps(w, p);
    SendMailKeeps(w, p);
  }

  /** A delivery in hand, ready for its mail. */
  ghost predicate ReadyToMail(w: World, p: Pid) {
    && p in w.workers && w.workers[p].Running? && w.workers[p].job in w.db.jobs
    && var job := w.db.jobs[w.workers[p].job];
       && job.orderId.Some? && job.orderId.value in w.db.orders
       && ((job.kind == FULFILL_ORDER && w.workers[p].stage.Loaded?)
           || (job.kind == DELIVER_DIGITAL && w.workers[p].stage.Linked?))
  }

  lemma ApplyMail(w: World, p: Pid)
    ensures Apply(w, SendMail(p)) == DoSendMail(w, p)
  {
    hide DoSendMail;
  }

  lemma MailReaches(w: World, p: Pid)
    requires ReadyToMail(w, p)
    ensures var Running(j, _, q) := w.workers[p]; Reaches(w, DoSendMail(w, p), p, w.db, Running(j, Mailed, q), [])
  {
  }

  lemma MailStep(w: World, p: Pid)
    requires Inv(w) && ReadyToMail(w, p)
    ensures var Running(j, _, q) := w.workers[p];
            Inv(Apply(w, SendMail(p))) && Reaches(w, Apply(w, SendMail(p)), p, w.db, Running(j, Mailed, q), [])
  {
    hide Inv, Later, JobRowOk, Apply, DoSendMail, Reaches;
    ApplyMail(w, p);
    MailReaches(w, p);
    SendMailKeeps(w, p);
  }

  lemma SubmitStep(w: World, p: Pid)
    requires Inv(w) && p in w.workers && w.workers[p].Running? && w.workers[p].stage.Mailed?
    requires w.workers[p].job in w.db.jobs && IsDelivery(w.db.jobs[w.workers[p].job].kind)
    requires w.db.jobs[w.workers[p].job].orderId.Some? && w.db.jobs[w.workers[p].job].orderId.value in w.db.orders
    ensures var Running(j, _, q) := w.workers[p];
            var o := w.db.jobs[j].orderId.value;
            var w' := Apply(w, Submit(p));
            Inv(w') && Reaches(w, w', p, SetOrder(w.db, o, SubmittedRow(w.db.orders[o], w.db.jobs[j].kind, w.now)),
                               Finished(j, q), [])
  {
    hide Inv, Later;
    SubmitKeeps(w, p);
  }

  /** Mail, then the order: either both happen or the step throws before touching the order. */
  lemma DeliveryRuns(w: World, p: Pid, mailOk: bool, updateOk: bool)
    requires Inv(w) && ReadyToMail(w, p)
    ensures var Running(j, _, q) := w.workers[p];
            var job := w.db.jobs[j];
            var o := job.orderId.value;
            if mailOk && updateOk then
              var w' := Apply(Apply(w, SendMail(p)), Submit(p));
              Inv(w') && Reaches(w, w', p, SetOrder(w.db, o, SubmittedRow(w.db.orders[o], job.kind, w.now)),
                Finished(j, q), [])
            else Inv(Apply(w, Throw(p))) && Reaches(w, Apply(w, Throw(p)), p, w.db, Raised(j, q), [])
  {
    hide Inv, Apply;
    ThrowRuns(w, p);
    MailStep(w, p);
    SubmitStep(Apply(w, SendMail(p)), p);
  }

  lemma IssueRuns(w: World, p: Pid, ids: seq<GrantId>)
    requires Inv(w) && p in w.workers && w.workers[p].Running? && w.workers[p].stage.Loaded?
    requires w.workers[p].job in w.db.jobs
    requires var job := w.db.jobs[w.workers[p].job]; job.kind == DELIVER_DIGITAL && job.orderId.Some?
    requires var lines := w.workers[p].stage.lines; Deliverables(lines) != [] && Issuable(w.db.grants, lines, ids)
    requires NotGiven(w, ids)
    ensures var Running(j, Loaded(lines), q) := w.workers[p];
            var w' := Apply(w, IssueLinks(p, ids));
            Inv(w')
            && Reaches(w, w', p, w.db.(grants := EmitLinks(w.db.grants, w.db.jobs[j].orderId.value, lines, ids, w.now)),
                       Running(j, Linked(|ids|), q), ids)
  {
    hide Inv, Later, EmitLinks;
    IssueLinksKeeps(w, p, ids);
  }

  /** Settling a job that ran: DONE, or one failure recorded and, at the limit, the order escalated. */
  lemma SettleRuns(w: World, p: Pid, t: Trial) returns (steps: seq<Step>)
    requires Inv(w) && p in w.workers && (w.workers[p].Finished? || w.workers[p].Raised?) && TrialOk(t)
    ensures Only(steps, p)
    ensures var j := w.workers[p].job;
            && j in w.db.jobs
            && var db1 := if w.workers[p].Finished? && t.doneOk
                          then w.db.(jobs := w.db.jobs[j := Completed(w.db.jobs[j], w.now)])
                          else RecordFailure(w.db, j, t, w.now).0;
               Inv(Run(w, steps)) && Reaches(w, Run(w, steps), p, db1, Idle(w.workers[p].queue), [])
  {
    hide Inv, Later, Run, Apply;
    RunEmpty(w);
    HandFacts(w, p);
    if w.workers[p].Finished? && t.doneOk {
      DoneRuns(w, p);
      Extended(w, [], WriteDone(p));
      steps := [] + [WriteDone(p)];
    } else {
      var w1 := w;
      steps := [];
      if w.workers[p].Finished? {
        ThrowRuns(w, p);
        Extended(w, [], Throw(p));
        steps := [] + [Throw(p)];
        w1 := Apply(w, Throw(p));
      }
      var more := FailureRuns(w1, p, t);
      RunSplits(w, steps, more);
      steps := steps + more;
    }
  }

  lemma DoneRuns(w: World, p: Pid)
    requires Inv(w) && p in w.workers && w.workers[p].Finished? && w.workers[p].job in w.db.jobs
    ensures var Finished(j, q) := w.workers[p];
            var w' := Apply(w, WriteDone(p));
            Inv(w') && Reaches(w, w', p, w.db.(jobs := w.db.jobs[j := Completed(w.db.jobs[j], w.now)]), Idle(q), [])
  {
    hide Inv, Later;
    WriteDoneKeeps(w, p);
  }

  lemma ReadStep(w: World, p: Pid)
    requires Inv(w) && p in w.workers && w.workers[p].Raised?
    ensures var Raised(j, q) := w.workers[p];
            var w' := Apply(w, ReadAttempts(p));
            && j in w.db.jobs && Inv(w')
            && Reaches(w, w', p, w.db, Counted(j, w.db.jobs[j].attempts, w.db.jobs[j].maxAttempts, q), [])
  {
    hide Inv, Later;
    ReadAttemptsKeeps(w, p);
    HandFacts(w, p);
  }

  lemma ApplyWrite(w: World, p: Pid, random: real)
    ensures Apply(w, WriteFailure(p, random)) == DoWriteFailure(w, p, random)
  {
    hide DoWriteFailure;
  }

  lemma WriteReaches(w: World, p: Pid, random: real)
    requires p in w.workers && w.workers[p].Counted? && w.workers[p].job in w.db.jobs && 0.0 <= random < 1.0
    ensures var Counted(j, a, max, q) := w.workers[p];
            var row := FailedOnce(w.db.jobs[j], a, max, w.now + Backoff.BackoffMs(a + 1, random));
            Reaches(w, DoWriteFailure(w, p, random), p, w.db.(jobs := w.db.jobs[j := row]),
                    if row.status == FAILED && row.orderId.Some? then Escalating(row.orderId.value, q) else Idle(q), [])
  {
    hide FailedOnce, Backoff.BackoffMs;
  }

  lemma WriteStep(w: World, p: Pid, random: real)
    requires Inv(w) && p in w.workers && w.workers[p].Counted? && 0.0 <= random < 1.0
    ensures var Counted(j, a, max, q) := w.workers[p];
            var w' := Apply(w, WriteFailure(p, random));
            && j in w.db.jobs && a == w.db.jobs[j].attempts && max == w.db.jobs[j].maxAttempts && Inv(w')
            && var row := FailedOnce(w.db.jobs[j], a, max, w.now + Backoff.BackoffMs(a + 1, random));
               Reaches(w, w', p, w.db.(jobs := w.db.jobs[j := row]),
                       if row.status == FAILED && row.orderId.Some? then Escalating(row.orderId.value, q) else Idle(q),
                       [])
  {
    hide Inv, Later, JobRowOk, StageOk, Apply, DoWriteFailure, Reaches, Backoff.BackoffMs, FailedOnce;
    ApplyWrite(w, p, random);
    WriteFailureKeeps(w, p, random);
    HandFacts(w, p);
    WriteReaches(w, p, random);
  }

  lemma EscalateStep(w: World, p: Pid)
    requires Inv(w) && p in w.workers && w.workers[p].Escalating?
    ensures var Escalating(o, q) := w.workers[p];
            var w' := Apply(w, Escalate(p));
            && o in w.db.orders && Inv(w')
            && Reaches(w, w', p, SetOrder(w.db, o, w.db.orders[o].(status := NEEDS_REVIEW)), Idle(q), [])
  {
    hide Inv, Later;
    EscalateKeeps(w, p);
    EscalatingFacts(w, p);
  }

  lemma FailureRuns(w: World, p: Pid, t: Trial) returns (steps: seq<Step>)
    requires Inv(w) && p in w.workers && w.workers[p].Raised? && TrialOk(t)
    ensures Only(steps, p)
    ensures var Raised(j, q) := w.workers[p];
            && j in w.db.jobs
            && Inv(Run(w, steps)) && Reaches(w, Run(w, steps), p, RecordFailure(w.db, j, t, w.now).0, Idle(q), [])
  {
    hide Inv, Run, Apply;
    ReadStep(w, p);
    var w1 := Apply(w, ReadAttempts(p));
    WriteStep(w1, p, t.random);
    var w2 := Apply(w1, WriteFailure(p, t.random));
    RunEmpty(w);
    Extended(w, [], ReadAttempts(p));
    Extended(w, [] + [ReadAttempts(p)], WriteFailure(p, t.random));
    steps := [] + [ReadAttempts(p)] + [WriteFailure(p, t.random)];
    if w2.workers[p].Escalating? {
      EscalateStep(w2, p);
      Extended(w, steps, Escalate(p));
      steps := steps + [Escalate(p)];
    }
  }

  /** One job from the head of the queue to its settlement. */
  lemma ProcessRuns(w: World, p: Pid, j: JobId, q: seq<JobId>, t: Trial) returns (steps: seq<Step>)
    requires Inv(w) && p in w.workers && w.workers[p] == Idle([j] + q) && TrialOk(t) && NotGiven(w, t.grantIds)
    ensures Only(steps, p)
    ensures j in w.db.jobs && Inv(Run(w, steps))
    ensures Reaches(w, Run(w, steps), p, Process(w.db, j, t, w.now).0, Idle(q), t.grantIds)
  {
    hide Inv, Later, Run, RecordFailure;
    var s1 := BeginRuns(w, p, j, q);
    var w1 := Run(w, s1);
    var s2 := BodyRuns(w1, p, t);
    var w2 := Run(w1, s2);
    ExecuteKeeps(w.db, w.db.jobs[j], t, w.now);
    var s3 := SettleRuns(w2, p, t);
    RunSplits(w, s1, s2);
    RunSplits(w, s1 + s2, s3);
    steps := s1 + s2 + s3;
  }

  // ---------------------------------------------------------------- the whole pass

  /** Random tokens: unused, and different for every job of the batch. */
  ghost predicate TokensUnused(w: World, trials: seq<Trial>) {
    && (forall i :: 0 <= i < |trials| ==> NotGiven(w, trials[i].grantIds))
    && (forall i, k, g :: 0 <= i < k < |trials| && g in trials[i].grantIds ==> g !in trials[k].grantIds)
  }

  /** From a claimed batch, the loop of the pass is a run that ends with nothing left to do. */
  lemma {:induction false} BatchRuns(w: World, p: Pid, ids: seq<JobId>, trials: seq<Trial>, n: nat)
      returns (steps: seq<Step>)
    requires Inv(w) && p in w.workers && w.workers[p] == Idle(ids)
    requires n <= |ids| && |trials| == |ids| && TokensUnused(w, trials) && forall t :: t in trials ==> TrialOk(t)
    ensures Only(steps, p)
    ensures AllIn(w.db.jobs, ids) && forall t :: t in trials[..n] ==> TrialOk(t)
    ensures var w' := Run(w, steps);
            && Inv(w') && w'.now == w.now && p in w'.workers && w'.workers[p] == Idle(ids[n..])
            && w'.db == ProcessAll(w.db, ids[..n], trials[..n], w.now, |ids|).0
            && forall g :: g in w'.handed ==> g in w.handed || exists i :: 0 <= i < n && g in trials[i].grantIds
    decreases n
  {
    hide Inv, Run, Apply, Process;
    IdleJobs(w, p);
    if n == 0 {
      steps := [];
      RunEmpty(w);
      assert ids[0..] == ids;
    } else {
      var before := BatchRuns(w, p, ids, trials, n - 1);
      var w1 := Run(w, before);
      assert ids[n-1..] == [ids[n-1]] + ids[n..];
      assert NotGiven(w1, trials[n-1].grantIds) by {
        assert NotGiven(w, trials[n-1].grantIds);
      }
      assert trials[n-1] in trials;
      var more := ProcessRuns(w1, p, ids[n-1], ids[n..], trials[n-1]);
      RunSplits(w, before, more);
      assert ids[..n][..n-1] == ids[..n-1] && trials[..n][..n-1] == trials[..n-1];
      steps := before + more;
    }
  }

  lemma IdleJobs(w: World, p: Pid)
    requires Inv(w) && p in w.workers && w.workers[p].Idle?
    ensures AllIn(w.db.jobs, w.workers[p].queue)
  {
    hide OrderInv, GrantInv, EventsOk, JobsOk, KeysUnique, Covered, CountsOk;
    assert WorkerOk(p, w.workers[p], w.db.orders, w.db.jobs, w.owner, w.executions, w.requeues);
  }

  /**
   * runPending, uninterrupted: some run of the protocol leaves exactly the
   * tables the pass leaves, from any reachable state and any answers of the
   * outside world.
   */
  lemma PassIsARun(w: World, p: Pid, found: seq<JobId>, trials: seq<Trial>) returns (steps: seq<Step>)
    requires Inv(w) && p !in w.workers && IsBatch(w.db.jobs, w.now, found)
    requires |trials| == |found| && TokensUnused(w, trials) && forall t :: t in trials ==> TrialOk(t)
    ensures Only(steps, p)
    ensures AllIn(w.db.jobs, found)
    ensures Inv(Run(w, steps)) && Run(w, steps).db == Pass(w.db, found, trials, w.now).0
  {
    hide Inv, Run, Apply, Process;
    WholeBatch(w.db.jobs, found, w.now);
    ClaimStep(w, p, found);
    var w1 := Apply(Apply(w, ReadBatch(p, found)), ClaimBatch(p));
    RunEmpty(w);
    Extended(w, [], ReadBatch(p, found));
    Extended(w, [] + [ReadBatch(p, found)], ClaimBatch(p));
    var first := [] + [ReadBatch(p, found)] + [ClaimBatch(p)];
    var more := BatchRuns(w1, p, found, trials, |found|);
    assert found[..|found|] == found && trials[..|found|] == trials;
    RunSplits(w, first, more);
    steps := first + more;
  }

  lemma ReadBatchStep(w: World, p: Pid, found: seq<JobId>)
    requires Inv(w) && p !in w.workers && IsBatch(w.db.jobs, w.now, found)
    ensures var w' := Apply(w, ReadBatch(p, found)); Inv(w') && Reaches(w, w', p, w.db, Reading(found), [])
  {
    hide Inv, Later, IsBatch;
    ReadBatchKeeps(w, p, found);
  }

  lemma ClaimAllStep(w: World, p: Pid, found: seq<JobId>)
    requires Inv(w) && p in w.workers && w.workers[p] == Reading(found)
    requires Claimable(w.db.jobs, found) == ToSet(found) && |Claimable(w.db.jobs, found)| == |found|
    ensures var w' := Apply(w, ClaimBatch(p));
            Inv(w') && Reaches(w, w', p, w.db.(jobs := SetProcessing(w.db.jobs, ToSet(found))), Idle(found), [])
  {
    hide Inv, Later, Claimable, SetProcessing, ToSet, ApplyQueue;
    ClaimKeeps(w, p);
    ApplyClaim(w, p);
  }

  lemma ApplyClaim(w: World, p: Pid)
    ensures Apply(w, ClaimBatch(p)) == DoClaim(w, p)
  {
    hide DoClaim;
  }

  lemma ClaimStep(w: World, p: Pid, found: seq<JobId>)
    requires Inv(w) && p !in w.workers && IsBatch(w.db.jobs, w.now, found)
    requires Claimable(w.db.jobs, found) == ToSet(found) && |Claimable(w.db.jobs, found)| == |found|
    ensures var w' := Apply(Apply(w, ReadBatch(p, found)), ClaimBatch(p));
            && Inv(w')
            && Reaches(w, w', p, w.db.(jobs := SetProcessing(w.db.jobs, ToSet(found))), Idle(found), [])
  {
    hide Inv, Apply, IsBatch, Claimable, SetProcessing;
    ReadBatchStep(w, p, found);
    ClaimAllStep(Apply(w, ReadBatch(p, found)), p, found);
  }
}
