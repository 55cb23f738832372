/**
 * The services themselves: methods that read and rewrite the tables step by
 * step, each proved to leave exactly the tables its specification describes.
 * Answers of the outside world (mail, Stripe, random tokens, the clock, what a
 * query's ordering picked) come in as parameters.
 */
module Services {
  import opened Prelude
  import opened Store
  import opened Backoff
  import opened Passes
  import opened PaymentOnce
  import opened Reconciliation
  import GrantProof
  import LinkLife
  import ProtocolTheorems

  datatype Link = Link(name: string, token: GrantId)

  /** Order o is refunded and no grant of its lines passes the checks of a download, at any time. */
  ghost predicate Closed(db: Db, o: OrderId) {
    && o in db.orders && db.orders[o].status == REFUNDED
    && forall g, t :: g in db.grants && db.grants[g].item.order == o ==> !Downloadable(db, g, t)
  }

  /** The status of order o, the revocation now of its live grants, and nothing else in any table. */
  ghost predicate OnlyClosed(before: Db, after: Db, o: OrderId, now: Time)
    requires o in before.orders
  {
    var row := before.orders[o];
    && after == before.(orders := after.orders, grants := after.grants)
    && after.orders == before.orders[o := Order(
         REFUNDED, row.paymentIntent, row.paidAt, row.submittedAt, row.createdAt, row.customerEmail, row.lines)]
    && after.grants.Keys == before.grants.Keys
    && (forall g :: g in before.grants ==>
          var hit := before.grants[g].item.order == o && before.grants[g].item.index < |row.lines|
                     && before.grants[g].revokedAt.None?;
          after.grants[g] == if hit then before.grants[g].(revokedAt := Some(now)) else before.grants[g])
  }

  /** In the queue, and its time has come. */
  predicate OnTime(jobs: map<JobId, Job>, j: JobId, now: Time) {
    j in jobs && jobs[j].status == PENDING && jobs[j].nextAttemptAt <= now
  }

  /** Only jobs whose time has come, and all of them unless ten that have waited as long were taken. */
  ghost predicate TakesTheDue(jobs: map<JobId, Job>, found: seq<JobId>, now: Time) {
    && (forall j :: j in found ==> OnTime(jobs, j, now))
    && (forall j :: OnTime(jobs, j, now) && j !in found ==>
          |found| == 10 && forall i :: i in found && i in jobs ==> jobs[i].nextAttemptAt <= jobs[j].nextAttemptAt)
  }

  lemma BatchTakesTheDue(jobs: map<JobId, Job>, found: seq<JobId>, now: Time)
    requires IsBatch(jobs, now, found)
    ensures TakesTheDue(jobs, found, now)
  {
    assert forall j :: OnTime(jobs, j, now) <==> j in jobs && Due(jobs, j, now);
  }

  /** Every job of the list is marked as taken. */
  ghost predicate HoldsAll(jobs: map<JobId, Job>, ids: seq<JobId>) {
    forall j :: j in ids ==> j in jobs && jobs[j].status == PROCESSING
  }

  /** The order's failed jobs. */
  function GaveUp(jobs: map<JobId, Job>, o: OrderId): set<JobId> {
    set j | j in jobs && jobs[j].orderId == Some(o) && jobs[j].status == FAILED
  }

  /** The order's failed jobs wait again, due at once with all their attempts; every other job is as it was. */
  ghost predicate Requeued(before: map<JobId, Job>, after: map<JobId, Job>, o: OrderId, now: Time) {
    && after.Keys == before.Keys
    && forall j :: j in before ==>
         var job := before[j];
         after[j] == if job.orderId == Some(o) && job.status == FAILED
                     then Job(job.kind, job.ref, job.orderId, PENDING, 0, job.maxAttempts, now, job.completedAt)
                     else job
  }

  /** Some line of the order is of this product. */
  predicate Holds(db: Db, o: OrderId, x: ProductId)
    requires o in db.orders
  {
    exists i :: 0 <= i < |db.orders[o].lines| && db.orders[o].lines[i].variantId in db.variants
      && db.variants[db.orders[o].lines[i].variantId] == x
  }

  /** The product and its variants are gone, and so are the orders holding it, with their jobs and their links. */
  ghost predicate Removed(before: Db, after: Db, x: ProductId) {
    && after.products == before.products - {x} && after.events == before.events
    && (forall v :: v in after.variants <==> v in before.variants && before.variants[v] != x)
    && (forall v :: v in after.variants ==> after.variants[v] == before.variants[v])
    && (forall o :: o in after.orders <==> o in before.orders && !Holds(before, o, x))
    && (forall o :: o in after.orders ==> after.orders[o] == before.orders[o])
    && (forall j :: j in after.jobs <==>
          j in before.jobs && !(before.jobs[j].orderId.Some? && before.jobs[j].orderId.value in before.orders
                                && Holds(before, before.jobs[j].orderId.value, x)))
    && (forall j :: j in after.jobs ==> after.jobs[j] == before.jobs[j])
    && (forall g :: g in after.grants <==>
          g in before.grants && !(before.grants[g].item.order in before.orders
                                  && Holds(before, before.grants[g].item.order, x)))
    && (forall g :: g in after.grants ==> after.grants[g] == before.grants[g])
  }

  datatype Refusal = NotFound | Gone | Conflict | Unprocessable

  class Shop {
    var products: set<ProductId>
    var variants: map<VariantId, ProductId>
    var orders: map<OrderId, Order>
    var jobs: map<JobId, Job>
    var grants: map<GrantId, Grant>
    var events: set<EventId>
    var running: bool

    ghost function Tables(): Db
      reads this
    {
      Db(products, variants, orders, jobs, grants, events)
    }

    constructor ()
      ensures Tables() == EMPTY_DB && !running
    {
      products, variants, orders, jobs, grants, events := {}, map[], map[], map[], map[], {};
      running := false;
    }

    // ------------------------------------------------------------ payments

    /** Guards first, then one transaction; an error inside it leaves no trace. */
    method HandlePaymentSucceeded(o: OrderId, intent: IntentId, fails: bool, j1: JobId, j2: JobId, now: Time)
        returns (threw: bool)
      modifies this`orders, this`jobs
      ensures Tables() == HandlePayment(old(Tables()), o, intent, fails, j1, j2, now)
      ensures threw <==> o in old(orders) && old(orders)[o].status == PENDING_PAYMENT
                         && (fails || HeldElsewhere(old(orders), o, intent))
      ensures j1 !in old(jobs) && j2 !in old(jobs) && j1 != j2 ==>
                if Chargeable(old(orders), o, intent, fails)
                then Charged(old(Tables()), Tables(), o, intent, j1, j2, now)
                else Tables() == old(Tables())
    {
      if j1 !in jobs && j2 !in jobs && j1 != j2 {
        HandlesExactly(Tables(), o, intent, fails, j1, j2, now);
      }
      hide Enqueue, KeyTaken, Charged;
      if o !in orders {
        return false;
      }
      var order := orders[o];
      if order.status != PENDING_PAYMENT {
        return false;
      }
      if fails || !IntentFree(orders, o, intent) {
        return true;
      }
      orders := orders[o := PaidRow(order, intent, now)];
      var entrega := if SoloDigital(order.lines) then DELIVER_DIGITAL else FULFILL_ORDER;
      jobs := Enqueue(jobs, j1, SEND_ORDER_CONFIRMATION, o, Some(o), now);
      jobs := Enqueue(jobs, j2, entrega, o, Some(o), now);
      threw := false;
    }

    method HandleSessionExpired(o: OrderId)
      modifies this`orders
      ensures Tables() == ExpireSession(old(Tables()), o)
      ensures if o in old(orders) && old(orders)[o].status == PENDING_PAYMENT
              then Cancelled(old(Tables()), Tables(), o) else Tables() == old(Tables())
    {
      if o in orders && orders[o].status == PENDING_PAYMENT {
        orders := orders[o := orders[o].(status := CANCELLED)];
      }
    }

    /**
     * A full refund marks the order and revokes its live grants in one
     * transaction; a partial one, or a transaction that fails, does nothing.
     */
    method HandleChargeRefunded(o: OrderId, amount: nat, refunded: nat, fails: bool, now: Time) returns (threw: bool)
      modifies this`orders, this`grants
      ensures threw <==> o in old(orders) && refunded >= amount && fails
      ensures if o in old(orders) && refunded >= amount && !fails
              then OnlyClosed(old(Tables()), Tables(), o, now) && Closed(Tables(), o)
                   && Some(Tables()) == CommitRefund(old(Tables()), o, now)
              else Tables() == old(Tables())
    {
      if o !in orders || refunded < amount {
        return false;
      }
      if fails {
        return true;
      }
      ProtocolTheorems.RefundExact(Tables(), o, now);
      var order := orders[o];
      orders := orders[o := order.(status := REFUNDED)];
      grants := RevokeLive(grants, set i | 0 <= i < |order.lines| :: ItemKey(o, i), now);
      threw := false;
    }

    /** The webhook of one refund: claim, act, swallow the failure. */
    method ReceiveRefund(e: EventId, o: OrderId, amount: nat, refunded: nat, fails: bool, now: Time)
      modifies this`orders, this`grants, this`events
      ensures events == old(events) + {e}
      ensures if e !in old(events) && o in old(orders) && refunded >= amount && !fails
              then OnlyClosed(old(Tables()).(events := events), Tables(), o, now) && Closed(Tables(), o)
              else Tables() == old(Tables()).(events := events)
    {
      if e in events {
        return;
      }
      events := events + {e};
      var threw := HandleChargeRefunded(o, amount, refunded, fails, now);
    }

    /** The webhook of one payment event: claim, act, swallow the failure. */
    method ReceivePayment(e: EventId, o: OrderId, intent: IntentId, fails: bool, j1: JobId, j2: JobId, now: Time)
      modifies this`orders, this`jobs, this`events
      ensures Tables() == Try(old(Tables()), o, intent, Webhook(e, fails, j1, j2, now))
      ensures j1 !in old(jobs) && j2 !in old(jobs) && j1 != j2 ==>
                if e !in old(events) && Chargeable(old(orders), o, intent, fails)
                then Charged(old(Tables()).(events := events), Tables(), o, intent, j1, j2, now)
                     && events == old(events) + {e}
                else Tables() == old(Tables()).(events := old(events) + {e})
    {
      hide Charged;
      if e in events {
        assert events + {e} == events;
        return;
      }
      events := events + {e};
      var threw := HandlePaymentSucceeded(o, intent, fails, j1, j2, now);
    }

    // ------------------------------------------------------------ reconciliation

    method Cancelar(o: OrderId)
      modifies this`orders
      ensures Tables() == CancelUnpaid(old(Tables()), o)
      ensures if o in old(orders) && old(orders)[o].status in {PENDING_PAYMENT, CANCELLED}
                 && old(orders)[o].paymentIntent.None? && old(orders)[o].paidAt.None?
              then Cancelled(old(Tables()), Tables(), o) else Tables() == old(Tables())
    {
      if o in orders && NeverCharged(orders[o]) {
        orders := orders[o := orders[o].(status := CANCELLED)];
      }
    }

    /** The sweep over the pending orders `pending`, with Stripe's answer to each. */
    method ReconcileRun(pending: seq<OrderId>, answers: seq<Answer>, now: Time) returns (resumen: Resumen)
      requires |pending| == |answers|
      modifies this`orders, this`jobs
      ensures (Tables(), resumen) == ReconcileAll(old(Tables()), pending, answers, now, |pending|)
      ensures NoDup(pending) && AllFresh(old(jobs), answers) ==>
                forall k :: 0 <= k < |pending| ==>
                  EndsByItsAnswer(old(Tables()), Tables(), pending, answers, now, k)
      ensures Accounts(resumen, old(Tables()), pending, answers, now)
    {
      resumen := Resumen(|pending|, 0, 0, 0, 0, 0);
      var i := 0;
      while i < |pending|
        invariant 0 <= i <= |pending|
        invariant (Tables(), resumen) == ReconcileAll(old(Tables()), pending[..i], answers[..i], now, |pending|)
        invariant variants == old(variants) && products == old(products)
        invariant grants == old(grants) && events == old(events)
      {
        assert pending[..i+1][..i] == pending[..i] && answers[..i+1][..i] == answers[..i];
        var pedido := pending[i];
        match answers[i] {
          case NoSession =>
            Cancelar(pedido);
            resumen := resumen.(sinSesion := resumen.sinSesion + 1);
          case Open =>
            resumen := resumen.(enCurso := resumen.enCurso + 1);
          case Unpaid =>
            resumen := resumen.(enCurso := resumen.enCurso + 1);
          case Paid(intent, fails, j1, j2) =>
            var threw := HandlePaymentSucceeded(pedido, intent, fails, j1, j2, now);
            if threw {
              resumen := resumen.(fallos := resumen.fallos + 1);
            } else {
              resumen := resumen.(recuperados := resumen.recuperados + 1);
            }
          case Expired =>
            HandleSessionExpired(pedido);
            resumen := resumen.(caducados := resumen.caducados + 1);
          case PaidWithoutIntent =>
            resumen := resumen.(fallos := resumen.fallos + 1);
          case Unreachable =>
            resumen := resumen.(fallos := resumen.fallos + 1);
        }
        i := i + 1;
      }
      assert pending[..i] == pending && answers[..i] == answers;
      ReconciliationAccounts(old(Tables()), pending, answers, now);
      if NoDup(pending) && AllFresh(old(jobs), answers) {
        forall k | 0 <= k < |pending| ensures EndsByItsAnswer(old(Tables()), Tables(), pending, answers, now, k) {
          EachByItsAnswer(old(Tables()), pending, answers, now, k);
        }
      }
    }

    // ------------------------------------------------------------ digital delivery

    /** One transaction: revoke what is live on the served lines, then one new grant and one link per line. */
    method EmitirEnlaces(o: OrderId, lines: seq<Line>, tokens: seq<GrantId>, now: Time) returns (enlaces: seq<Link>)
      requires Issuable(grants, lines, tokens)
      modifies this`grants
      ensures grants == if Deliverables(lines) == [] then old(grants) else EmitLinks(old(grants), o, lines, tokens, now)
      ensures GrantProof.Emitted(old(grants), grants, o, lines, tokens, now)
      ensures |enlaces| == |Deliverables(lines)|
      ensures forall k :: 0 <= k < |enlaces| && Deliverables(lines)[k] < |lines| ==>
                enlaces[k] == Link(lines[Deliverables(lines)[k]].productName, tokens[k])
    {
      hide RevokeLive, GrantProof.Emitted, Issuable, Deliverables, NewGrant, AddGrants;
      enlaces := [];
      EmittedIssuable(grants, o, lines, tokens, now);
      TokensAreFresh(grants, lines, tokens);
      var digitales := Deliverables(lines);
      if digitales == [] {
        assert GrantProof.Emitted(grants, grants, o, lines, tokens, now) by {
          NothingIssued(grants, o, lines, tokens, now);
        }
        return;
      }
      ghost var base := RevokeLive(grants, set i | i in digitales :: ItemKey(o, i), now);
      grants := RevokeLive(grants, set i | i in digitales :: ItemKey(o, i), now);
      AddedNone(base, o, digitales, tokens, now);
      var k := 0;
      while k < |digitales|
        invariant 0 <= k <= |digitales|
        invariant grants == AddGrants(base, o, digitales[..k], tokens[..k], now)
        invariant |enlaces| == k
        invariant forall n :: 0 <= n < k && digitales[n] < |lines| ==>
                    enlaces[n] == Link(lines[digitales[n]].productName, tokens[n])
      {
        GrantProof.AddedOne(base, o, digitales, tokens, k, now);
        grants := grants[tokens[k] := NewGrant(ItemKey(o, digitales[k]), now)];
        enlaces := enlaces + [Link(if digitales[k] < |lines| then lines[digitales[k]].productName else "", tokens[k])];
        k := k + 1;
      }
      assert digitales[..k] == digitales && tokens[..k] == tokens;
    }

    /** download: check, count on a condition, hand out. */
    method Download(token: GrantId, now: Time) returns (result: Result<string, Refusal>)
      modifies this`grants
      ensures (Tables(), result.Ok?) == LinkLife.Visit(old(Tables()), token, now)
      ensures result.Ok? <==>
                && token in old(grants) && old(grants)[token].revokedAt.None? && LinkLife.Opens(old(Tables()), token)
                && now <= old(grants)[token].expiresAt
                && old(grants)[token].downloadCount < old(grants)[token].maxDownloads
      ensures result.Ok? ==> grants == old(grants)[token := old(grants)[token].(
                downloadCount := old(grants)[token].downloadCount + 1)]
      ensures !result.Ok? ==> grants == old(grants)
      ensures result.Ok? ==>
                var item := old(grants)[token].item;
                orders[item.order].lines[item.index].asset == Some(result.value)
      ensures result == Err(Gone) <==>
                token in old(grants) && Live(old(grants)[token])
                && (old(grants)[token].expiresAt < now
                    || old(grants)[token].downloadCount >= old(grants)[token].maxDownloads)
    {
      if token !in grants || grants[token].revokedAt.Some? {
        return Err(NotFound);
      }
      var grant := grants[token];
      if grant.expiresAt < now {
        return Err(Gone);
      }
      if grant.downloadCount >= grant.maxDownloads {
        return Err(Gone);
      }
      if grant.item.order !in orders || grant.item.index >= |orders[grant.item.order].lines|
         || !Truthy(orders[grant.item.order].lines[grant.item.index].asset) {
        return Err(NotFound);
      }
      grants := grants[token := grants[token].(downloadCount := grants[token].downloadCount + 1)];
      result := Ok(orders[grant.item.order].lines[grant.item.index].asset.value);
    }

    // ------------------------------------------------------------ the queue

    /** claimBatch: all of what the query found, or nothing to work on. */
    method ClaimBatch(found: seq<JobId>) returns (claimed: seq<JobId>)
      modifies this`jobs
      ensures jobs == SetProcessing(old(jobs), Claimable(old(jobs), found))
      ensures claimed == if |Claimable(old(jobs), found)| == |found| then found else []
      ensures jobs.Keys == old(jobs).Keys
      ensures forall j :: j in jobs ==>
                jobs[j] == if j in found && old(jobs)[j].status == PENDING
                           then old(jobs)[j].(status := PROCESSING) else old(jobs)[j]
      ensures forall now :: IsBatch(old(jobs), now, found) ==> claimed == found && HoldsAll(jobs, found)
    {
      forall now | IsBatch(jobs, now, found)
        ensures Claimable(jobs, found) == ToSet(found) && |Claimable(jobs, found)| == |found| && AllIn(jobs, found)
      {
        WholeBatch(jobs, found, now);
      }
      if found == [] {
        assert Claimable(jobs, found) == {};
        assert SetProcessing(jobs, {}) == jobs;
        return [];
      }
      var hit := Claimable(jobs, found);
      jobs := map j | j in jobs :: if j in hit then jobs[j].(status := PROCESSING) else jobs[j];
      claimed := if |hit| == |found| then found else [];
    }

    /** execute, branch by branch; the answer says whether it threw. */
    method ExecuteJob(job: Job, t: Trial, now: Time) returns (ok: bool)
      modifies this`orders, this`grants
      ensures (Tables(), ok) == Execute(old(Tables()), job, t, now)
      ensures ok <==> Succeeds(old(Tables()), job, t)
      ensures Carried(old(Tables()), Tables(), job, t, now)
    {
      ExecuteExactly(Tables(), job, t, now);
      hide Succeeds, Carried;
      if job.kind == SEND_CONTACT_MESSAGE {
        return t.mailOk;
      }
      if job.orderId.None? || job.orderId.value !in orders {
        return false;
      }
      var o := job.orderId.value;
      var order := orders[o];
      if job.kind == FULFILL_ORDER {
        if !t.mailOk || !t.updateOk {
          return false;
        }
        orders := orders[o := order.(status := IN_PRODUCTION, submittedAt := Some(now))];
        return true;
      }
      if job.kind == DELIVER_DIGITAL {
        if !Issuable(grants, order.lines, t.grantIds) {
          return false;
        }
        var enlaces := EmitirEnlaces(o, order.lines, t.grantIds, now);
        if |enlaces| == 0 || !t.mailOk || !t.updateOk {
          return false;
        }
        orders := orders[o := order.(status := DELIVERED, submittedAt := Some(now))];
        return true;
      }
      ok := t.mailOk;
    }

    method RecordJobFailure(j: JobId, t: Trial, now: Time) returns (v: Verdict)
      requires j in jobs && TrialOk(t)
      modifies this`orders, this`jobs
      ensures (Tables(), v) == RecordFailure(old(Tables()), j, t, now)
      ensures v == if old(jobs)[j].attempts + 1 >= old(jobs)[j].maxAttempts then Failed else Retrying
      ensures j in jobs && jobs == old(jobs)[j := jobs[j]] && Tried(old(jobs)[j], jobs[j], v, now)
    {
      var attempts := jobs[j].attempts + 1;
      var exhausted := attempts >= jobs[j].maxAttempts;
      jobs := jobs[j := jobs[j].(
        status := if exhausted then FAILED else PENDING,
        attempts := attempts,
        nextAttemptAt := now + BackoffMs(attempts, t.random))];
      if !exhausted {
        return Retrying;
      }
      if jobs[j].orderId.Some? && jobs[j].orderId.value in orders {
        var o := jobs[j].orderId.value;
        orders := orders[o := orders[o].(status := NEEDS_REVIEW)];
      }
      v := Failed;
    }

    method ProcessJob(j: JobId, t: Trial, now: Time) returns (v: Verdict)
      requires j in jobs && TrialOk(t)
      modifies this`orders, this`jobs, this`grants
      ensures (Tables(), v) == Process(old(Tables()), j, t, now)
      ensures v == Done <==> Succeeds(old(Tables()), old(jobs)[j], t) && t.doneOk
      ensures j in jobs && jobs == old(jobs)[j := jobs[j]] && Tried(old(jobs)[j], jobs[j], v, now)
      ensures orders == OrdersJudged(old(Tables()), old(jobs)[j], t, v, now)
    {
      ProcessExactly(Tables(), j, t, now);
      ExecuteKeeps(Tables(), jobs[j], t, now);
      var ok := ExecuteJob(jobs[j], t, now);
      if ok && t.doneOk {
        jobs := jobs[j := jobs[j].(status := DONE, completedAt := Some(now), attempts := jobs[j].attempts + 1)];
        return Done;
      }
      v := RecordJobFailure(j, t, now);
    }

    /** The loop of a pass over the jobs it claimed. */
    method RunBatch(batch: seq<JobId>, trials: seq<Trial>, now: Time) returns (summary: Summary)
      requires AllIn(jobs, batch) && |trials| == |batch| && forall t :: t in trials ==> TrialOk(t)
      modifies this`orders, this`jobs, this`grants
      ensures (Tables(), summary) == ProcessAll(old(Tables()), batch, trials, now, |batch|)
      ensures NoDup(batch) ==> CountsThem(summary, jobs, batch) && DoneHonestly(jobs, batch, trials)
    {
      hide Process, TrialOk, CountsThem, DoneHonestly, NoDup;
      if NoDup(batch) {
        BatchCounts(Tables(), batch, trials, now, |batch|);
      }
      summary := Summary(|batch|, 0, 0, 0);
      var i := 0;
      while i < |batch|
        invariant 0 <= i <= |batch|
        invariant AllIn(old(Tables()).jobs, batch[..i]) && AllIn(jobs, batch)
        invariant forall t :: t in trials[..i] ==> TrialOk(t)
        invariant (Tables(), summary) == ProcessAll(old(Tables()), batch[..i], trials[..i], now, |batch|)
      {
        assert batch[..i+1][..i] == batch[..i] && trials[..i+1][..i] == trials[..i];
        assert trials[i] in trials && batch[i] in batch;
        ProcessSettles(Tables(), batch[i], trials[i], now);
        var outcome := ProcessJob(batch[i], trials[i], now);
        summary := Count(summary, outcome);
        i := i + 1;
      }
      assert batch[..i] == batch && trials[..i] == trials;
    }

    /** runPending: nothing while another pass runs; else claim, then every job in turn. */
    method RunPending(found: seq<JobId>, trials: seq<Trial>, now: Time) returns (summary: Summary)
      requires IsBatch(jobs, now, found) && |trials| == |found| && forall t :: t in trials ==> TrialOk(t)
      modifies this
      ensures running == old(running)
      ensures old(running) ==> Tables() == old(Tables()) && summary == Summary(0, 0, 0, 0)
      ensures !old(running) ==> (Tables(), summary) == Pass(old(Tables()), found, trials, now)
      ensures TakesTheDue(old(jobs), found, now)
      ensures !old(running) ==>
                && CountsThem(summary, jobs, found) && DoneHonestly(jobs, found, trials)
                && summary.taken == |found| == summary.done + summary.failed + summary.retrying
                && (forall j :: j in old(jobs) && j !in found ==> j in jobs && jobs[j] == old(jobs)[j])
    {
      hide CountsThem, DoneHonestly, TrialOk, TakesTheDue;
      BatchTakesTheDue(jobs, found, now);
      if running {
        return Summary(0, 0, 0, 0);
      }
      running := true;
      WholeBatch(jobs, found, now);
      PassSettles(Tables(), found, trials, now);
      var batch := ClaimBatch(found);
      summary := RunBatch(batch, trials, now);
      running := false;
    }

    /** reencolarFallidos plus the guarded move back to PAID. */
    method Retry(o: OrderId, now: Time) returns (result: Result<nat, Refusal>)
      modifies this`orders, this`jobs
      ensures result == Err(NotFound) <==> o !in old(orders)
      ensures result.Ok? <==> o in old(orders) && old(orders)[o].status == NEEDS_REVIEW
                              && GaveUp(old(jobs), o) != {}
      ensures result.Ok? ==>
                && result.value == |GaveUp(old(jobs), o)|
                && orders == old(orders)[o := old(orders)[o].(status := PAID)]
                && Requeued(old(jobs), jobs, o, now)
      ensures !result.Ok? ==> Tables() == old(Tables())
    {
      if o !in orders {
        return Err(NotFound);
      }
      if orders[o].status != NEEDS_REVIEW {
        return Err(Unprocessable);
      }
      assert FailedOf(jobs, o) == GaveUp(jobs, o);
      var reencolados := |FailedOf(jobs, o)|;
      ProtocolTheorems.RequeueExact(jobs, o, now);
      jobs := RequeueFailed(jobs, o, now);
      if reencolados == 0 {
        assert forall j :: j in old(jobs) ==> j !in FailedOf(old(jobs), o);
        assert jobs == old(jobs);
        return Err(Unprocessable);
      }
      orders := orders[o := orders[o].(status := PAID)];
      result := Ok(reencolados);
    }

    // ------------------------------------------------------------ deletions

    /** deleteProduct: guard, then a transaction that undoes itself if anything objects. */
    method RemoveProduct(x: ProductId) returns (result: Result<nat, Refusal>)
      modifies this
      ensures running == old(running)
      ensures result == Err(NotFound) <==> x !in old(products)
      ensures result.Ok? <==> x in old(products) && !HasSales(old(Tables()), x)
      ensures result.Ok? ==>
                && Some(Tables()) == DeleteProduct(old(Tables()), x) && result.value == |UnpaidOf(old(Tables()), x)|
                && Removed(old(Tables()), Tables(), x)
      ensures !result.Ok? ==> Tables() == old(Tables())
    {
      hide Removed, Holds, HasSales, UnpaidOf, DeleteOrders, RefersTo;
      if x !in products {
        return Err(NotFound);
      }
      var db := Db(products, variants, orders, jobs, grants, events);
      if HasSales(db, x) {
        return Err(Conflict);
      }
      var borrados := UnpaidOf(db, x);
      orders := map o | o in orders && o !in borrados :: orders[o];
      jobs := map j | j in jobs && !(jobs[j].orderId.Some? && jobs[j].orderId.value in borrados) :: jobs[j];
      grants := map g | g in grants && grants[g].item.order !in borrados :: grants[g];
      ghost var between := Tables();
      assert DeleteOrders(db, borrados) == Some(between) by {
        AttemptsGo(db, x);
      }
      NothingRefers(db, between, x);
      products := products - {x};
      variants := map v | v in variants && variants[v] != x :: variants[v];
      RemovedExactly(db, Tables(), x);
      result := Ok(|borrados|);
    }
  }

  lemma AddedNone(base: map<GrantId, Grant>, o: OrderId, idx: seq<nat>, ids: seq<GrantId>, now: Time)
    ensures AddGrants(base, o, idx[..0], ids[..0], now) == base
  {
  }

  lemma TokensAreFresh(grants: map<GrantId, Grant>, lines: seq<Line>, tokens: seq<GrantId>)
    requires Issuable(grants, lines, tokens)
    ensures |tokens| == |Deliverables(lines)|
  {
  }

  lemma NothingIssued(grants: map<GrantId, Grant>, o: OrderId, lines: seq<Line>, tokens: seq<GrantId>, now: Time)
    requires Issuable(grants, lines, tokens) && Deliverables(lines) == []
    ensures GrantProof.Emitted(grants, grants, o, lines, tokens, now)
  {
  }

  /** Nothing objects to the unpaid attempts going, with their jobs and their links. */
  lemma AttemptsGo(db: Db, x: ProductId)
    ensures var gone := UnpaidOf(db, x);
            DeleteOrders(db, gone) == Some(db.(
              orders := map o | o in db.orders && o !in gone :: db.orders[o],
              jobs := map j | j in db.jobs && !(db.jobs[j].orderId.Some? && db.jobs[j].orderId.value in gone)
                        :: db.jobs[j],
              grants := map g | g in db.grants && db.grants[g].item.order !in gone :: db.grants[g]))
  {
  }

  /** Without sales, the unpaid attempts are all the orders that hold the product; what goes with them is this. */
  lemma RemovedExactly(db: Db, after: Db, x: ProductId)
    requires !HasSales(db, x) && DeleteProduct(db, x) == Some(after)
    ensures Removed(db, after, x)
  {
    assert forall o :: o in db.orders ==> (Holds(db, o, x) <==> RefersTo(db, o, x));
    assert forall o :: o in UnpaidOf(db, x) <==> o in db.orders && Holds(db, o, x);
  }

  /** With no sales and the unpaid attempts gone, no line keeps the product's variants. */
  lemma NothingRefers(db: Db, between: Db, x: ProductId)
    requires !HasSales(db, x) && DeleteOrders(db, UnpaidOf(db, x)) == Some(between)
    ensures forall o :: o in between.orders ==> !RefersTo(between, o, x)
  {
    forall o | o in between.orders ensures !RefersTo(between, o, x) {
      assert RefersTo(between, o, x) == RefersTo(db, o, x);
    }
  }
}
