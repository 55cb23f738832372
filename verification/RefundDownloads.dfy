/**
 * What a refund does to the downloads of its order, over every continuation: only a
 * request that had read its grant before may still hand out a URL.
 */
module RefundDownloads {
  import opened Prelude
  import opened Store
  import opened Protocol
  import opened Invariant
  import opened ProtocolTheorems
  import opened Frames

  /** The requests that have read this grant and not finished. */
  function InFlight(downloads: map<Pid, Download>, g: GrantId): set<Pid> {
    set p | p in downloads && downloads[p].grant == g
  }

  /** URLs handed out plus requests in flight never grow, and no request joins. */
  ghost predicate WindsDown(w: World, w': World, g: GrantId) {
    && Handed(w'.handed, g) + |InFlight(w'.downloads, g)| <= Handed(w.handed, g) + |InFlight(w.downloads, g)|
    && InFlight(w'.downloads, g) <= InFlight(w.downloads, g)
  }

  lemma QuietWinds(w: World, w': World, o: OrderId, g: GrantId)
    requires Quiet(w, w', o) && g in w.db.grants
    ensures WindsDown(w, w', g)
  {
  }

  lemma DropsOne(downloads: map<Pid, Download>, p: Pid, g: GrantId)
    ensures InFlight(Drop(downloads, p), g) == InFlight(downloads, g) - {p}
    ensures p in InFlight(downloads, g) ==> |InFlight(Drop(downloads, p), g)| == |InFlight(downloads, g)| - 1
    ensures |InFlight(Drop(downloads, p), g)| <= |InFlight(downloads, g)|
  {
  }

  lemma DownloadWinds(w: World, s: Step, g: GrantId)
    requires IsDownloadStep(s) && g in w.db.grants && !Live(w.db.grants[g])
    ensures WindsDown(w, ApplyDownload(w, s), g)
  {
    hide WindsDown, Live, DoReadGrant, DoCountUse, DoHandOut, Drop, InFlight;
    match s
    case ReadGrant(p, h) => ReadWinds(w, p, h, g);
    case CountUse(p) => CountWinds(w, p, g);
    case HandOut(p) => HandWinds(w, p, g);
    case CrashDownload(p) => CrashWinds(w, p, g);
  }

  lemma CrashWinds(w: World, p: Pid, g: GrantId)
    ensures WindsDown(w, w.(downloads := Drop(w.downloads, p)), g)
  {
    DropsOne(w.downloads, p, g);
    hide Drop, InFlight;
  }

  lemma ReadWinds(w: World, p: Pid, h: GrantId, g: GrantId)
    requires g in w.db.grants && !Live(w.db.grants[g])
    ensures WindsDown(w, DoReadGrant(w, p, h), g)
  {
    var w' := DoReadGrant(w, p, h);
    if w' != w {
      assert h != g && w' == w.(downloads := w.downloads[p := GrantRead(h, w.db.grants[h].maxDownloads)]);
      hide DoReadGrant;
      assert InFlight(w'.downloads, g) == InFlight(w.downloads, g);
    }
  }

  lemma CountWinds(w: World, p: Pid, g: GrantId)
    ensures WindsDown(w, DoCountUse(w, p), g)
  {
    if p in w.downloads && w.downloads[p].GrantRead? {
      var GrantRead(h, max) := w.downloads[p];
      DropsOne(w.downloads, p, g);
      SameInFlight(w.downloads, p, h, g);
      hide Drop, InFlight, CanCount, CountDownload;
      if CanCount(w.db.grants, h, max) {
        assert DoCountUse(w, p)
            == w.(db := w.db.(grants := CountDownload(w.db.grants, h)), downloads := w.downloads[p := Signing(h)]);
      } else {
        assert DoCountUse(w, p) == w.(downloads := Drop(w.downloads, p));
      }
    }
  }

  lemma SameInFlight(downloads: map<Pid, Download>, p: Pid, h: GrantId, g: GrantId)
    requires p in downloads && downloads[p].grant == h
    ensures InFlight(downloads[p := Signing(h)], g) == InFlight(downloads, g)
  {
  }

  lemma HandWinds(w: World, p: Pid, g: GrantId)
    ensures WindsDown(w, DoHandOut(w, p), g)
  {
    if p in w.downloads && w.downloads[p].Signing? {
      var h := w.downloads[p].grant;
      DropsOne(w.downloads, p, g);
      assert p in InFlight(w.downloads, h);
      hide Drop, InFlight;
    }
  }

  /** One step of anybody, from any state in which the grant is revoked. */
  lemma StepWinds(w: World, s: Step, g: GrantId)
    requires Inv(w) && g in w.db.grants && !Live(w.db.grants[g])
    ensures WindsDown(w, Apply(w, s), g)
  {
    var o := Unused(w.db.orders.Keys);
    assert o !in w.db.orders;
    hide Inv, ApplyPayment, ApplyUpkeep, ApplyAdmin, ApplyDownload, ApplyQueue, Live, Quiet, WindsDown;
    if IsPaymentStep(s) {
      if s.PaymentCommit? {
        CommitWinds(w, s, g);
      } else {
        PaymentQuiet(w, s, o);
        QuietWinds(w, ApplyPayment(w, s), o, g);
      }
    } else if IsUpkeepStep(s) {
      UpkeepQuiet(w, s, o);
      QuietWinds(w, ApplyUpkeep(w, s), o, g);
    } else if IsAdminStep(s) {
      AdminQuiet(w, s, o);
      QuietWinds(w, ApplyAdmin(w, s), o, g);
    } else if IsDownloadStep(s) {
      DownloadWinds(w, s, g);
    } else {
      QueueQuiet(w, s, o);
      QuietWinds(w, ApplyQueue(w, s), o, g);
    }
  }

  lemma CommitWinds(w: World, s: Step, g: GrantId)
    requires s.PaymentCommit? && g in w.db.grants
    ensures WindsDown(w, ApplyPayment(w, s), g)
  {
    hide DoPaymentCommit, Quiet;
    var o := if s.p in w.requests && w.requests[s.p].PaymentRead? then w.requests[s.p].order + 1 else 0;
    CommitQuiet(w, s.p, s.j1, s.j2, o);
    QuietWinds(w, DoPaymentCommit(w, s.p, s.j1, s.j2), o, g);
  }

  /** A revoked grant, from any state on. */
  lemma {:induction false} RunWinds(w: World, more: seq<Step>, g: GrantId)
    requires Inv(w) && g in w.db.grants && !Live(w.db.grants[g])
    ensures WindsDown(w, Run(w, more), g)
    decreases |more|
  {
    hide Inv, Apply, OrdersLater, Handed, InFlight;
    if more != [] {
      var before := more[..|more|-1];
      RunWinds(w, before, g);
      RunKeeps(w, before);
      StepWinds(Run(w, before), more[|more|-1], g);
    }
  }

  lemma RefundStep(w: World, p: Pid)
    requires p in w.requests && w.requests[p].RefundRead? && w.requests[p].order in w.db.orders
    ensures var w' := Apply(w, RefundCommit(p));
            && CommitRefund(w.db, w.requests[p].order, w.now) == Some(w'.db)
            && w'.downloads == w.downloads && w'.handed == w.handed
  {
    hide CommitRefund;
    assert CommitRefund(w.db, w.requests[p].order, w.now).Some? by {
      RefundGoesThrough(w.db, w.requests[p].order, w.now);
    }
  }

  lemma RefundGoesThrough(db: Db, o: OrderId, now: Time)
    requires o in db.orders
    ensures CommitRefund(db, o, now).Some?
  {
  }

  lemma RefundRevokes(db: Db, o: OrderId, now: Time, g: GrantId)
    requires o in db.orders && g in db.grants && db.grants[g].item.order == o
    requires db.grants[g].item.index < |db.orders[o].lines|
    ensures var after := CommitRefund(db, o, now).value; g in after.grants && !Live(after.grants[g])
  {
  }

  /**
   * After a refund, whatever runs: each grant of the order hands out at most
   * one URL for every request that had read it before, and no request that
   * comes later is let in.
   */
  lemma RefundStopsDownloads(steps: seq<Step>, p: Pid, more: seq<Step>, g: GrantId)
    requires var w := Run(INIT, steps);
             && p in w.requests && w.requests[p].RefundRead? && w.requests[p].order in w.db.orders
             && g in w.db.grants && w.db.grants[g].item.order == w.requests[p].order
    ensures var w := Run(INIT, steps);
            var w' := Run(INIT, steps + [RefundCommit(p)] + more);
            && Handed(w'.handed, g) <= Handed(w.handed, g) + |InFlight(w.downloads, g)|
            && InFlight(w'.downloads, g) <= InFlight(w.downloads, g)
  {
    hide Run, Apply, OrderInv, QueueInv, EventsOk, Handed, InFlight;
    var w := Run(INIT, steps);
    var o := w.requests[p].order;
    ReachableOk(steps);
    ReachableOk(steps + [RefundCommit(p)]);
    Extended(INIT, steps, RefundCommit(p));
    RefundStep(w, p);
    RefundRevokes(w.db, o, w.now, g);
    hide GrantInv, Live;
    RunSplits(INIT, steps + [RefundCommit(p)], more);
    RunWinds(Run(INIT, steps + [RefundCommit(p)]), more, g);
  }

  /** The bound is met: a request that read its grant is served if a use is left, revoked or not. */
  lemma InFlightIsServed(w: World, p: Pid)
    requires p in w.downloads && w.downloads[p].GrantRead?
    requires CanCount(w.db.grants, w.downloads[p].grant, w.downloads[p].max)
    ensures var g := w.downloads[p].grant;
            var w' := Apply(Apply(w, CountUse(p)), HandOut(p));
            Handed(w'.handed, g) == Handed(w.handed, g) + 1 && p !in w'.downloads && w'.db.orders == w.db.orders
  {
    CountUseStep(w, p);
    HandOutStep(Apply(w, CountUse(p)), p);
    hide Apply, CountDownload, CanCount;
  }

  lemma CountUseStep(w: World, p: Pid)
    ensures Apply(w, CountUse(p)) == DoCountUse(w, p)
  {
    hide DoCountUse;
  }

  lemma HandOutStep(w: World, p: Pid)
    ensures Apply(w, HandOut(p)) == DoHandOut(w, p)
  {
    hide DoHandOut;
  }
}
