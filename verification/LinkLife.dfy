/**
 * How long an emitted link lives: three days and five uses, whichever ends first.
 */
module LinkLife {
  import opened Prelude
  import opened Store
  import opened GrantProof

  /** One visit to a link: the checks, and one use counted when they pass. */
  function Visit(db: Db, g: GrantId, t: Time): (Db, bool) {
    if Downloadable(db, g, t) then (db.(grants := CountDownload(db.grants, g)), true) else (db, false)
  }

  /** The tables after these visits, one after another, and how many of them were served. */
  function Visits(db: Db, g: GrantId, times: seq<Time>): (Db, nat) {
    if times == [] then (db, 0)
    else
      var (before, served) := Visits(db, g, times[..|times|-1]);
      var (after, ok) := Visit(before, g, times[|times|-1]);
      (after, if ok then served + 1 else served)
  }

  /** The visits up to an instant. */
  function UpTo(times: seq<Time>, last: Time): nat {
    if times == [] then 0
    else UpTo(times[..|times|-1], last) + (if times[|times|-1] <= last then 1 else 0)
  }

  /** Grant g opens a file that exists. */
  predicate Opens(db: Db, g: GrantId) {
    && g in db.grants && db.grants[g].item.order in db.orders
    && db.grants[g].item.index < |db.orders[db.grants[g].item.order].lines|
    && var asset := db.orders[db.grants[g].item.order].lines[db.grants[g].item.index].asset;
       asset.Some? && asset.value != ""
  }

  /** A live grant of an existing file serves the visits in time, as many as it has uses left, and no more. */
  lemma {:induction false} ServedExactly(db: Db, g: GrantId, times: seq<Time>)
    requires Opens(db, g) && db.grants[g].revokedAt.None? && db.grants[g].downloadCount <= db.grants[g].maxDownloads
    ensures var grant := db.grants[g];
            var (after, served) := Visits(db, g, times);
            var left, inTime := grant.maxDownloads - grant.downloadCount, UpTo(times, grant.expiresAt);
            && served == (if inTime <= left then inTime else left)
            && after == db.(grants := db.grants[g := grant.(downloadCount := grant.downloadCount + served)])
  {
    if times == [] {
      assert db.grants[g := db.grants[g]] == db.grants;
    } else {
      hide Opens;
      var before := times[..|times|-1];
      ServedExactly(db, g, before);
      var (between, served) := Visits(db, g, before);
      VisitExactly(db, between, g, served, times[|times|-1]);
    }
  }

  lemma VisitExactly(db: Db, between: Db, g: GrantId, served: nat, t: Time)
    requires Opens(db, g) && db.grants[g].revokedAt.None?
    requires db.grants[g].downloadCount + served <= db.grants[g].maxDownloads
    requires between == db.(grants := db.grants[g := db.grants[g].(
                          downloadCount := db.grants[g].downloadCount + served)])
    ensures var grant := db.grants[g];
            var ok := t <= grant.expiresAt && grant.downloadCount + served < grant.maxDownloads;
            && Visit(between, g, t).1 == ok
            && Visit(between, g, t).0 == db.(grants := db.grants[g := grant.(
                 downloadCount := grant.downloadCount + served + (if ok then 1 else 0))])
  {
  }

  /** The database right after an emission for order o. */
  function WithLinks(db: Db, o: OrderId, ids: seq<GrantId>, now: Time): Db
    requires o in db.orders && |ids| == |Deliverables(db.orders[o].lines)|
  {
    db.(grants := EmitLinks(db.grants, o, db.orders[o].lines, ids, now))
  }

  lemma LinksOpen(db: Db, o: OrderId, ids: seq<GrantId>, now: Time, k: nat)
    requires o in db.orders && |ids| == |Deliverables(db.orders[o].lines)| && NoDup(ids)
    requires (forall g :: g in ids ==> g !in db.grants) && k < |ids|
    ensures var after := WithLinks(db, o, ids, now);
            && Opens(after, ids[k]) && after.orders == db.orders
            && after.grants[ids[k]] ==
               Grant(ItemKey(o, Deliverables(db.orders[o].lines)[k]), 5, 0, now + 259_200_000, None)
  {
    hide EmitLinks, Deliverables;
    var lines := db.orders[o].lines;
    EmittedExactly(db.grants, o, lines, ids, now);
    DeliverablesExact(lines, 0);
    assert Deliverables(lines)[k] in Deliverables(lines);
    assert ids[k] in ids;
  }

  /** A new link passes the checks of a download until 72 hours after it was issued. */
  lemma LinksServeThreeDays(db: Db, o: OrderId, ids: seq<GrantId>, now: Time, k: nat, t: Time)
    requires o in db.orders && |ids| == |Deliverables(db.orders[o].lines)| && NoDup(ids)
    requires (forall g :: g in ids ==> g !in db.grants) && k < |ids|
    ensures Downloadable(WithLinks(db, o, ids, now), ids[k], t) <==> t <= now + 259_200_000
  {
    hide WithLinks;
    LinksOpen(db, o, ids, now, k);
  }

  /** Of any visits at any times it serves the first five of those in the 72 hours, and refuses the rest. */
  lemma LinksServeFiveTimes(db: Db, o: OrderId, ids: seq<GrantId>, now: Time, k: nat, times: seq<Time>)
    requires o in db.orders && |ids| == |Deliverables(db.orders[o].lines)| && NoDup(ids)
    requires (forall g :: g in ids ==> g !in db.grants) && k < |ids|
    ensures var served := Visits(WithLinks(db, o, ids, now), ids[k], times).1;
            var inTime := UpTo(times, now + 259_200_000);
            served == if inTime <= 5 then inTime else 5
  {
    hide WithLinks, Visits, Opens;
    LinksOpen(db, o, ids, now, k);
    ServedExactly(WithLinks(db, o, ids, now), ids[k], times);
  }
}
