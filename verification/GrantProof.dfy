/** Moves of the download permissions keep the invariant. */
module GrantProof {
  import opened Prelude
  import opened Store
  import opened Protocol
  import opened Invariant
  import opened OrderProof

  // ---------------------------------------------------------------- emission

  /** The positions emitirEnlaces serves: every deliverable line, once, in order. */
  lemma {:induction false} DeliverablesExact(lines: seq<Line>, from: nat)
    ensures forall i :: i in Deliverables(lines, from) <==>
              from <= i < |lines| && lines[i].kind == DIGITAL && lines[i].asset.Some? && lines[i].asset.value != ""
    ensures forall a, b :: 0 <= a < b < |Deliverables(lines, from)| ==>
              Deliverables(lines, from)[a] < Deliverables(lines, from)[b]
    decreases |lines| - from
  {
    if from < |lines| {
      DeliverablesExact(lines, from + 1);
      var rest := Deliverables(lines, from + 1);
      if Deliverable(lines[from]) {
        assert Deliverables(lines, from) == [from] + rest;
        assert forall b :: 0 <= b < |rest| ==> rest[b] in rest;
      }
    }
  }

  /** `after` is `base` plus one fresh grant per position: five uses, none of them made, and three days. */
  ghost predicate Extends(base: map<GrantId, Grant>, after: map<GrantId, Grant>, o: OrderId, idx: seq<nat>,
                          ids: seq<GrantId>, now: Time)
    requires |ids| == |idx|
  {
    && (forall g :: g in after ==> g in base || g in ids)
    && (forall g :: g in base ==> g in after && after[g] == base[g])
    && (forall k :: 0 <= k < |ids| ==>
          ids[k] in after && after[ids[k]] == Grant(ItemKey(o, idx[k]), 5, 0, now + 259_200_000, None))
  }

  lemma ExtendsOne(base: map<GrantId, Grant>, some: map<GrantId, Grant>, o: OrderId, idx: seq<nat>, ids: seq<GrantId>,
                   i: nat, g: GrantId, now: Time)
    requires |ids| == |idx| && Extends(base, some, o, idx, ids, now) && g !in base && g !in ids
    ensures Extends(base, some[g := NewGrant(ItemKey(o, i), now)], o, idx + [i], ids + [g], now)
  {
  }

  /** One turn of the loop that creates the grants. */
  lemma AddedOne(base: map<GrantId, Grant>, o: OrderId, idx: seq<nat>, ids: seq<GrantId>, k: nat, now: Time)
    requires |ids| == |idx| && k < |idx|
    ensures AddGrants(base, o, idx[..k+1], ids[..k+1], now)
         == AddGrants(base, o, idx[..k], ids[..k], now)[ids[k] := NewGrant(ItemKey(o, idx[k]), now)]
  {
    assert idx[..k+1][..k] == idx[..k] && ids[..k+1][..k] == ids[..k];
  }

  lemma PrefixGrows<T>(s: seq<T>, n: nat)
    requires NoDup(s) && n < |s|
    ensures s[..n+1] == s[..n] + [s[n]] && s[n] !in s[..n]
  {
  }

  lemma AddedStep(grants: map<GrantId, Grant>, o: OrderId, idx: seq<nat>, ids: seq<GrantId>, now: Time, n: nat)
    requires |ids| == |idx| && n < |ids| && ids[n] !in grants && ids[n] !in ids[..n]
    requires Extends(grants, AddGrants(grants, o, idx[..n], ids[..n], now), o, idx[..n], ids[..n], now)
    ensures Extends(grants, AddGrants(grants, o, idx[..n+1], ids[..n+1], now), o, idx[..n+1], ids[..n+1], now)
  {
    hide Extends, AddGrants, NewGrant;
    AddedOne(grants, o, idx, ids, n, now);
    ExtendsOne(grants, AddGrants(grants, o, idx[..n], ids[..n], now), o, idx[..n], ids[..n], idx[n], ids[n], now);
    assert ids[..n+1] == ids[..n] + [ids[n]] && idx[..n+1] == idx[..n] + [idx[n]];
  }

  lemma {:induction false} AddedUpTo(
      grants: map<GrantId, Grant>, o: OrderId, idx: seq<nat>, ids: seq<GrantId>, now: Time, k: nat)
    requires |ids| == |idx| && NoDup(ids) && k <= |ids|
    requires forall i :: 0 <= i < |ids| ==> ids[i] !in grants
    ensures Extends(grants, AddGrants(grants, o, idx[..k], ids[..k], now), o, idx[..k], ids[..k], now)
  {
    if k > 0 {
      hide Extends, AddGrants, NoDup;
      AddedUpTo(grants, o, idx, ids, now, k - 1);
      PrefixGrows(ids, k - 1);
      AddedStep(grants, o, idx, ids, now, k - 1);
    }
  }

  /** Fresh grants land on their own line; the rest of the table is untouched. */
  lemma AddGrantsExact(grants: map<GrantId, Grant>, o: OrderId, idx: seq<nat>, ids: seq<GrantId>, now: Time)
    requires |ids| == |idx| && NoDup(ids)
    requires forall g :: g in ids ==> g !in grants
    ensures Extends(grants, AddGrants(grants, o, idx, ids, now), o, idx, ids, now)
  {
    hide Extends, AddGrants;
    AddedUpTo(grants, o, idx, ids, now, |ids|);
    assert idx[..|ids|] == idx && ids[..|ids|] == ids;
  }

  /** The lines an emission serves. */
  function Served(o: OrderId, lines: seq<Line>): set<ItemKey> {
    set i | i in Deliverables(lines) :: ItemKey(o, i)
  }

  /** After an emission each served line has exactly its new grant alive. */
  lemma ExtendsOneLive(base: map<GrantId, Grant>, after: map<GrantId, Grant>, o: OrderId, idx: seq<nat>,
                       ids: seq<GrantId>, now: Time)
    requires |ids| == |idx| && NoDup(idx) && OneLive(base)
    requires Extends(base, after, o, idx, ids, now)
    requires forall g, i :: g in base && i in idx && base[g].item == ItemKey(o, i) ==> !Live(base[g])
    ensures OneLive(after)
  {
    forall a, b | a in after && b in after && Live(after[a]) && Live(after[b]) && after[a].item == after[b].item
      ensures a == b
    {
      if a !in base {
        var i :| 0 <= i < |ids| && ids[i] == a;
        assert idx[i] in idx;
        if b !in base {
          var k :| 0 <= k < |ids| && ids[k] == b;
        }
      }
    }
  }

  /** Each served line has a new link; the live ones it had are revoked now, and no other link is touched. */
  ghost predicate Emitted(before: map<GrantId, Grant>, after: map<GrantId, Grant>, o: OrderId, lines: seq<Line>,
                          ids: seq<GrantId>, now: Time)
    requires |ids| == |Deliverables(lines)|
  {
    && (forall g :: g in after <==> g in before || g in ids)
    && (forall k :: 0 <= k < |ids| && ids[k] in after ==>
          after[ids[k]] == Grant(ItemKey(o, Deliverables(lines)[k]), 5, 0, now + 259_200_000, None))
    && (forall g :: g in before && g in after ==>
          var hit := before[g].item.order == o && before[g].item.index in Deliverables(lines);
          after[g] == if hit && before[g].revokedAt.None? then before[g].(revokedAt := Some(now)) else before[g])
  }

  /** The whole emission: revoke the served lines, add one grant to each. */
  lemma EmitExact(grants: map<GrantId, Grant>, o: OrderId, lines: seq<Line>, ids: seq<GrantId>, now: Time)
    requires OneLive(grants)
    requires |ids| == |Deliverables(lines)| && NoDup(ids)
    requires forall g :: g in ids ==> g !in grants
    ensures Extends(RevokeLive(grants, Served(o, lines), now), EmitLinks(grants, o, lines, ids, now), o,
                    Deliverables(lines), ids, now)
    ensures Emitted(grants, EmitLinks(grants, o, lines, ids, now), o, lines, ids, now)
    ensures OneLive(EmitLinks(grants, o, lines, ids, now))
    ensures GrantsLater(grants, EmitLinks(grants, o, lines, ids, now))
  {
    var base := RevokeLive(grants, Served(o, lines), now);
    DeliverablesExact(lines, 0);
    AddGrantsExact(base, o, Deliverables(lines), ids, now);
    RevokeOneLive(grants, Served(o, lines), now);
    forall g, i | g in base && i in Deliverables(lines) && base[g].item == ItemKey(o, i) ensures !Live(base[g]) {
      assert ItemKey(o, i) in Served(o, lines);
    }
    ExtendsOneLive(base, EmitLinks(grants, o, lines, ids, now), o, Deliverables(lines), ids, now);
    EmittedExactly(grants, o, lines, ids, now);
  }

  lemma EmittedExactly(grants: map<GrantId, Grant>, o: OrderId, lines: seq<Line>, ids: seq<GrantId>, now: Time)
    requires |ids| == |Deliverables(lines)| && NoDup(ids)
    requires forall g :: g in ids ==> g !in grants
    ensures Emitted(grants, EmitLinks(grants, o, lines, ids, now), o, lines, ids, now)
  {
    hide AddGrants, Deliverables;
    var base := RevokeLive(grants, Served(o, lines), now);
    AddGrantsExact(base, o, Deliverables(lines), ids, now);
    assert EmitLinks(grants, o, lines, ids, now) == AddGrants(base, o, Deliverables(lines), ids, now);
    forall g | g in grants
      ensures grants[g].item in Served(o, lines) <==>
                grants[g].item.order == o && grants[g].item.index in Deliverables(lines)
    {
      assert grants[g].item == ItemKey(grants[g].item.order, grants[g].item.index);
    }
  }

  lemma RevokeOneLive(grants: map<GrantId, Grant>, items: set<ItemKey>, now: Time)
    requires OneLive(grants)
    ensures OneLive(RevokeLive(grants, items, now))
    ensures GrantsLater(grants, RevokeLive(grants, items, now))
  {
  }

  // ---------------------------------------------------------------- moves

  lemma GrantsMove(w: World, grants: map<GrantId, Grant>, handed: map<GrantId, nat>, downloads: map<Pid, Download>)
    requires Inv(w)
    requires GrantsOk(w.db.orders, grants) && OneLive(grants) && DownloadsOk(downloads, grants)
    requires BudgetOk(downloads, grants, handed)
    requires GrantsLater(w.db.grants, grants)
    ensures var w' := w.(db := w.db.(grants := grants), handed := handed, downloads := downloads);
            Inv(w') && Later(w, w')
  {
    hide OrdersOk, IntentsUnique, LinesOk, VariantsOk, RequestsOk, JobsOk, KeysUnique, Covered, CountsOk,
         WorkersOk, GrantsOk, OneLive, DownloadsOk, BudgetOk, EventsOk, OrdersLater, GrantsLater;
    OrdersStay(w.db.orders);
  }

  lemma RevokeKeeps(w: World, items: set<ItemKey>)
    requires Inv(w)
    ensures var w' := w.(db := w.db.(grants := RevokeLive(w.db.grants, items, w.now))); Inv(w') && Later(w, w')
  {
    hide OrderInv, QueueInv, EventsOk, Later;
    var grants := RevokeLive(w.db.grants, items, w.now);
    RevokeOneLive(w.db.grants, items, w.now);
    GrantsMove(w, grants, w.handed, w.downloads);
    assert w.(db := w.db.(grants := grants)) ==
      w.(db := w.db.(grants := grants), handed := w.handed, downloads := w.downloads);
  }

  lemma EmittedRows(orders: map<OrderId, Order>, grants: map<GrantId, Grant>, o: OrderId, lines: seq<Line>,
                    ids: seq<GrantId>, now: Time)
    requires GrantsOk(orders, grants) && IsPaid(orders, o) && orders[o].lines == lines
    requires |ids| == |Deliverables(lines)|
    requires Extends(RevokeLive(grants, Served(o, lines), now), EmitLinks(grants, o, lines, ids, now), o,
                     Deliverables(lines), ids, now)
    ensures GrantsOk(orders, EmitLinks(grants, o, lines, ids, now))
  {
    var after := EmitLinks(grants, o, lines, ids, now);
    DeliverablesExact(lines, 0);
    forall g | g in after
      ensures IsPaid(orders, after[g].item.order)
      ensures after[g].item.index < |orders[after[g].item.order].lines|
              && after[g].downloadCount <= after[g].maxDownloads == 5
    {
      if g !in grants {
        var k :| 0 <= k < |ids| && ids[k] == g;
        assert Deliverables(lines)[k] in Deliverables(lines);
      }
    }
  }

  lemma NoOnePending(downloads: map<Pid, Download>, grants: map<GrantId, Grant>, g: GrantId)
    requires DownloadsOk(downloads, grants) && g !in grants
    ensures Pending(downloads, g) == {}
  {
  }

  lemma EmittedBudget(downloads: map<Pid, Download>, grants: map<GrantId, Grant>, handed: map<GrantId, nat>,
                      o: OrderId, lines: seq<Line>, ids: seq<GrantId>, now: Time)
    requires BudgetOk(downloads, grants, handed) && DownloadsOk(downloads, grants)
    requires |ids| == |Deliverables(lines)| && forall g :: g in ids ==> g !in grants
    requires Extends(RevokeLive(grants, Served(o, lines), now), EmitLinks(grants, o, lines, ids, now), o,
                     Deliverables(lines), ids, now)
    ensures BudgetOk(downloads, EmitLinks(grants, o, lines, ids, now), handed + map g | g in ids :: 0)
    ensures DownloadsOk(downloads, EmitLinks(grants, o, lines, ids, now))
  {
    hide EmitLinks, NewGrant, Pending;
    var after := EmitLinks(grants, o, lines, ids, now);
    var handed' := handed + map g | g in ids :: 0;
    forall g | g in after ensures g in handed' && handed'[g] + |Pending(downloads, g)| <= after[g].downloadCount {
      if g in ids {
        assert g !in grants;
        NoOnePending(downloads, grants, g);
      } else {
        assert g in grants && after[g].downloadCount == grants[g].downloadCount;
      }
    }
  }

  /** The emission transaction, whoever runs it. */
  lemma IssueGrantsKeeps(w: World, o: OrderId, lines: seq<Line>, ids: seq<GrantId>)
    requires Inv(w) && IsPaid(w.db.orders, o) && w.db.orders[o].lines == lines
    requires |ids| == |Deliverables(lines)| && FreshGrants(w, ids)
    ensures Inv(IssueGrants(w, o, lines, ids)) && Later(w, IssueGrants(w, o, lines, ids))
  {
    hide OrderInv, QueueInv, EventsOk, Later, EmitLinks, Extends, OneLive, GrantsLater, GrantsOk, BudgetOk, DownloadsOk;
    var grants := EmitLinks(w.db.grants, o, lines, ids, w.now);
    var handed := w.handed + map g | g in ids :: 0;
    EmitExact(w.db.grants, o, lines, ids, w.now);
    assert GrantsOk(w.db.orders, grants) by {
      EmittedRows(w.db.orders, w.db.grants, o, lines, ids, w.now);
    }
    EmittedBudget(w.downloads, w.db.grants, w.handed, o, lines, ids, w.now);
    GrantsMove(w, grants, handed, w.downloads);
  }

  // ---------------------------------------------------------------- downloads

  lemma PendingOther(downloads: map<Pid, Download>, p: Pid, d: Download, g: GrantId)
    requires d != Signing(g) && (p in downloads ==> downloads[p] != Signing(g))
    ensures Pending(downloads[p := d], g) == Pending(downloads, g)
    ensures Pending(Drop(downloads, p), g) == Pending(downloads, g)
  {
  }

  lemma PendingDrops(downloads: map<Pid, Download>, p: Pid, g: GrantId)
    ensures |Pending(Drop(downloads, p), g)| <= |Pending(downloads, g)|
    ensures p in downloads && downloads[p] == Signing(g) ==>
              |Pending(Drop(downloads, p), g)| == |Pending(downloads, g)| - 1
  {
    assert Pending(Drop(downloads, p), g) == Pending(downloads, g) - {p};
  }

  lemma ReadGrantKeeps(w: World, p: Pid, g: GrantId)
    requires Inv(w)
    ensures Inv(DoReadGrant(w, p, g)) && Later(w, DoReadGrant(w, p, g))
  {
    hide OrderInv, QueueInv, EventsOk, Later, IsPaid, OneLive;
    GrantsStay(w.db.grants);
    if p !in w.downloads && Downloadable(w.db, g, w.now) {
      var d := GrantRead(g, w.db.grants[g].maxDownloads);
      forall h ensures Pending(w.downloads[p := d], h) == Pending(w.downloads, h) {
        PendingOther(w.downloads, p, d, h);
      }
      GrantsMove(w, w.db.grants, w.handed, w.downloads[p := d]);
    } else {
      GrantsMove(w, w.db.grants, w.handed, w.downloads);
    }
  }

  lemma DropDownloadKeeps(w: World, p: Pid)
    requires Inv(w)
    ensures Inv(w.(downloads := Drop(w.downloads, p))) && Later(w, w.(downloads := Drop(w.downloads, p)))
  {
    hide OrderInv, QueueInv, EventsOk, Later, IsPaid, OneLive;
    GrantsStay(w.db.grants);
    forall h ensures |Pending(Drop(w.downloads, p), h)| <= |Pending(w.downloads, h)| {
      PendingDrops(w.downloads, p, h);
    }
    GrantsMove(w, w.db.grants, w.handed, Drop(w.downloads, p));
  }

  /** One use counted, one request signing for it. */
  lemma CountedBudget(
      grants: map<GrantId, Grant>, handed: map<GrantId, nat>, downloads: map<Pid, Download>, p: Pid, g: GrantId)
    requires g in grants && BudgetOk(downloads, grants, handed) && DownloadsOk(downloads, grants)
    requires p in downloads && downloads[p].GrantRead?
    ensures BudgetOk(downloads[p := Signing(g)], CountDownload(grants, g), handed)
    ensures DownloadsOk(downloads[p := Signing(g)], CountDownload(grants, g))
  {
    var after := downloads[p := Signing(g)];
    assert Pending(after, g) == Pending(downloads, g) + {p};
    forall h | h != g ensures Pending(after, h) == Pending(downloads, h) {
      PendingOther(downloads, p, Signing(g), h);
    }
  }

  lemma CountedRows(orders: map<OrderId, Order>, grants: map<GrantId, Grant>, g: GrantId)
    requires g in grants && GrantsOk(orders, grants) && OneLive(grants)
    requires grants[g].downloadCount < grants[g].maxDownloads
    ensures GrantsOk(orders, CountDownload(grants, g)) && OneLive(CountDownload(grants, g))
    ensures GrantsLater(grants, CountDownload(grants, g))
  {
    hide IsPaid;
  }

  lemma CountUseKeeps(w: World, p: Pid)
    requires Inv(w)
    ensures Inv(DoCountUse(w, p)) && Later(w, DoCountUse(w, p))
  {
    hide OrderInv, QueueInv, EventsOk, Later, GrantsOk, OneLive, BudgetOk, GrantsLater, CountDownload;
    GrantsStay(w.db.grants);
    if p in w.downloads && w.downloads[p].GrantRead? {
      var GrantRead(g, max) := w.downloads[p];
      if CanCount(w.db.grants, g, max) {
        CountedBudget(w.db.grants, w.handed, w.downloads, p, g);
        CountedRows(w.db.orders, w.db.grants, g);
        GrantsMove(w, CountDownload(w.db.grants, g), w.handed, w.downloads[p := Signing(g)]);
      } else {
        DropDownloadKeeps(w, p);
      }
    } else {
      GrantsMove(w, w.db.grants, w.handed, w.downloads);
    }
  }

  lemma HandOutKeeps(w: World, p: Pid)
    requires Inv(w)
    ensures Inv(DoHandOut(w, p)) && Later(w, DoHandOut(w, p))
  {
    hide OrderInv, QueueInv, EventsOk, Later, IsPaid, OneLive;
    GrantsStay(w.db.grants);
    if p in w.downloads && w.downloads[p].Signing? {
      var g := w.downloads[p].grant;
      forall h
        ensures |Pending(Drop(w.downloads, p), h)| <= |Pending(w.downloads, h)|
        ensures h == g ==> |Pending(Drop(w.downloads, p), h)| == |Pending(w.downloads, h)| - 1
      {
        PendingDrops(w.downloads, p, h);
      }
      GrantsMove(w, w.db.grants, w.handed[g := if g in w.handed then w.handed[g] + 1 else 1], Drop(w.downloads, p));
    } else {
      GrantsMove(w, w.db.grants, w.handed, w.downloads);
    }
  }
}
