/**
 * The transaction that issues links revokes what it saw alive when it began and adds
 * its links when it commits. When exactly a line keeps at most one live link.
 */
module GrantOverlap {
  import opened Prelude
  import opened Store
  import opened Invariant
  import opened GrantProof

  type Pid = nat

  /** A transaction that has begun: what it serves, and the grants it saw alive there. */
  datatype Emission = Emission(order: OrderId, lines: seq<Line>, seen: set<GrantId>)

  datatype Ledger = Ledger(grants: map<GrantId, Grant>, begun: map<Pid, Emission>)

  const EMPTY := Ledger(map[], map[])

  datatype Move =
    | Begin(p: Pid, order: OrderId, lines: seq<Line>)
    | Commit(p: Pid, ids: seq<GrantId>, now: Time)
    | Abort(p: Pid)
    | Revoke(items: set<ItemKey>, now: Time)
    | Count(g: GrantId)

  function LiveOn(grants: map<GrantId, Grant>, items: set<ItemKey>): set<GrantId> {
    set g | g in grants && Live(grants[g]) && grants[g].item in items
  }

  function Revoked(grants: map<GrantId, Grant>, seen: set<GrantId>, now: Time): (r: map<GrantId, Grant>)
    ensures r.Keys == grants.Keys
  {
    map g | g in grants :: if g in seen && Live(grants[g]) then grants[g].(revokedAt := Some(now)) else grants[g]
  }

  function End(begun: map<Pid, Emission>, p: Pid): map<Pid, Emission> {
    map q | q in begun && q != p :: begun[q]
  }

  function DoBegin(l: Ledger, p: Pid, o: OrderId, lines: seq<Line>): Ledger {
    if p in l.begun || Deliverables(lines) == [] then l
    else l.(begun := l.begun[p := Emission(o, lines, LiveOn(l.grants, Served(o, lines)))])
  }

  predicate Fresh(grants: map<GrantId, Grant>, ids: seq<GrantId>) {
    NoDup(ids) && forall g :: g in ids ==> g !in grants
  }

  function DoCommit(l: Ledger, p: Pid, ids: seq<GrantId>, now: Time): Ledger {
    if p !in l.begun || |ids| != |Deliverables(l.begun[p].lines)| || !Fresh(l.grants, ids) then l
    else
      var e := l.begun[p];
      Ledger(AddGrants(Revoked(l.grants, e.seen, now), e.order, Deliverables(e.lines), ids, now), End(l.begun, p))
  }

  function Do(l: Ledger, m: Move): Ledger {
    match m
    case Begin(p, o, lines) => DoBegin(l, p, o, lines)
    case Commit(p, ids, now) => DoCommit(l, p, ids, now)
    case Abort(p) => l.(begun := End(l.begun, p))
    case Revoke(items, now) => l.(grants := RevokeLive(l.grants, items, now))
    case Count(g) => if g in l.grants then l.(grants := CountDownload(l.grants, g)) else l
  }

  function DoAll(l: Ledger, moves: seq<Move>): Ledger {
    if moves == [] then l else Do(DoAll(l, moves[..|moves|-1]), moves[|moves|-1])
  }

  // ---------------------------------------------------------------- what keeps one link per line

  function Serves(e: Emission): set<ItemKey> {
    Served(e.order, e.lines)
  }

  /** Nobody else serves these lines, and every live link on them was seen. */
  ghost predicate Alone(grants: map<GrantId, Grant>, begun: map<Pid, Emission>, p: Pid)
    requires p in begun
  {
    && (forall q :: q in begun && q != p ==> Serves(begun[q]) !! Serves(begun[p]))
    && LiveOn(grants, Serves(begun[p])) <= begun[p].seen
  }

  ghost predicate Safe(l: Ledger) {
    OneLive(l.grants) && forall p :: p in l.begun ==> Alone(l.grants, l.begun, p)
  }

  /** A transaction that begins on a line another one is serving. */
  predicate Collides(l: Ledger, m: Move) {
    && m.Begin? && m.p !in l.begun && Deliverables(m.lines) != []
    && exists q :: q in l.begun && Serves(l.begun[q]) * Served(m.order, m.lines) != {}
  }

  /** No link comes alive. */
  lemma Dims(before: map<GrantId, Grant>, after: map<GrantId, Grant>, begun: map<Pid, Emission>)
    requires Safe(Ledger(before, begun)) && after.Keys == before.Keys
    requires forall g :: g in before ==> after[g].item == before[g].item && (Live(after[g]) ==> Live(before[g]))
    ensures Safe(Ledger(after, begun))
  {
    forall p | p in begun ensures Alone(after, begun, p) {
      assert Alone(before, begun, p);
      assert LiveOn(after, Serves(begun[p])) <= LiveOn(before, Serves(begun[p]));
    }
  }

  lemma NoneShared(a: set<ItemKey>, b: set<ItemKey>)
    requires a * b == {}
    ensures a !! b && b !! a
  {
    assert forall x :: x in a && x in b ==> x in a * b;
  }

  lemma BeginSafe(l: Ledger, p: Pid, o: OrderId, lines: seq<Line>)
    requires Safe(l)
    ensures Safe(DoBegin(l, p, o, lines)) <==> !Collides(l, Begin(p, o, lines))
  {
    var l' := DoBegin(l, p, o, lines);
    hide Served, Deliverables, OneLive, LiveOn;
    if l' != l {
      var items := Served(o, lines);
      assert l' == l.(begun := l.begun[p := Emission(o, lines, LiveOn(l.grants, items))]) && p !in l.begun;
      assert Serves(l'.begun[p]) == items && forall q :: q in l.begun ==> l'.begun[q] == l.begun[q];
      if Collides(l, Begin(p, o, lines)) {
        var q :| q in l.begun && Serves(l.begun[q]) * items != {};
        assert !(Serves(l'.begun[q]) !! Serves(l'.begun[p]));
        assert !Alone(l'.grants, l'.begun, p);
      } else {
        forall q | q in l.begun ensures Serves(l.begun[q]) !! items && items !! Serves(l.begun[q]) {
          assert Serves(l.begun[q]) * items == {};
          NoneShared(Serves(l.begun[q]), items);
        }
        hide Serves, DoBegin, Collides;
        forall q | q in l'.begun ensures Alone(l'.grants, l'.begun, q) {
          if q != p {
            assert Alone(l.grants, l.begun, q);
          }
        }
      }
    }
  }

  lemma CommitSafe(l: Ledger, p: Pid, ids: seq<GrantId>, now: Time)
    requires Safe(l)
    ensures Safe(DoCommit(l, p, ids, now))
  {
    if p in l.begun && |ids| == |Deliverables(l.begun[p].lines)| && Fresh(l.grants, ids) {
      var e := l.begun[p];
      var base := Revoked(l.grants, e.seen, now);
      var idx := Deliverables(e.lines);
      var after := AddGrants(base, e.order, idx, ids, now);
      AddGrantsExact(base, e.order, idx, ids, now);
      hide AddGrants, Extends, Deliverables, Served;
      Dims(l.grants, base, l.begun);
      CommitOneLive(l, p, base, after, ids, now);
      forall q | q in End(l.begun, p) ensures Alone(after, End(l.begun, p), q) {
        assert Alone(base, l.begun, q) && Alone(base, l.begun, p);
        OtherLines(base, after, e, ids, now, Serves(l.begun[q]));
      }
    }
  }

  lemma NewItems(base: map<GrantId, Grant>, after: map<GrantId, Grant>, e: Emission, ids: seq<GrantId>, now: Time)
    requires |ids| == |Deliverables(e.lines)| && Extends(base, after, e.order, Deliverables(e.lines), ids, now)
    ensures forall g :: g in after && g !in base ==> g in ids && after[g].item in Serves(e)
  {
    var idx := Deliverables(e.lines);
    hide Deliverables;
    forall g | g in after && g !in base ensures g in ids && after[g].item in Serves(e) {
      var k :| 0 <= k < |ids| && ids[k] == g;
      assert idx[k] in idx;
    }
  }

  lemma OtherLines(base: map<GrantId, Grant>, after: map<GrantId, Grant>, e: Emission, ids: seq<GrantId>, now: Time,
                   items: set<ItemKey>)
    requires |ids| == |Deliverables(e.lines)| && Extends(base, after, e.order, Deliverables(e.lines), ids, now)
    requires Serves(e) !! items
    ensures LiveOn(after, items) <= LiveOn(base, items)
  {
    NewItems(base, after, e, ids, now);
    assert forall g :: g in base ==> g in after && after[g] == base[g];
    hide Extends, Serves;
  }

  lemma CommitOneLive(l: Ledger, p: Pid, base: map<GrantId, Grant>, after: map<GrantId, Grant>, ids: seq<GrantId>,
                      now: Time)
    requires Safe(l) && p in l.begun && base == Revoked(l.grants, l.begun[p].seen, now) && OneLive(base)
    requires |ids| == |Deliverables(l.begun[p].lines)|
    requires Extends(base, after, l.begun[p].order, Deliverables(l.begun[p].lines), ids, now)
    ensures OneLive(after)
  {
    var e := l.begun[p];
    var idx := Deliverables(e.lines);
    DeliverablesExact(e.lines, 0);
    assert NoDup(idx);
    assert Alone(l.grants, l.begun, p);
    hide Deliverables, Extends, OneLive;
    forall g, i | g in base && i in idx && base[g].item == ItemKey(e.order, i) ensures !Live(base[g]) {
      assert ItemKey(e.order, i) in Serves(e);
      assert Live(l.grants[g]) ==> g in LiveOn(l.grants, Serves(e));
    }
    ExtendsOneLive(base, after, e.order, idx, ids, now);
  }

  lemma AbortSafe(l: Ledger, p: Pid)
    requires Safe(l)
    ensures Safe(l.(begun := End(l.begun, p)))
  {
    hide Serves, LiveOn, OneLive;
    forall q | q in End(l.begun, p) ensures Alone(l.grants, End(l.begun, p), q) {
      assert Alone(l.grants, l.begun, q);
    }
  }

  /** One half of a transaction, a refund or a download: safety is lost exactly by such a beginning. */
  lemma MoveKeepsSafe(l: Ledger, m: Move)
    requires Safe(l)
    ensures Safe(Do(l, m)) <==> !Collides(l, m)
  {
    match m
    case Begin(p, o, lines) => BeginSafe(l, p, o, lines);
    case Commit(p, ids, now) => CommitSafe(l, p, ids, now);
    case Abort(p) => AbortSafe(l, p);
    case Revoke(items, now) => Dims(l.grants, RevokeLive(l.grants, items, now), l.begun);
    case Count(g) => if g in l.grants { Dims(l.grants, CountDownload(l.grants, g), l.begun); }
  }

  predicate NoCollision(l: Ledger, moves: seq<Move>) {
    forall k :: 0 <= k < |moves| ==> !Collides(DoAll(l, moves[..k]), moves[k])
  }

  lemma {:induction false} MovesKeepSafe(l: Ledger, moves: seq<Move>)
    requires Safe(l) && NoCollision(l, moves)
    ensures Safe(DoAll(l, moves))
  {
    hide Safe, Do, Collides;
    if moves != [] {
      var n := |moves| - 1;
      assert moves[..n+1] == moves;
      assert forall k :: 0 <= k < n ==> moves[..n][..k] == moves[..k];
      MovesKeepSafe(l, moves[..n]);
      MoveKeepsSafe(DoAll(l, moves[..n]), moves[n]);
    }
  }

  /** Over every run in which no transaction begins on a line another is serving: one live link per line. */
  lemma OneLinkUnlessCollision(moves: seq<Move>)
    requires NoCollision(EMPTY, moves)
    ensures OneLive(DoAll(EMPTY, moves).grants)
  {
    assert Safe(EMPTY);
    hide DoAll;
    MovesKeepSafe(EMPTY, moves);
  }

  // ---------------------------------------------------------------- every collision costs a line its promise

  lemma Committed(l: Ledger, p: Pid, ids: seq<GrantId>, now: Time, item: ItemKey)
    requires p in l.begun && |ids| == |Deliverables(l.begun[p].lines)| && Fresh(l.grants, ids)
    requires item in Serves(l.begun[p])
    ensures var l' := DoCommit(l, p, ids, now);
            && l'.begun == End(l.begun, p) && l'.grants.Keys == l.grants.Keys + ToSet(ids)
            && (exists g :: g in ids && g in l'.grants && Live(l'.grants[g]) && l'.grants[g].item == item)
            && (forall g :: g in l.grants && g !in l.begun[p].seen ==> l'.grants[g] == l.grants[g])
  {
    var e := l.begun[p];
    var base := Revoked(l.grants, e.seen, now);
    var idx := Deliverables(e.lines);
    var after := AddGrants(base, e.order, idx, ids, now);
    AddGrantsExact(base, e.order, idx, ids, now);
    hide AddGrants, Deliverables;
    var i :| i in idx && item == ItemKey(e.order, i);
    var k :| 0 <= k < |idx| && idx[k] == i;
    assert ids[k] in ids && after[ids[k]] == NewGrant(item, now);
  }

  lemma FreshIds(grants: map<GrantId, Grant>, n: nat) returns (ids: seq<GrantId>)
    ensures |ids| == n && Fresh(grants, ids)
  {
    var base := Unused(grants.Keys);
    ids := seq(n, i => base + i);
    forall g | g in ids ensures g !in grants {
      assert g >= base;
      assert g !in grants.Keys;
    }
  }

  /** A line served by two transactions at once, the later one blind to what the earlier adds. */
  lemma BothCommit(l: Ledger, p: Pid, q: Pid, item: ItemKey) returns (first: seq<GrantId>, second: seq<GrantId>)
    requires p in l.begun && q in l.begun && p != q && item in Serves(l.begun[p]) * Serves(l.begun[q])
    requires l.begun[p].seen <= l.grants.Keys
    ensures var l' := DoCommit(DoCommit(l, q, first, 0), p, second, 0); !OneLive(l'.grants)
  {
    hide OneLive, Serves, Deliverables, DoCommit;
    first := FreshIds(l.grants, |Deliverables(l.begun[q].lines)|);
    Committed(l, q, first, 0, item);
    var l1 := DoCommit(l, q, first, 0);
    var a :| a in first && a in l1.grants && Live(l1.grants[a]) && l1.grants[a].item == item;
    assert a !in l.grants.Keys && l1.begun[p] == l.begun[p];
    second := FreshIds(l1.grants, |Deliverables(l1.begun[p].lines)|);
    Committed(l1, p, second, 0, item);
    var l2 := DoCommit(l1, p, second, 0);
    var b :| b in second && b in l2.grants && Live(l2.grants[b]) && l2.grants[b].item == item;
    TwoLive(l2.grants, a, b);
  }

  /** Both transactions of a collision commit, one after the other, and a line has two live links. */
  lemma CollisionDoubles(l: Ledger, m: Move) returns (q: Pid, first: seq<GrantId>, second: seq<GrantId>)
    requires Safe(l) && Collides(l, m)
    ensures var l' := Do(Do(Do(l, m), Commit(q, first, 0)), Commit(m.p, second, 0)); !OneLive(l'.grants)
  {
    q :| q in l.begun && Serves(l.begun[q]) * Served(m.order, m.lines) != {};
    var item :| item in Serves(l.begun[q]) * Served(m.order, m.lines);
    var l1 := DoBegin(l, m.p, m.order, m.lines);
    assert Serves(l1.begun[m.p]) == Served(m.order, m.lines);
    assert l1.begun[m.p].seen <= l1.grants.Keys;
    hide Serves, Served, DoCommit, OneLive;
    first, second := BothCommit(l1, m.p, q, item);
  }

  lemma TwoLive(grants: map<GrantId, Grant>, a: GrantId, b: GrantId)
    requires a in grants && b in grants && a != b && Live(grants[a]) && Live(grants[b])
    requires grants[a].item == grants[b].item
    ensures !OneLive(grants)
  {
  }

  /** A transaction nobody comes between is the emission of the other model. */
  lemma EmissionIsTwoHalves(l: Ledger, p: Pid, o: OrderId, lines: seq<Line>, ids: seq<GrantId>, now: Time)
    requires p !in l.begun && Deliverables(lines) != [] && |ids| == |Deliverables(lines)| && Fresh(l.grants, ids)
    ensures var l' := Do(Do(l, Begin(p, o, lines)), Commit(p, ids, now));
            l'.grants == EmitLinks(l.grants, o, lines, ids, now) && l'.begun == l.begun
  {
    var items := set i | i in Deliverables(lines) :: ItemKey(o, i);
    assert items == Served(o, lines);
    hide Deliverables, AddGrants;
    assert Revoked(l.grants, LiveOn(l.grants, items), now) == RevokeLive(l.grants, items, now);
    assert End(l.begun[p := Emission(o, lines, LiveOn(l.grants, items))], p) == l.begun;
  }
}
