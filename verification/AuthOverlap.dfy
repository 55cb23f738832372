/**
 * Logins and refreshes call by call, with anything in between: which overlaps hurt
 * the lineage of tokens, and which let a session outlive a password change.
 */
module AuthOverlap {
  import opened Prelude
  import opened Auth

  type Pid = nat

  /** A request that was let in and has not written yet: a login, a refresh, a change of password. */
  datatype Flight =
    | Entering(user: UserId)
    | Rotating(token: Token, revoked: bool)
    | Changing(user: UserId, current: string, new': string)

  datatype Office = Office(s: Sessions, flights: map<Pid, Flight>)

  const EMPTY := Office(NOBODY, map[])

  datatype Move =
    | Whole(r: Request)
    | CheckLogin(p: Pid, user: UserId, password: string)
    | Present(p: Pid, raw: Option<Token>, now: Time)
    | Revoke(p: Pid, now: Time)
    | Store(p: Pid, minted: Token, now: Time)
    | CheckChange(p: Pid, user: UserId, current: string, new': string)
    | CommitChange(p: Pid, now: Time)
    | Die(p: Pid)

  function Landed(flights: map<Pid, Flight>, p: Pid): map<Pid, Flight> {
    map q | q in flights && q != p :: flights[q]
  }

  function DoPresent(w: Office, p: Pid, raw: Option<Token>, now: Time): Office {
    if p in w.flights then w
    else if Granted(w.s, raw, now) then w.(flights := w.flights[p := Rotating(raw.value, false)])
    else w.(s := Refresh(w.s, raw, 0, now).0)
  }

  function DoRevoke(w: Office, p: Pid, now: Time): Office {
    if p !in w.flights || !w.flights[p].Rotating? || w.flights[p].token !in w.s.tokens then w
    else
      var t := w.flights[p].token;
      if w.flights[p].revoked then w
      else Office(w.s.(tokens := w.s.tokens[t := w.s.tokens[t].(revokedAt := Some(now))]),
                  w.flights[p := Rotating(t, true)])
  }

  function Enter(s: Sessions, u: UserId, minted: Token, now: Time): Sessions {
    s.(tokens := Issue(s.tokens, u, minted, now), root := s.root[minted := minted])
  }

  function Succeed(s: Sessions, t: Token, minted: Token, now: Time): Sessions
    requires t in s.tokens
  {
    s.(tokens := Issue(s.tokens, s.tokens[t].userId, minted, now),
       next := s.next[t := minted],
       root := s.root[minted := if t in s.root then s.root[t] else t])
  }

  function DoStore(w: Office, p: Pid, minted: Token, now: Time): Office {
    if p !in w.flights || minted in w.s.tokens then w
    else
      match w.flights[p]
      case Entering(u) => Office(Enter(w.s, u, minted, now), Landed(w.flights, p))
      case Rotating(t, revoked) =>
        if !revoked || t !in w.s.tokens then w
        else Office(Succeed(w.s, t, minted, now), Landed(w.flights, p))
      case Changing(_, _, _) => w
  }

  /** Both comparisons are made on the row read first; the transaction does not look at it again. */
  function DoCheckChange(w: Office, p: Pid, u: UserId, current: string, new': string): Office {
    if p in w.flights || !CredentialsOk(w.s, u, current) || new' == current then w
    else w.(flights := w.flights[p := Changing(u, current, new')])
  }

  function DoCommitChange(w: Office, p: Pid, now: Time): Office {
    if p !in w.flights || !w.flights[p].Changing? then w
    else
      var Changing(u, _, new') := w.flights[p];
      if u !in w.s.users then w.(flights := Landed(w.flights, p))
      else Office(w.s.(users := w.s.users[u := w.s.users[u].(password := new', mustChange := false)],
                       tokens := RevokeAll(w.s.tokens, u, now)),
                  Landed(w.flights, p))
  }

  function Do(w: Office, m: Move): Office {
    match m
    case Whole(r) => if r.DoLogin? || r.DoRefresh? || r.DoChange? then w else w.(s := Serve(w.s, r))
    case CheckLogin(p, u, password) =>
      if p in w.flights || !CredentialsOk(w.s, u, password) then w else w.(flights := w.flights[p := Entering(u)])
    case Present(p, raw, now) => DoPresent(w, p, raw, now)
    case Revoke(p, now) => DoRevoke(w, p, now)
    case Store(p, minted, now) => DoStore(w, p, minted, now)
    case CheckChange(p, u, current, new') => DoCheckChange(w, p, u, current, new')
    case CommitChange(p, now) => DoCommitChange(w, p, now)
    case Die(p) => w.(flights := Landed(w.flights, p))
  }

  function DoAll(w: Office, moves: seq<Move>): Office {
    if moves == [] then w else Do(DoAll(w, moves[..|moves|-1]), moves[|moves|-1])
  }

  // ---------------------------------------------------------------- what holds whatever overlaps

  ghost predicate FlightsOk(tokens: map<Token, Stored>, flights: map<Pid, Flight>) {
    forall p :: p in flights && flights[p].Rotating? ==>
      && flights[p].token in tokens
      && (flights[p].revoked ==> tokens[flights[p].token].revokedAt.Some?)
  }

  /** Links and roots, and every flight's token is there; this asks nothing of the overlaps. */
  ghost predicate Ok(w: Office) {
    LinksOk(w.s.tokens, w.s.next, w.s.root) && RootsKnown(w.s) && FlightsOk(w.s.tokens, w.flights)
  }

  /** Rows stay, of the same user, and what was revoked stays revoked. */
  ghost predicate Dimmed(tokens: map<Token, Stored>, after: map<Token, Stored>) {
    && after.Keys == tokens.Keys
    && forall t :: t in tokens ==>
         && after[t].userId == tokens[t].userId
         && (after[t].revokedAt.None? ==> tokens[t].revokedAt.None?)
  }

  lemma DimmedOk(w: Office, s': Sessions, flights: map<Pid, Flight>)
    requires Ok(w) && Dimmed(w.s.tokens, s'.tokens) && s'.next == w.s.next && s'.root == w.s.root
    requires FlightsOk(s'.tokens, flights)
    ensures Ok(Office(s', flights))
  {
  }

  lemma RefusedDims(s: Sessions, raw: Option<Token>, now: Time)
    requires !Granted(s, raw, now)
    ensures var s' := Refresh(s, raw, 0, now).0; Dimmed(s.tokens, s'.tokens) && s'.next == s.next && s'.root == s.root
  {
  }

  lemma WholeDims(s: Sessions, r: Request)
    requires !r.DoLogin? && !r.DoRefresh?
    ensures var s' := Serve(s, r); Dimmed(s.tokens, s'.tokens) && s'.next == s.next && s'.root == s.root
  {
  }

  lemma EnterOk(s: Sessions, u: UserId, minted: Token, now: Time)
    requires LinksOk(s.tokens, s.next, s.root) && RootsKnown(s) && minted !in s.tokens
    ensures var s' := Enter(s, u, minted, now); LinksOk(s'.tokens, s'.next, s'.root) && RootsKnown(s')
  {
    assert s.root[minted := minted].Values <= s.root.Values + {minted};
  }

  lemma SucceedOk(s: Sessions, t: Token, minted: Token, now: Time)
    requires LinksOk(s.tokens, s.next, s.root) && RootsKnown(s)
    requires t in s.tokens && s.tokens[t].revokedAt.Some? && minted !in s.tokens
    ensures var s' := Succeed(s, t, minted, now); LinksOk(s'.tokens, s'.next, s'.root) && RootsKnown(s')
  {
    assert s.root[t] in s.root.Values;
    assert s.root[minted := s.root[t]].Values <= s.root.Values;
    hide RootsKnown;
  }

  /** Every move, whatever it overlaps with, keeps the links and the roots. */
  lemma MoveKeepsOk(w: Office, m: Move)
    requires Ok(w)
    ensures Ok(Do(w, m))
  {
    hide LinksOk, RootsKnown, Dimmed, Serve, Refresh, Enter, Succeed;
    match m
    case Whole(r) =>
      if !r.DoLogin? && !r.DoRefresh? && !r.DoChange? {
        WholeDims(w.s, r);
        DimmedFlights(w, Serve(w.s, r));
      }
    case Present(p, raw, now) =>
      if p !in w.flights && !Granted(w.s, raw, now) {
        RefusedDims(w.s, raw, now);
        DimmedFlights(w, Refresh(w.s, raw, 0, now).0);
      }
    case Revoke(p, now) => RevokeKeepsOk(w, p, now);
    case Store(p, minted, now) => StoreKeepsOk(w, p, minted, now);
    case CommitChange(p, now) => ChangeKeepsOk(w, p, now);
    case _ =>
  }

  lemma DimmedFlights(w: Office, s': Sessions)
    requires Ok(w) && Dimmed(w.s.tokens, s'.tokens) && s'.next == w.s.next && s'.root == w.s.root
    ensures Ok(w.(s := s'))
  {
    hide LinksOk, RootsKnown;
    DimmedOk(w, s', w.flights);
  }

  lemma RevokeKeepsOk(w: Office, p: Pid, now: Time)
    requires Ok(w)
    ensures Ok(DoRevoke(w, p, now))
  {
    hide LinksOk, RootsKnown;
    var w' := DoRevoke(w, p, now);
    if w' != w {
      DimmedOk(w, w'.s, w'.flights);
    }
  }

  lemma StoreKeepsOk(w: Office, p: Pid, minted: Token, now: Time)
    requires Ok(w)
    ensures Ok(DoStore(w, p, minted, now))
  {
    hide LinksOk, RootsKnown;
    if p in w.flights && minted !in w.s.tokens {
      match w.flights[p]
      case Entering(u) => EnterOk(w.s, u, minted, now);
      case Rotating(t, revoked) => if revoked { SucceedOk(w.s, t, minted, now); }
      case Changing(_, _, _) =>
    }
  }

  lemma ChangeDims(w: Office, p: Pid, now: Time)
    ensures var s' := DoCommitChange(w, p, now).s;
            Dimmed(w.s.tokens, s'.tokens) && s'.next == w.s.next && s'.root == w.s.root
  {
  }

  lemma ChangeKeepsOk(w: Office, p: Pid, now: Time)
    requires Ok(w)
    ensures Ok(DoCommitChange(w, p, now))
  {
    hide LinksOk, RootsKnown;
    ChangeDims(w, p, now);
    DimmedOk(w, DoCommitChange(w, p, now).s, DoCommitChange(w, p, now).flights);
  }

  lemma {:induction false} MovesKeepOk(w: Office, moves: seq<Move>)
    requires Ok(w)
    ensures Ok(DoAll(w, moves))
  {
    hide Ok, Do;
    if moves != [] {
      MovesKeepOk(w, moves[..|moves|-1]);
      MoveKeepsOk(DoAll(w, moves[..|moves|-1]), moves[|moves|-1]);
    }
  }

  lemma ReachableIsOk(moves: seq<Move>)
    ensures Ok(DoAll(EMPTY, moves))
  {
    assert Ok(EMPTY);
    hide Ok, DoAll;
    MovesKeepOk(EMPTY, moves);
  }

  // ---------------------------------------------------------------- which overlaps hurt the lineage

  predicate RotatesIn(w: Office, p: Pid, r: Token) {
    p in w.flights && w.flights[p].Rotating? && w.flights[p].token in w.s.root && w.s.root[w.flights[p].token] == r
  }

  /** One refresh in flight per chain, and the only live token of that chain is the one it holds. */
  ghost predicate Exclusive(w: Office) {
    && (forall p, q, r :: RotatesIn(w, p, r) && RotatesIn(w, q, r) ==> p == q)
    && (forall p, r, x :: RotatesIn(w, p, r) && Alive(w.s, x) && x in w.s.root && w.s.root[x] == r ==>
          x == w.flights[p].token)
  }

  ghost predicate Safe(w: Office) {
    Ok(w) && ChainsOk(w.s.tokens, w.s.root) && Exclusive(w)
  }

  /** A refresh let in on a token that another refresh already holds. */
  predicate Collides(w: Office, m: Move) {
    && m.Present? && m.p !in w.flights && Granted(w.s, m.raw, m.now)
    && exists q :: q in w.flights && w.flights[q].Rotating? && w.flights[q].token == m.raw.value
  }

  lemma DimmedSafe(w: Office, s': Sessions, flights: map<Pid, Flight>)
    requires Safe(w) && Dimmed(w.s.tokens, s'.tokens) && s'.next == w.s.next && s'.root == w.s.root
    requires forall p :: p in flights && flights[p].Rotating? ==>
               p in w.flights && w.flights[p].Rotating? && w.flights[p].token == flights[p].token
    ensures ChainsOk(s'.tokens, s'.root) && Exclusive(Office(s', flights))
  {
    var w' := Office(s', flights);
    hide LinksOk, RootsKnown;
    forall p, q, r | RotatesIn(w', p, r) && RotatesIn(w', q, r) ensures p == q {
      assert RotatesIn(w, p, r) && RotatesIn(w, q, r);
    }
    forall p, r, x | RotatesIn(w', p, r) && Alive(s', x) && x in s'.root && s'.root[x] == r
      ensures x == flights[p].token
    {
      assert RotatesIn(w, p, r) && Alive(w.s, x);
    }
  }

  lemma PresentSafe(w: Office, p: Pid, raw: Option<Token>, now: Time)
    requires Safe(w) && p !in w.flights && Granted(w.s, raw, now)
    ensures Exclusive(DoPresent(w, p, raw, now)) <==> !Collides(w, Present(p, raw, now))
  {
    var t := raw.value;
    var w' := DoPresent(w, p, raw, now);
    assert t in w.s.root by { assert w.s.root.Keys == w.s.tokens.Keys; }
    hide LinksOk, RootsKnown;
    if Collides(w, Present(p, raw, now)) {
      var q :| q in w.flights && w.flights[q].Rotating? && w.flights[q].token == t;
      assert RotatesIn(w', p, w.s.root[t]) && RotatesIn(w', q, w.s.root[t]);
    } else {
      forall q, r | RotatesIn(w', q, r) && q != p ensures r != w.s.root[t] {
        assert RotatesIn(w, q, r);
      }
      forall q, o, r | RotatesIn(w', q, r) && RotatesIn(w', o, r) && q != p && o != p ensures q == o {
        assert RotatesIn(w, q, r) && RotatesIn(w, o, r);
      }
      forall q, r, x | RotatesIn(w', q, r) && Alive(w.s, x) && x in w.s.root && w.s.root[x] == r
        ensures x == w'.flights[q].token
      {
        if q != p { assert RotatesIn(w, q, r); }
      }
    }
  }

  lemma EnterSafe(w: Office, p: Pid, minted: Token, now: Time)
    requires Safe(w) && p in w.flights && w.flights[p].Entering? && minted !in w.s.tokens
    ensures var w' := DoStore(w, p, minted, now); ChainsOk(w'.s.tokens, w'.s.root) && Exclusive(w')
  {
    var w' := DoStore(w, p, minted, now);
    assert w.s.root.Keys == w.s.tokens.Keys;
    assert forall x :: x in w.s.root ==> w.s.root[x] != minted by { RootNotMinted(w.s, minted); }
    hide LinksOk, RootsKnown;
    forall q, r | RotatesIn(w', q, r) ensures RotatesIn(w, q, r) && r != minted && q != p {
      assert w.flights[q].token in w.s.tokens;
    }
    assert forall x :: Alive(w'.s, x) && x != minted ==> Alive(w.s, x) && w'.s.root[x] == w.s.root[x];
  }

  lemma RootNotMinted(s: Sessions, minted: Token)
    requires RootsKnown(s) && minted !in s.tokens
    ensures forall x :: x in s.root ==> s.root[x] != minted
  {
    forall x | x in s.root ensures s.root[x] != minted {
      assert s.root[x] in s.root.Values;
    }
  }

  lemma SucceedSafe(w: Office, p: Pid, minted: Token, now: Time)
    requires Safe(w) && p in w.flights && w.flights[p].Rotating? && w.flights[p].revoked && minted !in w.s.tokens
    ensures var w' := DoStore(w, p, minted, now); ChainsOk(w'.s.tokens, w'.s.root) && Exclusive(w')
  {
    var t := w.flights[p].token;
    var w' := DoStore(w, p, minted, now);
    assert w.s.root.Keys == w.s.tokens.Keys;
    hide LinksOk, RootsKnown;
    var chain := w.s.root[t];
    assert RotatesIn(w, p, chain);
    forall q, r | RotatesIn(w', q, r) ensures RotatesIn(w, q, r) && r != chain && q != p {
      assert w.flights[q].token in w.s.tokens;
      assert RotatesIn(w, q, r);
    }
    forall x | Alive(w'.s, x) && x != minted
      ensures Alive(w.s, x) && x in w.s.root && w'.s.root[x] == w.s.root[x] != chain
    {
    }
  }

  /** Exactly one kind of overlap hurts: two refreshes let in on one token. Every other move keeps everything. */
  lemma MoveKeepsSafe(w: Office, m: Move)
    requires Safe(w)
    ensures Safe(Do(w, m)) <==> !Collides(w, m)
  {
    MoveKeepsOk(w, m);
    hide Ok, Exclusive, ChainsOk, Serve, Refresh, Dimmed, Granted;
    match m
    case Whole(r) =>
      if !r.DoLogin? && !r.DoRefresh? && !r.DoChange? {
        WholeDims(w.s, r);
        DimmedSafe(w, Serve(w.s, r), w.flights);
      }
    case CheckLogin(p, u, password) => SameTables(w.s); DimmedSafe(w, w.s, Do(w, m).flights);
    case Present(p, raw, now) =>
      if p !in w.flights {
        if Granted(w.s, raw, now) {
          PresentSafe(w, p, raw, now);
        } else {
          RefusedDims(w.s, raw, now);
          DimmedSafe(w, Refresh(w.s, raw, 0, now).0, w.flights);
        }
      }
    case Revoke(p, now) =>
      RevokeDims(w, p, now);
      DimmedSafe(w, Do(w, m).s, Do(w, m).flights);
    case Store(p, minted, now) =>
      if p in w.flights && minted !in w.s.tokens {
        if w.flights[p].Entering? {
          EnterSafe(w, p, minted, now);
        } else if w.flights[p].Rotating? && w.flights[p].revoked {
          SucceedSafe(w, p, minted, now);
        }
      }
    case CheckChange(p, u, current, new') => SameTables(w.s); DimmedSafe(w, w.s, Do(w, m).flights);
    case CommitChange(p, now) => ChangeDims(w, p, now); DimmedSafe(w, Do(w, m).s, Do(w, m).flights);
    case Die(p) => SameTables(w.s); DimmedSafe(w, w.s, Do(w, m).flights);
  }

  lemma SameTables(s: Sessions)
    ensures Dimmed(s.tokens, s.tokens)
  {
  }

  lemma RevokeDims(w: Office, p: Pid, now: Time)
    ensures var s' := DoRevoke(w, p, now).s; Dimmed(w.s.tokens, s'.tokens) && s'.next == w.s.next && s'.root == w.s.root
  {
  }

  predicate NoCollision(w: Office, moves: seq<Move>) {
    forall k :: 0 <= k < |moves| ==> !Collides(DoAll(w, moves[..k]), moves[k])
  }

  lemma {:induction false} MovesKeepSafe(w: Office, moves: seq<Move>)
    requires Safe(w) && NoCollision(w, moves)
    ensures Safe(DoAll(w, moves))
  {
    hide Safe, Do, Collides;
    if moves != [] {
      var n := |moves| - 1;
      assert moves[..n+1] == moves;
      assert forall k :: 0 <= k < n ==> moves[..n][..k] == moves[..k];
      MovesKeepSafe(w, moves[..n]);
      MoveKeepsSafe(DoAll(w, moves[..n]), moves[n]);
    }
  }

  /** Over every run, with any overlaps but those: of the tokens descending from one login at most one is alive. */
  lemma OneLiveTokenUnlessCollision(moves: seq<Move>, a: Token, b: Token)
    requires NoCollision(EMPTY, moves)
    ensures var s := DoAll(EMPTY, moves).s;
            Alive(s, a) && Alive(s, b) ==> a in s.root && b in s.root && (s.root[a] == s.root[b] ==> a == b)
  {
    assert Safe(EMPTY);
    hide DoAll;
    MovesKeepSafe(EMPTY, moves);
  }

  /** Only the requests already in flight, and whole requests, move: no new refresh is let in. */
  predicate NothingPresented(moves: seq<Move>) {
    forall k :: 0 <= k < |moves| ==> !moves[k].Present?
  }

  lemma Follow(w: Office, moves: seq<Move>, m: Move)
    ensures DoAll(w, moves + [m]) == Do(DoAll(w, moves), m)
  {
    hide Do;
    assert (moves + [m])[..|moves + [m]|-1] == moves;
  }

  /** The two calls a refresh still has to make. */
  function Finish(p: Pid, minted: Token): seq<Move> {
    [] + [Revoke(p, 0)] + [Store(p, minted, 0)]
  }

  lemma FinishRuns(w: Office, p: Pid, minted: Token)
    ensures DoAll(w, Finish(p, minted)) == Do(Do(w, Revoke(p, 0)), Store(p, minted, 0))
    ensures NothingPresented(Finish(p, minted))
  {
    hide Do;
    assert DoAll(w, []) == w;
    Follow(w, [], Revoke(p, 0));
    Follow(w, [] + [Revoke(p, 0)], Store(p, minted, 0));
  }

  /** Tables and other flights after one call of flight p: the chain's own token may go, the rest stays. */
  ghost predicate OnlyTouches(w: Office, w': Office, p: Pid, t: Token) {
    && (forall x :: x in w.s.root ==> x in w'.s.root && w'.s.root[x] == w.s.root[x])
    && (forall x :: Alive(w.s, x) && x != t ==> Alive(w'.s, x))
    && (forall q :: q in w.flights && q != p ==> q in w'.flights && w'.flights[q] == w.flights[q])
  }

  lemma RevokeCall(w: Office, p: Pid)
    requires Ok(w) && p in w.flights && w.flights[p].Rotating?
    ensures var w' := Do(w, Revoke(p, 0));
            var t := w.flights[p].token;
            && Ok(w') && OnlyTouches(w, w', p, t) && p in w'.flights && w'.flights[p] == Rotating(t, true)
            && t in w.s.tokens && w'.s.tokens.Keys == w.s.tokens.Keys && w'.s.root == w.s.root
            && w'.s.tokens[t].userId == w.s.tokens[t].userId
  {
    MoveKeepsOk(w, Revoke(p, 0));
    hide LinksOk, RootsKnown;
  }

  lemma StoreCall(w: Office, p: Pid, minted: Token)
    requires Ok(w) && p in w.flights && w.flights[p].Rotating? && w.flights[p].revoked && minted !in w.s.tokens
    ensures var w' := Do(w, Store(p, minted, 0));
            var t := w.flights[p].token;
            && Ok(w') && OnlyTouches(w, w', p, t) && Alive(w'.s, minted) && t in w.s.root
            && minted in w'.s.root && w'.s.root[minted] == w.s.root[t]
            && w'.s.tokens.Keys == w.s.tokens.Keys + {minted}
            && w'.s.tokens[minted].userId == w.s.tokens[t].userId
  {
    MoveKeepsOk(w, Store(p, minted, 0));
    assert w.s.root.Keys == w.s.tokens.Keys;
    hide LinksOk, RootsKnown;
  }

  /** Left alone, a refresh in flight adds one live token to its chain and takes away only its own. */
  lemma Finished(w: Office, p: Pid, r: Token, minted: Token)
    requires Ok(w) && RotatesIn(w, p, r) && minted !in w.s.tokens
    ensures var w' := DoAll(w, Finish(p, minted));
            && Ok(w') && OnlyTouches(w, w', p, w.flights[p].token)
            && Alive(w'.s, minted) && minted in w'.s.root && w'.s.root[minted] == r
            && w'.s.tokens.Keys == w.s.tokens.Keys + {minted}
            && w'.s.tokens[minted].userId == w.s.tokens[w.flights[p].token].userId
  {
    hide Ok, Do, DoAll;
    FinishRuns(w, p, minted);
    RevokeCall(w, p);
    StoreCall(Do(w, Revoke(p, 0)), p, minted);
  }

  /**
   * Safe is exactly what it takes: if two refreshes are in flight in one chain,
   * or a live token of the chain is not the one in flight, then finishing what
   * is in flight leaves two live tokens in one chain.
   */
  lemma ExclusiveExactly(w: Office)
    requires Ok(w) && ChainsOk(w.s.tokens, w.s.root)
    ensures Exclusive(w) <==>
              forall more :: NothingPresented(more) ==> ChainsOk(DoAll(w, more).s.tokens, DoAll(w, more).s.root)
  {
    if Exclusive(w) {
      forall more | NothingPresented(more) ensures ChainsOk(DoAll(w, more).s.tokens, DoAll(w, more).s.root) {
        NothingCollides(w, more);
        MovesKeepSafe(w, more);
      }
    } else {
      var more := Branching(w);
    }
  }

  /** A collision can always be finished into two live tokens of one login. */
  lemma CollisionBranches(w: Office, m: Move)
    requires Safe(w) && Collides(w, m)
    ensures exists more :: NothingPresented(more)
              && !ChainsOk(DoAll(Do(w, m), more).s.tokens, DoAll(Do(w, m), more).s.root)
  {
    MoveKeepsSafe(w, m);
    MoveKeepsOk(w, m);
    assert Do(w, m).s == w.s;
    hide Do, DoAll, Ok, Exclusive, ChainsOk;
    ExclusiveExactly(Do(w, m));
  }

  lemma NothingCollides(w: Office, more: seq<Move>)
    requires NothingPresented(more)
    ensures NoCollision(w, more)
  {
    hide DoAll;
  }

  /** A live token beside the one in flight: finishing the flight makes two. */
  lemma LiveBeside(w: Office, p: Pid, r: Token, x: Token) returns (more: seq<Move>)
    requires Ok(w) && RotatesIn(w, p, r) && x != w.flights[p].token
    requires Alive(w.s, x) && x in w.s.root && w.s.root[x] == r
    ensures NothingPresented(more) && !ChainsOk(DoAll(w, more).s.tokens, DoAll(w, more).s.root)
  {
    hide DoAll, Ok;
    var a := Unused(w.s.tokens.Keys);
    more := Finish(p, a);
    Finished(w, p, r, a);
    FinishRuns(w, p, a);
    var s' := DoAll(w, more).s;
    assert Alive(s', a) && Alive(s', x) && s'.root[a] == s'.root[x];
  }

  /** Two flights in one chain: finishing both makes two live tokens. */
  lemma FlightBeside(w: Office, p: Pid, q: Pid, r: Token) returns (more: seq<Move>)
    requires Ok(w) && RotatesIn(w, p, r) && RotatesIn(w, q, r) && p != q
    ensures NothingPresented(more) && !ChainsOk(DoAll(w, more).s.tokens, DoAll(w, more).s.root)
  {
    hide DoAll, Ok;
    var a := Unused(w.s.tokens.Keys);
    Finished(w, p, r, a);
    var w1 := DoAll(w, Finish(p, a));
    assert RotatesIn(w1, q, r);
    var b := Unused(w1.s.tokens.Keys);
    assert a in w1.s.tokens.Keys && b !in w1.s.tokens;
    assert w1.flights[q].token != a by { FlightToken(w, q); }
    Finished(w1, q, r, b);
    FinishRuns(w, p, a);
    FinishRuns(w1, q, b);
    Joined(w, Finish(p, a), Finish(q, b));
    more := Finish(p, a) + Finish(q, b);
    BothQuiet(Finish(p, a), Finish(q, b));
    var s' := DoAll(w, more).s;
    assert Alive(s', a) && Alive(s', b) && s'.root[a] == s'.root[b];
  }

  lemma FlightToken(w: Office, q: Pid)
    requires Ok(w) && q in w.flights && w.flights[q].Rotating?
    ensures w.flights[q].token in w.s.tokens
  {
  }

  lemma BothQuiet(first: seq<Move>, more: seq<Move>)
    requires NothingPresented(first) && NothingPresented(more)
    ensures NothingPresented(first + more)
  {
  }

  lemma Branching(w: Office) returns (more: seq<Move>)
    requires Ok(w) && !Exclusive(w)
    ensures NothingPresented(more) && !ChainsOk(DoAll(w, more).s.tokens, DoAll(w, more).s.root)
  {
    hide DoAll, Ok, ChainsOk, NothingPresented;
    if p, r, x :| RotatesIn(w, p, r) && Alive(w.s, x) && x in w.s.root && w.s.root[x] == r && x != w.flights[p].token {
      more := LiveBeside(w, p, r, x);
    } else {
      var p, q, r :| RotatesIn(w, p, r) && RotatesIn(w, q, r) && p != q;
      more := FlightBeside(w, p, q, r);
    }
  }

  lemma {:induction false} Joined(w: Office, first: seq<Move>, more: seq<Move>)
    ensures DoAll(w, first + more) == DoAll(DoAll(w, first), more)
    decreases |more|
  {
    hide Do;
    if more == [] {
      assert first + more == first;
    } else {
      Joined(w, first, more[..|more|-1]);
      assert (first + more)[..|first + more|-1] == first + more[..|more|-1];
    }
  }

  /** Two refreshes that read before either writes keep the lineage exactly when they hold different tokens. */
  lemma TwoRotations(s: Sessions, t: Token, other: Token, a: Token, b: Token, now: Time, later: Time)
    requires Lineage(s) && RootsKnown(s) && Alive(s, t) && Alive(s, other)
    requires a !in s.tokens && b !in s.tokens && a != b
    ensures var s' := Rotate(Rotate(s, t, a, now), other, b, later);
            ChainsOk(s'.tokens, s'.root) <==> t != other
  {
    var s' := Rotate(Rotate(s, t, a, now), other, b, later);
    assert s.root.Keys == s.tokens.Keys;
    hide RootsKnown, LinksOk;
    assert s'.root[a] == s.root[t] && s'.root[b] == s.root[other] && Alive(s', b);
    if t == other {
      assert Alive(s', a);
    } else {
      assert s.root[t] != s.root[other];
      forall x | Alive(s', x) && x != a && x != b
        ensures Alive(s, x) && s'.root[x] == s.root[x] && s.root[x] != s.root[t] && s.root[x] != s.root[other]
      {
      }
    }
  }

  // ---------------------------------------------------------------- which overlaps outlive a password change

  /** Somebody let in before still has a token to store for this user. */
  predicate InFlight(w: Office, u: UserId) {
    exists p :: p in w.flights && ForUser(w, p, u)
  }

  predicate ForUser(w: Office, p: Pid, u: UserId)
    requires p in w.flights
  {
    match w.flights[p]
    case Entering(user) => user == u
    case Rotating(t, _) => t in w.s.tokens && w.s.tokens[t].userId == u
    case Changing(_, _, _) => false
  }

  /** Nobody logs in as this user again; anything else may happen, refreshes included. */
  predicate NoEntry(moves: seq<Move>, u: UserId) {
    forall k :: 0 <= k < |moves| ==> !(moves[k].CheckLogin? && moves[k].user == u)
  }

  predicate Closed(w: Office, u: UserId) {
    LiveOf(w.s, u) == {} && !InFlight(w, u)
  }

  lemma MoveKeepsClosed(w: Office, m: Move, u: UserId)
    requires Ok(w) && Closed(w, u) && !(m.CheckLogin? && m.user == u)
    ensures Closed(Do(w, m), u)
  {
    var w' := Do(w, m);
    assert forall t :: t in w.s.tokens && w.s.tokens[t].userId == u ==> !Alive(w.s, t) by {
      forall t | t in w.s.tokens && w.s.tokens[t].userId == u ensures !Alive(w.s, t) {
        assert t !in LiveOf(w.s, u);
      }
    }
    assert forall p :: p in w.flights ==> !ForUser(w, p, u);
    hide Ok, RootsKnown, LinksOk;
    MoveAges(w, m);
    forall t | t in w'.s.tokens && w'.s.tokens[t].userId == u ensures !Alive(w'.s, t) { }
    forall p | p in w'.flights ensures !ForUser(w', p, u) { }
  }

  /** Users of tokens never change, revocations are for good, and only a flight adds a token. */
  lemma MoveAges(w: Office, m: Move)
    requires Ok(w)
    ensures var w' := Do(w, m);
            && (forall t :: t in w.s.tokens ==>
                  && t in w'.s.tokens && w'.s.tokens[t].userId == w.s.tokens[t].userId
                  && (Alive(w'.s, t) ==> Alive(w.s, t)))
            && (forall t :: t in w'.s.tokens && t !in w.s.tokens ==>
                  m.Store? && m.p in w.flights && ForUser(w, m.p, w'.s.tokens[t].userId))
            && (forall p :: p in w'.flights && p in w.flights ==>
                  forall u :: ForUser(w', p, u) ==> ForUser(w, p, u))
  {
    hide Refresh, Serve, LinksOk, RootsKnown;
    match m
    case Whole(r) => if !r.DoLogin? && !r.DoRefresh? && !r.DoChange? { WholeDims(w.s, r); }
    case CommitChange(p, now) => ChangeDims(w, p, now);
    case Present(p, raw, now) => if !Granted(w.s, raw, now) { RefusedDims(w.s, raw, now); }
    case _ =>
  }

  lemma {:induction false} MovesKeepClosed(w: Office, moves: seq<Move>, u: UserId)
    requires Ok(w) && Closed(w, u) && NoEntry(moves, u)
    ensures Ok(DoAll(w, moves)) && Closed(DoAll(w, moves), u)
  {
    hide Ok, Do, Closed;
    if moves != [] {
      var n := |moves| - 1;
      MovesKeepClosed(w, moves[..n], u);
      MoveKeepsOk(DoAll(w, moves[..n]), moves[n]);
      MoveKeepsClosed(DoAll(w, moves[..n]), moves[n], u);
    }
  }

  /**
   * A user without live tokens stays without a session, unless someone logs in
   * again, exactly when no login and no refresh of theirs was in flight.
   */
  lemma ClosedExactly(w: Office, u: UserId)
    requires Ok(w) && LiveOf(w.s, u) == {}
    ensures !InFlight(w, u) <==> forall more :: NoEntry(more, u) ==> LiveOf(DoAll(w, more).s, u) == {}
  {
    if !InFlight(w, u) {
      forall more | NoEntry(more, u) ensures LiveOf(DoAll(w, more).s, u) == {} {
        MovesKeepClosed(w, more, u);
      }
    } else {
      var p :| p in w.flights && ForUser(w, p, u);
      var a := Unused(w.s.tokens.Keys);
      StoresFor(w, p, u, a);
      assert NoEntry(Finish(p, a), u) && a in LiveOf(DoAll(w, Finish(p, a)).s, u);
    }
  }

  lemma StoresFor(w: Office, p: Pid, u: UserId, a: Token)
    requires Ok(w) && p in w.flights && ForUser(w, p, u) && a !in w.s.tokens
    ensures a in LiveOf(DoAll(w, Finish(p, a)).s, u)
  {
    FinishRuns(w, p, a);
    hide LinksOk, RootsKnown, DoAll;
  }

  /**
   * So a password change closes every session for good exactly when no login and
   * no refresh of that user was in flight at its commit, in every reachable state.
   */
  lemma ChangeClosesExactly(moves: seq<Move>, p: Pid, now: Time)
    requires var w := DoAll(EMPTY, moves);
             p in w.flights && w.flights[p].Changing? && w.flights[p].user in w.s.users
    ensures var w := DoAll(EMPTY, moves);
            var u := w.flights[p].user;
            var w' := Do(w, CommitChange(p, now));
            && LiveOf(w'.s, u) == {}
            && (!InFlight(w, u) <==> forall more :: NoEntry(more, u) ==> LiveOf(DoAll(w', more).s, u) == {})
  {
    var w := DoAll(EMPTY, moves);
    var w' := Do(w, CommitChange(p, now));
    var u := w.flights[p].user;
    ReachableIsOk(moves);
    MoveKeepsOk(w, CommitChange(p, now));
    CommitCloses(w, p, now);
    hide Do, DoAll, Ok, DoCommitChange;
    ClosedExactly(w', u);
  }

  lemma CommitCloses(w: Office, p: Pid, now: Time)
    requires p in w.flights && w.flights[p].Changing? && w.flights[p].user in w.s.users
    ensures var u := w.flights[p].user;
            var w' := DoCommitChange(w, p, now);
            && LiveOf(w'.s, u) == {} && (InFlight(w', u) <==> InFlight(w, u))
  {
    var u := w.flights[p].user;
    var w' := DoCommitChange(w, p, now);
    assert forall q :: q in w'.flights ==> q in w.flights && (ForUser(w', q, u) <==> ForUser(w, q, u));
    if InFlight(w, u) {
      var q :| q in w.flights && ForUser(w, q, u);
      assert q in w'.flights;
    }
  }

  // ---------------------------------------------------------------- changes that overlap

  /** The password a move writes for this user. */
  function Written(w: Office, m: Move, u: UserId): Option<string> {
    if m.CommitChange? && m.p in w.flights && w.flights[m.p].Changing? && w.flights[m.p].user == u && u in w.s.users
    then Some(w.flights[m.p].new')
    else if m.Whole? && m.r.SetUser? && m.r.user == u then Some(m.r.row.password)
    else None
  }

  /** The last password written for this user, if any was. */
  function LastWritten(w: Office, moves: seq<Move>, u: UserId): Option<string> {
    if moves == [] then None
    else
      var n := |moves| - 1;
      var last := Written(DoAll(w, moves[..n]), moves[n], u);
      if last.Some? then last else LastWritten(w, moves[..n], u)
  }

  lemma MoveWrites(w: Office, m: Move, u: UserId)
    requires u in w.s.users
    ensures var w' := Do(w, m);
            && u in w'.s.users
            && w'.s.users[u].password ==
               (if Written(w, m, u).Some? then Written(w, m, u).value else w.s.users[u].password)
  {
    hide RevokeAll, Issue, Landed, Granted;
  }

  lemma {:induction false} PasswordIsLast(w: Office, moves: seq<Move>, u: UserId)
    requires u in w.s.users
    ensures var w' := DoAll(w, moves);
            && u in w'.s.users
            && w'.s.users[u].password ==
               (if LastWritten(w, moves, u).Some? then LastWritten(w, moves, u).value else w.s.users[u].password)
  {
    hide Do, Written;
    if moves != [] {
      var n := |moves| - 1;
      PasswordIsLast(w, moves[..n], u);
      MoveWrites(DoAll(w, moves[..n]), moves[n], u);
    }
  }

  predicate LeavesAlone(moves: seq<Move>, p: Pid) {
    forall m :: m in moves ==> !(m.CommitChange? && m.p == p) && !(m.Die? && m.p == p) && !(m.Store? && m.p == p)
  }

  lemma MoveLeavesAlone(w: Office, m: Move, p: Pid)
    requires p in w.flights && w.flights[p].Changing? && LeavesAlone([m], p)
    ensures p in Do(w, m).flights && Do(w, m).flights[p] == w.flights[p]
  {
    assert m in [m];
    hide RevokeAll, Issue, Granted, Refresh, Serve;
  }

  lemma {:induction false} StaysChanging(w: Office, moves: seq<Move>, p: Pid)
    requires p in w.flights && w.flights[p].Changing? && LeavesAlone(moves, p)
    ensures p in DoAll(w, moves).flights && DoAll(w, moves).flights[p] == w.flights[p]
  {
    hide Do;
    if moves != [] {
      var n := |moves| - 1;
      assert forall m :: m in moves[..n] ==> m in moves;
      StaysChanging(w, moves[..n], p);
      assert moves[n] in moves;
      MoveLeavesAlone(DoAll(w, moves[..n]), moves[n], p);
    }
  }

  /**
   * A change of password that was let in, with anything between its check and
   * its commit. It takes effect in any case; the password it replaces is the one
   * it was asked for exactly when no other change came between, or the last one
   * had put that password back, and the new one differs from what it replaces
   * exactly when no other change to the same password came last.
   */
  lemma ChangeOvertaken(w: Office, p: Pid, u: UserId, current: string, new': string, moves: seq<Move>, now: Time)
    requires p !in w.flights && CredentialsOk(w.s, u, current) && new' != current && LeavesAlone(moves, p)
    ensures var w1 := DoAll(Do(w, CheckChange(p, u, current, new')), moves);
            var w2 := Do(w1, CommitChange(p, now));
            var last := LastWritten(Do(w, CheckChange(p, u, current, new')), moves, u);
            && u in w1.s.users && u in w2.s.users && w2.s.users[u].password == new' && LiveOf(w2.s, u) == {}
            && (w1.s.users[u].password == current <==> last.None? || last == Some(current))
            && (w1.s.users[u].password != new' <==> last != Some(new'))
  {
    var w0 := Do(w, CheckChange(p, u, current, new'));
    assert w0.s == w.s && p in w0.flights && w0.flights[p] == Changing(u, current, new');
    PasswordIsLast(w0, moves, u);
    StaysChanging(w0, moves, p);
    var w1 := DoAll(w0, moves);
    CommitCloses(w1, p, now);
    hide DoAll, LastWritten, LiveOf;
  }

  /** Two changes checked against the same password both take effect; the later commit is the one that stays. */
  lemma TwoChanges(w: Office, p: Pid, q: Pid, u: UserId, current: string, a: string, b: string, now: Time, later: Time)
    requires p !in w.flights && q !in w.flights && p != q && CredentialsOk(w.s, u, current)
    requires a != current && b != current
    ensures var w0 := Do(Do(w, CheckChange(p, u, current, a)), CheckChange(q, u, current, b));
            var w1 := Do(w0, CommitChange(p, now));
            var w2 := Do(w1, CommitChange(q, later));
            && CredentialsOk(w1.s, u, a) && CredentialsOk(w2.s, u, b) && (CredentialsOk(w2.s, u, a) <==> a == b)
  {
    hide RevokeAll;
  }

  // ---------------------------------------------------------------- whole requests are uninterrupted ones

  /** A refresh whose three calls nobody comes between is the refresh of the other model. */
  lemma RefreshIsThreeCalls(w: Office, p: Pid, raw: Option<Token>, minted: Token, now: Time)
    requires p !in w.flights && minted !in w.s.tokens
    ensures var w' := Do(Do(Do(w, Present(p, raw, now)), Revoke(p, now)), Store(p, minted, now));
            w'.s == Refresh(w.s, raw, minted, now).0 && w'.flights == w.flights
  {
    var w1 := Do(w, Present(p, raw, now));
    if Granted(w.s, raw, now) {
      var t := raw.value;
      assert w.s.tokens[t := w.s.tokens[t].(revokedAt := Some(now))][t].userId == w.s.tokens[t].userId;
    }
  }

  lemma LoginIsTwoCalls(w: Office, p: Pid, u: UserId, password: string, minted: Token, now: Time)
    requires p !in w.flights && minted !in w.s.tokens
    ensures var w' := Do(Do(w, CheckLogin(p, u, password)), Store(p, minted, now));
            w'.s == Login(w.s, u, password, minted, now).0 && w'.flights == w.flights
  {
  }

  lemma ChangeIsTwoCalls(w: Office, p: Pid, u: UserId, current: string, new': string, now: Time)
    requires p !in w.flights
    ensures var w' := Do(Do(w, CheckChange(p, u, current, new')), CommitChange(p, now));
            w'.s == ChangePassword(w.s, u, current, new', now).0 && w'.flights == w.flights
  {
  }
}
