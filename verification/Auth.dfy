/**
 * Login, refresh, logout and password change, each request as one step. A hash stands
 * for its token, a new token is one never seen before, and bcrypt decides equality.
 */
module Auth {
  import opened Prelude

  type UserId = nat
  type Token = nat
  type Time = nat

  const REFRESH_TTL_MS: nat := 7 * 24 * 60 * 60 * 1000

  datatype User = User(password: string, isActive: bool, mustChange: bool)

  datatype Stored = Stored(userId: UserId, expiresAt: Time, revokedAt: Option<Time>)

  /**
   * The two tables, and two columns no code reads: which token replaced which,
   * and the login each token descends from.
   */
  datatype Sessions = Sessions(
    users: map<UserId, User>,
    tokens: map<Token, Stored>,
    next: map<Token, Token>,
    root: map<Token, Token>)

  datatype Denied = Unauthorized | BadRequest

  // ---------------------------------------------------------------- requests

  predicate Alive(s: Sessions, t: Token) {
    t in s.tokens && s.tokens[t].revokedAt.None?
  }

  function LiveOf(s: Sessions, u: UserId): set<Token> {
    set t | t in s.tokens && s.tokens[t].userId == u && s.tokens[t].revokedAt.None?
  }

  function RevokeAll(tokens: map<Token, Stored>, u: UserId, now: Time): map<Token, Stored> {
    map t | t in tokens ::
      if tokens[t].userId == u && tokens[t].revokedAt.None? then tokens[t].(revokedAt := Some(now)) else tokens[t]
  }

  function Issue(tokens: map<Token, Stored>, u: UserId, minted: Token, now: Time): map<Token, Stored> {
    tokens[minted := Stored(u, now + REFRESH_TTL_MS, None)]
  }

  predicate CredentialsOk(s: Sessions, u: UserId, password: string) {
    u in s.users && s.users[u].isActive && s.users[u].password == password
  }

  function Login(s: Sessions, u: UserId, password: string, minted: Token, now: Time)
      : (Sessions, Result<Token, Denied>)
  {
    if !CredentialsOk(s, u, password) then (s, Err(Unauthorized))
    else (s.(tokens := Issue(s.tokens, u, minted, now), root := s.root[minted := minted]), Ok(minted))
  }

  /** The writes of a refresh: the presented token is revoked, a new one takes its place. */
  function Rotate(s: Sessions, t: Token, minted: Token, now: Time): Sessions
    requires t in s.tokens
  {
    s.(tokens := Issue(s.tokens[t := s.tokens[t].(revokedAt := Some(now))], s.tokens[t].userId, minted, now),
       next := s.next[t := minted],
       root := s.root[minted := if t in s.root then s.root[t] else t])
  }

  function Refresh(s: Sessions, raw: Option<Token>, minted: Token, now: Time)
      : (Sessions, Result<Token, Denied>)
  {
    if raw.None? || raw.value !in s.tokens then (s, Err(Unauthorized))
    else
      var t := raw.value;
      var u := s.tokens[t].userId;
      if s.tokens[t].revokedAt.Some? then (s.(tokens := RevokeAll(s.tokens, u, now)), Err(Unauthorized))
      else if s.tokens[t].expiresAt <= now then (s, Err(Unauthorized))
      else if u !in s.users || !s.users[u].isActive then (s.(tokens := RevokeAll(s.tokens, u, now)), Err(Unauthorized))
      else (Rotate(s, t, minted, now), Ok(minted))
  }

  /** A live, unexpired token of an active user. */
  predicate Granted(s: Sessions, raw: Option<Token>, now: Time) {
    && raw.Some? && Alive(s, raw.value) && now < s.tokens[raw.value].expiresAt
    && s.tokens[raw.value].userId in s.users && s.users[s.tokens[raw.value].userId].isActive
  }

  function Logout(s: Sessions, raw: Option<Token>, now: Time): Sessions {
    if raw.None? || raw.value !in s.tokens || s.tokens[raw.value].revokedAt.Some? then s
    else s.(tokens := s.tokens[raw.value := s.tokens[raw.value].(revokedAt := Some(now))])
  }

  function ChangePassword(s: Sessions, u: UserId, current: string, new': string, now: Time)
      : (Sessions, Result<(), Denied>)
  {
    if !CredentialsOk(s, u, current) then (s, Err(Unauthorized))
    else if new' == current then (s, Err(BadRequest))
    else (s.(users := s.users[u := s.users[u].(password := new', mustChange := false)],
             tokens := RevokeAll(s.tokens, u, now)), Ok(()))
  }

  // ---------------------------------------------------------------- runs

  datatype Request =
    | DoLogin(user: UserId, password: string, minted: Token, now: Time)
    | DoRefresh(raw: Option<Token>, minted: Token, now: Time)
    | DoLogout(raw: Option<Token>, now: Time)
    | DoChange(user: UserId, current: string, new': string, now: Time)
    | SetUser(user: UserId, row: User)

  /** A request with the token it would mint; random bytes never repeat a token. */
  function Serve(s: Sessions, r: Request): Sessions {
    match r
    case DoLogin(u, pw, minted, now) => if minted in s.tokens then s else Login(s, u, pw, minted, now).0
    case DoRefresh(raw, minted, now) => if minted in s.tokens then s else Refresh(s, raw, minted, now).0
    case DoLogout(raw, now) => Logout(s, raw, now)
    case DoChange(u, current, new', now) => ChangePassword(s, u, current, new', now).0
    case SetUser(u, row) => s.(users := s.users[u := row])
  }

  function ServeAll(s: Sessions, rs: seq<Request>): Sessions
    decreases |rs|
  {
    if rs == [] then s else Serve(ServeAll(s, rs[..|rs|-1]), rs[|rs|-1])
  }

  const NOBODY := Sessions(map[], map[], map[], map[])

  // ---------------------------------------------------------------- the lineage

  /** A replaced token is revoked; its successor is of the same user and login, and succeeds it alone. */
  ghost predicate LinksOk(tokens: map<Token, Stored>, next: map<Token, Token>, root: map<Token, Token>) {
    && root.Keys == tokens.Keys
    && (forall t :: t in next ==>
          && t in tokens && next[t] in tokens && tokens[t].revokedAt.Some?
          && root[next[t]] == root[t] && tokens[next[t]].userId == tokens[t].userId)
    && (forall a, b :: a in next && b in next && next[a] == next[b] ==> a == b)
  }

  /** Of the tokens descending from one login at most one is alive. */
  ghost predicate ChainsOk(tokens: map<Token, Stored>, root: map<Token, Token>) {
    forall a, b ::
      (a in tokens && a in root && tokens[a].revokedAt.None? && b in tokens && b in root && tokens[b].revokedAt.None?
       && root[a] == root[b])
      ==> a == b
  }

  ghost predicate Lineage(s: Sessions) {
    LinksOk(s.tokens, s.next, s.root) && ChainsOk(s.tokens, s.root)
  }

  /** Tokens stay, for the same user; a revocation is for good. */
  ghost predicate TokensAge(before: map<Token, Stored>, after: map<Token, Stored>) {
    forall t :: t in before ==>
      && t in after && after[t].userId == before[t].userId
      && (before[t].revokedAt.Some? ==> after[t] == before[t])
  }

  ghost predicate Extends(before: map<Token, Token>, after: map<Token, Token>) {
    forall t :: t in before ==> t in after && after[t] == before[t]
  }

  ghost predicate Ages(s: Sessions, s': Sessions) {
    TokensAge(s.tokens, s'.tokens) && Extends(s.next, s'.next) && Extends(s.root, s'.root)
  }

  /** Revoking more tokens, and nothing else, keeps the lineage. */
  lemma RevokedKeeps(
      tokens: map<Token, Stored>, after: map<Token, Stored>, next: map<Token, Token>, root: map<Token, Token>)
    requires LinksOk(tokens, next, root) && ChainsOk(tokens, root)
    requires after.Keys == tokens.Keys && TokensAge(tokens, after)
    requires forall t :: t in after && after[t].revokedAt.None? ==> tokens[t].revokedAt.None?
    ensures LinksOk(after, next, root) && ChainsOk(after, root)
  {
  }

  lemma RevokeKeeps(s: Sessions, u: UserId, now: Time)
    requires Lineage(s)
    ensures var s' := s.(tokens := RevokeAll(s.tokens, u, now)); Lineage(s') && Ages(s, s') && LiveOf(s', u) == {}
  {
    hide LinksOk, ChainsOk;
    RevokedKeeps(s.tokens, RevokeAll(s.tokens, u, now), s.next, s.root);
  }

  /** Every chain starts at a token that was really issued. */
  ghost predicate RootsKnown(s: Sessions) {
    s.root.Values <= s.tokens.Keys
  }

  /** A token minted at a login starts a chain of its own. */
  lemma MintedKeeps(s: Sessions, u: UserId, minted: Token, now: Time)
    requires Lineage(s) && minted !in s.tokens && minted !in s.root.Values
    ensures LinksOk(Issue(s.tokens, u, minted, now), s.next, s.root[minted := minted])
    ensures ChainsOk(Issue(s.tokens, u, minted, now), s.root[minted := minted])
  {
    assert forall t :: t in s.root ==> s.root[t] in s.root.Values;
  }

  lemma LoginKeeps(s: Sessions, u: UserId, pw: string, minted: Token, now: Time)
    requires Lineage(s) && minted !in s.tokens && RootsKnown(s)
    ensures Lineage(Login(s, u, pw, minted, now).0) && Ages(s, Login(s, u, pw, minted, now).0)
    ensures RootsKnown(Login(s, u, pw, minted, now).0)
  {
    hide ChainsOk, CredentialsOk;
    MintedKeeps(s, u, minted, now);
    assert s.root[minted := minted].Values <= s.root.Values + {minted};
  }

  /** The rotation: the old token is revoked and the new one takes its place in the chain. */
  lemma RotationKeeps(s: Sessions, t: Token, minted: Token, now: Time)
    requires Lineage(s) && Alive(s, t) && minted !in s.tokens
    ensures Lineage(Rotate(s, t, minted, now)) && Ages(s, Rotate(s, t, minted, now))
  {
    assert t !in s.next && s.root.Keys == s.tokens.Keys;
    hide LinksOk, ChainsOk, Rotate, Ages;
    RotatedLinks(s, t, minted, now);
    RotatedChains(s, t, minted, now);
    RotatedAges(s, t, minted, now);
  }

  lemma RotatedAges(s: Sessions, t: Token, minted: Token, now: Time)
    requires Alive(s, t) && minted !in s.tokens && t !in s.next && minted !in s.root
    ensures Ages(s, Rotate(s, t, minted, now))
  {
  }

  lemma RotatedLinks(s: Sessions, t: Token, minted: Token, now: Time)
    requires LinksOk(s.tokens, s.next, s.root) && Alive(s, t) && minted !in s.tokens
    ensures var s' := Rotate(s, t, minted, now); LinksOk(s'.tokens, s'.next, s'.root)
  {
    var s' := Rotate(s, t, minted, now);
    assert t !in s.next && forall a :: a in s.next ==> s.next[a] != minted;
    forall a | a in s'.next
      ensures a in s'.tokens && s'.next[a] in s'.tokens && s'.tokens[a].revokedAt.Some?
      ensures s'.root[s'.next[a]] == s'.root[a] && s'.tokens[s'.next[a]].userId == s'.tokens[a].userId
    {
      if a != t {
        assert a in s.next && s'.next[a] == s.next[a];
      }
    }
  }

  lemma RotatedChains(s: Sessions, t: Token, minted: Token, now: Time)
    requires ChainsOk(s.tokens, s.root) && Alive(s, t) && minted !in s.tokens && s.root.Keys == s.tokens.Keys
    ensures var s' := Rotate(s, t, minted, now); ChainsOk(s'.tokens, s'.root)
  {
  }

  lemma RefreshKeeps(s: Sessions, raw: Option<Token>, minted: Token, now: Time)
    requires Lineage(s) && minted !in s.tokens
    ensures Lineage(Refresh(s, raw, minted, now).0) && Ages(s, Refresh(s, raw, minted, now).0)
  {
    hide LinksOk, ChainsOk, RevokeAll, Rotate;
    if raw.Some? && raw.value in s.tokens {
      RevokeKeeps(s, s.tokens[raw.value].userId, now);
      if s.tokens[raw.value].revokedAt.None? {
        RotationKeeps(s, raw.value, minted, now);
      }
    }
  }

  lemma LogoutKeeps(s: Sessions, raw: Option<Token>, now: Time)
    requires Lineage(s)
    ensures Lineage(Logout(s, raw, now)) && Ages(s, Logout(s, raw, now))
  {
    hide LinksOk, ChainsOk;
    RevokedKeeps(s.tokens, Logout(s, raw, now).tokens, s.next, s.root);
  }

  lemma ServeRoots(s: Sessions, r: Request)
    requires Lineage(s) && RootsKnown(s)
    ensures RootsKnown(Serve(s, r))
  {
    hide ChainsOk, CredentialsOk;
    var s' := Serve(s, r);
    assert s'.root.Values <= s.tokens.Keys + s'.tokens.Keys by {
      if r.DoRefresh? && r.raw.Some? && r.raw.value in s.tokens {
        assert s.root[r.raw.value] in s.root.Values;
      }
    }
  }

  lemma ServeKeeps(s: Sessions, r: Request)
    requires Lineage(s) && RootsKnown(s)
    ensures Lineage(Serve(s, r)) && Ages(s, Serve(s, r)) && RootsKnown(Serve(s, r))
  {
    hide Login, Refresh, Logout, RevokeAll, LinksOk, ChainsOk, RootsKnown;
    ServeRoots(s, r);
    match r
    case DoLogin(u, pw, minted, now) => if minted !in s.tokens { LoginKeeps(s, u, pw, minted, now); }
    case DoRefresh(raw, minted, now) => if minted !in s.tokens { RefreshKeeps(s, raw, minted, now); }
    case DoLogout(raw, now) => LogoutKeeps(s, raw, now);
    case DoChange(u, current, new', now) => RevokeKeeps(s, u, now);
    case SetUser(_, _) =>
  }

  lemma {:induction false} ServeAllKeeps(s: Sessions, rs: seq<Request>)
    requires Lineage(s) && RootsKnown(s)
    ensures Lineage(ServeAll(s, rs)) && Ages(s, ServeAll(s, rs)) && RootsKnown(ServeAll(s, rs))
    decreases |rs|
  {
    hide Serve, Lineage, RootsKnown;
    if rs != [] {
      ServeAllKeeps(s, rs[..|rs|-1]);
      ServeKeeps(ServeAll(s, rs[..|rs|-1]), rs[|rs|-1]);
    }
  }

  lemma {:induction false} ServeSplits(s: Sessions, first: seq<Request>, more: seq<Request>)
    ensures ServeAll(s, first + more) == ServeAll(ServeAll(s, first), more)
    decreases |more|
  {
    hide Serve;
    if more == [] {
      assert first + more == first;
    } else {
      ServeSplits(s, first, more[..|more|-1]);
      assert (first + more)[..|first + more|-1] == first + more[..|more|-1];
    }
  }

  // ---------------------------------------------------------------- guarantees

  /**
   * Over any run: a token that was replaced is revoked and keeps its one
   * successor, no token succeeds two, and of all the tokens descending from one
   * login at most one is alive.
   */
  lemma OneLiveTokenPerChain(rs: seq<Request>, more: seq<Request>, a: Token, b: Token)
    ensures var s := ServeAll(NOBODY, rs);
            var s' := ServeAll(NOBODY, rs + more);
            && (a in s.next ==> !Alive(s, a) && a in s'.next && s'.next[a] == s.next[a])
            && (a in s.next && b in s.next && s.next[a] == s.next[b] ==> a == b)
            && (Alive(s, a) && Alive(s, b) ==> a in s.root && b in s.root && (s.root[a] == s.root[b] ==> a == b))
  {
    hide ServeAll;
    assert ServeAll(NOBODY, []) == NOBODY by { StartsEmpty(); }
    ServeAllKeeps(NOBODY, rs);
    ServeSplits(NOBODY, rs, more);
    ServeAllKeeps(ServeAll(NOBODY, rs), more);
  }

  lemma StartsEmpty()
    ensures ServeAll(NOBODY, []) == NOBODY
  {
  }

  lemma EmptyOk()
    ensures Lineage(NOBODY) && RootsKnown(NOBODY)
  {
  }

  // ---------------------------------------------------------------- what one request does

  lemma IssuedLive(s: Sessions, s': Sessions, t: Token, minted: Token, u: UserId, now: Time)
    requires t in s.tokens && minted !in s.tokens
    requires s'.tokens == Issue(s.tokens[t := s.tokens[t].(revokedAt := Some(now))], s.tokens[t].userId, minted, now)
    ensures LiveOf(s', u) == LiveOf(s, u) - {t} + (if s.tokens[t].userId == u then {minted} else {})
  {
  }

  /** A successful refresh swaps one live token for another: same number for the user, nothing for anyone else. */
  lemma RefreshConserves(s: Sessions, raw: Option<Token>, minted: Token, now: Time, u: UserId)
    requires minted !in s.tokens && Refresh(s, raw, minted, now).1.Ok?
    ensures var s' := Refresh(s, raw, minted, now).0;
            && |LiveOf(s', u)| == |LiveOf(s, u)|
            && (if s.tokens[raw.value].userId == u
                then raw.value in LiveOf(s, u) && LiveOf(s', u) == LiveOf(s, u) - {raw.value} + {minted}
                else LiveOf(s', u) == LiveOf(s, u))
  {
    var s' := Refresh(s, raw, minted, now).0;
    var t := raw.value;
    assert s'.tokens == Issue(s.tokens[t := s.tokens[t].(revokedAt := Some(now))], s.tokens[t].userId, minted, now);
    hide Refresh, Issue;
    IssuedLive(s, s', t, minted, u, now);
    if s.tokens[t].userId == u {
      assert LiveOf(s', u) == LiveOf(s, u) - {t} + {minted};
    } else {
      assert LiveOf(s', u) == LiveOf(s, u);
    }
  }

  /** A token just issued, by a login or a refresh, can be exchanged for seven days, and no longer. */
  lemma IssuedForSevenDays(s: Sessions, r: Request, minted: Token, other: Token, later: Time)
    requires minted !in s.tokens && other !in Serve(s, r).tokens
    requires r.DoLogin? || r.DoRefresh?
    requires r.minted == minted && minted in Serve(s, r).tokens
    ensures Refresh(Serve(s, r), Some(minted), other, later).1.Ok? <==> later < r.now + 604_800_000
  {
    if r.DoRefresh? {
      assert r.raw.Some? && r.raw.value in s.tokens;
      assert RevokeAll(s.tokens, s.tokens[r.raw.value].userId, r.now).Keys == s.tokens.Keys;
    }
  }

  lemma RefreshConservesAll(s: Sessions, raw: Option<Token>, minted: Token, now: Time)
    requires minted !in s.tokens
    ensures var (s', result) := Refresh(s, raw, minted, now);
            result.Ok? ==> forall u :: |LiveOf(s', u)| == |LiveOf(s, u)|
  {
    if Refresh(s, raw, minted, now).1.Ok? {
      forall u ensures |LiveOf(Refresh(s, raw, minted, now).0, u)| == |LiveOf(s, u)| {
        RefreshConserves(s, raw, minted, now, u);
      }
    }
  }

  lemma LoginAdds(s: Sessions, u: UserId, password: string, minted: Token, now: Time)
    requires minted !in s.tokens
    ensures var (s', result) := Login(s, u, password, minted, now);
            forall v :: LiveOf(s', v) == LiveOf(s, v) + (if result.Ok? && v == u then {minted} else {})
  {
  }

  /**
   * Reading and writing are separate calls. Two refreshes that both read the
   * token before either writes are both granted, and the chain has two live
   * tokens: the guarantee needs requests that do not overlap.
   */
  lemma OverlapBranchesAChain()
    ensures exists s, t: Token, a: Token, b: Token ::
              && Lineage(s) && a !in s.tokens && b !in s.tokens && a != b
              && Refresh(s, Some(t), a, 1).1.Ok? && Refresh(s, Some(t), b, 1).1.Ok?
              && var s' := Rotate(Rotate(s, t, a, 1), t, b, 1);
                 Alive(s', a) && Alive(s', b) && a in s'.root && b in s'.root && s'.root[a] == s'.root[b]
  {
    var s := Sessions(map[7 := User("secret", true, false)], map[0 := Stored(7, 100, None)], map[], map[0 := 0]);
    var s' := Rotate(Rotate(s, 0, 1, 1), 0, 2, 1);
    assert Lineage(s);
    assert Refresh(s, Some(0), 1, 1).1.Ok? && Refresh(s, Some(0), 2, 1).1.Ok?;
    assert Alive(s', 1) && Alive(s', 2) && s'.root[1] == s'.root[2];
  }

  /** Presenting a rotated or revoked token is refused and closes every session of its user. */
  lemma ReuseClosesAll(s: Sessions, t: Token, minted: Token, now: Time)
    requires t in s.tokens && s.tokens[t].revokedAt.Some?
    ensures var (s', result) := Refresh(s, Some(t), minted, now);
            && result == Err(Unauthorized) && LiveOf(s', s.tokens[t].userId) == {}
            && s'.users == s.users
            && forall u :: u != s.tokens[t].userId ==> LiveOf(s', u) == LiveOf(s, u)
  {
  }

  /** So does a password change, which succeeds exactly with the current password and a different new one. */
  lemma ChangeClosesAll(s: Sessions, u: UserId, current: string, new': string, now: Time)
    ensures var (s', result) := ChangePassword(s, u, current, new', now);
            && (result.Ok? <==> (u in s.users && s.users[u].isActive && s.users[u].password == current
                                 && new' != current))
            && (result.Ok? ==>
                  && LiveOf(s', u) == {} && CredentialsOk(s', u, new') && !CredentialsOk(s', u, current)
                  && forall v :: v != u ==> LiveOf(s', v) == LiveOf(s, v))
            && (!result.Ok? ==> s' == s)
  {
  }

  /** A refresh succeeds exactly for such a token. */
  lemma RefreshGrantedExactly(s: Sessions, raw: Option<Token>, minted: Token, now: Time)
    ensures Refresh(s, raw, minted, now).1.Ok? <==> Granted(s, raw, now)
  {
  }

  // ---------------------------------------------------------------- row by row

  /** Every live token of u is revoked now; no other row moves. */
  ghost predicate Swept(before: map<Token, Stored>, after: map<Token, Stored>, u: UserId, now: Time) {
    && after.Keys == before.Keys
    && forall t :: t in before ==>
         after[t] == if before[t].userId == u && before[t].revokedAt.None?
                     then Stored(u, before[t].expiresAt, Some(now)) else before[t]
  }

  /** A new row for u, alive for seven days. */
  predicate Minted(tokens: map<Token, Stored>, minted: Token, u: UserId, now: Time) {
    minted in tokens && tokens[minted] == Stored(u, now + 604_800_000, None)
  }

  /** A login of an active user with its password adds one row; any other changes nothing. */
  ghost predicate LoggedIn(s: Sessions, s': Sessions, result: Result<Token, Denied>, u: UserId, password: string,
                           minted: Token, now: Time) {
    if u in s.users && s.users[u].isActive && s.users[u].password == password
    then result == Ok(minted) && Minted(s'.tokens, minted, u, now)
      && s' == s.(tokens := s.tokens[minted := s'.tokens[minted]], root := s.root[minted := minted])
    else result == Err(Unauthorized) && s' == s
  }

  /**
   * A refresh with a live token in time, of an active user, kills that row and adds one; a dead
   * token, or one in time of a user who is gone or inactive, kills every live row of its user;
   * no token, an unknown one or a late one changes nothing.
   */
  ghost predicate Refreshed(s: Sessions, s': Sessions, result: Result<Token, Denied>, raw: Option<Token>,
                            minted: Token, now: Time) {
    if raw.None? || raw.value !in s.tokens then result == Err(Unauthorized) && s' == s
    else
      var t, row := raw.value, s.tokens[raw.value];
      var active := row.userId in s.users && s.users[row.userId].isActive;
      if row.revokedAt.None? && row.expiresAt <= now then result == Err(Unauthorized) && s' == s
      else if row.revokedAt.Some? || !active then
        && result == Err(Unauthorized) && s' == s.(tokens := s'.tokens)
        && Swept(s.tokens, s'.tokens, row.userId, now)
      else
        && result == Ok(minted) && Minted(s'.tokens, minted, row.userId, now)
        && s'.users == s.users && s'.next == s.next[t := minted]
        && s'.tokens == s.tokens[t := Stored(row.userId, row.expiresAt, Some(now))][minted := s'.tokens[minted]]
  }

  lemma RefreshExactly(s: Sessions, raw: Option<Token>, minted: Token, now: Time)
    requires minted !in s.tokens
    ensures var (s', result) := Refresh(s, raw, minted, now); Refreshed(s, s', result, raw, minted, now)
  {
  }

  /** A change with the current password writes the new one, asks for no other, and kills every live row of the user. */
  ghost predicate Changed(s: Sessions, s': Sessions, result: Result<(), Denied>, u: UserId, current: string,
                          new': string, now: Time) {
    if !(u in s.users && s.users[u].isActive && s.users[u].password == current)
    then result == Err(Unauthorized) && s' == s
    else if new' == current then result == Err(BadRequest) && s' == s
    else
      && result == Ok(()) && s' == s.(users := s.users[u := User(new', true, false)], tokens := s'.tokens)
      && Swept(s.tokens, s'.tokens, u, now)
  }

  /** A logout kills the row of the token it presents, if that is alive, and touches no other. */
  ghost predicate LoggedOut(s: Sessions, s': Sessions, raw: Option<Token>, now: Time) {
    if raw.Some? && raw.value in s.tokens && s.tokens[raw.value].revokedAt.None?
    then s' == s.(tokens := s.tokens[
           raw.value := Stored(s.tokens[raw.value].userId, s.tokens[raw.value].expiresAt, Some(now))])
    else s' == s
  }

  // ---------------------------------------------------------------- closed for good

  /**
   * Once a user has no live token, no token issued up to then yields a session
   * again, whatever is requested afterwards.
   */
  lemma ClosedForGood(rs: seq<Request>, more: seq<Request>, u: UserId, t: Token, minted: Token, now: Time)
    requires LiveOf(ServeAll(NOBODY, rs), u) == {}
    requires t in ServeAll(NOBODY, rs).tokens && ServeAll(NOBODY, rs).tokens[t].userId == u
    ensures var later := ServeAll(NOBODY, rs + more);
            !Alive(later, t) && Refresh(later, Some(t), minted, now).1 == Err(Unauthorized)
  {
    hide Serve, ServeAll, Lineage, RootsKnown;
    StartsEmpty();
    EmptyOk();
    ServeAllKeeps(NOBODY, rs);
    ServeSplits(NOBODY, rs, more);
    ServeAllKeeps(ServeAll(NOBODY, rs), more);
    assert t !in LiveOf(ServeAll(NOBODY, rs), u);
  }

  // ---------------------------------------------------------------- the service

  class AuthService {
    var users: map<UserId, User>
    var tokens: map<Token, Stored>
    ghost var next: map<Token, Token>
    ghost var root: map<Token, Token>

    ghost function State(): Sessions
      reads this
    {
      Sessions(users, tokens, next, root)
    }

    /** The lineage of tokens; every method keeps it. */
    ghost predicate Valid()
      reads this
    {
      Lineage(State()) && RootsKnown(State())
    }

    constructor ()
      ensures Valid() && State() == NOBODY
    {
      users, tokens, next, root := map[], map[], map[], map[];
    }

    method IssueSession(u: UserId, minted: Token, now: Time) returns (token: Token)
      modifies this`tokens
      ensures tokens == Issue(old(tokens), u, minted, now) && token == minted
    {
      tokens := tokens[minted := Stored(u, now + REFRESH_TTL_MS, None)];
      token := minted;
    }

    method RevokeAllSessions(u: UserId, now: Time)
      modifies this`tokens
      ensures tokens == RevokeAll(old(tokens), u, now)
    {
      tokens := map t | t in tokens ::
        if tokens[t].userId == u && tokens[t].revokedAt.None? then tokens[t].(revokedAt := Some(now)) else tokens[t];
    }

    /** One live token more for an active user with the right password; otherwise nothing moves. */
    method LogIn(u: UserId, password: string, minted: Token, now: Time) returns (result: Result<Token, Denied>)
      requires Valid() && minted !in tokens
      modifies this
      ensures Valid()
      ensures (State(), result) == Login(old(State()), u, password, minted, now)
      ensures LoggedIn(old(State()), State(), result, u, password, minted, now)
      ensures result.Ok? <==> old(CredentialsOk(State(), u, password))
      ensures result.Ok? ==> LiveOf(State(), u) == old(LiveOf(State(), u)) + {minted}
      ensures forall v :: result.Err? || v != u ==> LiveOf(State(), v) == old(LiveOf(State(), v))
    {
      LoginKeeps(State(), u, password, minted, now);
      LoginAdds(State(), u, password, minted, now);
      var matches := u in users && users[u].password == password;
      if u !in users || !users[u].isActive || !matches {
        return Err(Unauthorized);
      }
      root := root[minted := minted];
      var token := IssueSession(u, minted, now);
      result := Ok(token);
    }

    /** A live token is exchanged for another; a revoked one, or one of an inactive user, closes every session. */
    method RefreshSession(raw: Option<Token>, minted: Token, now: Time) returns (result: Result<Token, Denied>)
      requires Valid() && minted !in tokens
      modifies this
      ensures Valid()
      ensures (State(), result) == Refresh(old(State()), raw, minted, now)
      ensures Refreshed(old(State()), State(), result, raw, minted, now)
      ensures result.Ok? <==> old(Granted(State(), raw, now))
      ensures result.Ok? ==> forall v :: |LiveOf(State(), v)| == |old(LiveOf(State(), v))|
      ensures result.Ok? ==> raw.Some? && !Alive(State(), raw.value) && Alive(State(), minted)
                             && raw.value in next && next[raw.value] == minted
      ensures raw.Some? && raw.value in old(tokens) && old(tokens)[raw.value].revokedAt.Some? ==>
                result == Err(Unauthorized) && LiveOf(State(), old(tokens)[raw.value].userId) == {}
    {
      hide Lineage, RootsKnown, LiveOf, Refreshed;
      RefreshExactly(State(), raw, minted, now);
      RefreshKeeps(State(), raw, minted, now);
      ServeRoots(State(), DoRefresh(raw, minted, now));
      RefreshConservesAll(State(), raw, minted, now);
      RefreshGrantedExactly(State(), raw, minted, now);
      if raw.Some? && raw.value in tokens && tokens[raw.value].revokedAt.Some? {
        ReuseClosesAll(State(), raw.value, minted, now);
      }
      if raw.None? {
        return Err(Unauthorized);
      }
      var t := raw.value;
      if t !in tokens {
        return Err(Unauthorized);
      }
      var stored := tokens[t];
      if stored.revokedAt.Some? {
        RevokeAllSessions(stored.userId, now);
        return Err(Unauthorized);
      }
      if stored.expiresAt <= now {
        return Err(Unauthorized);
      }
      if stored.userId !in users || !users[stored.userId].isActive {
        RevokeAllSessions(stored.userId, now);
        return Err(Unauthorized);
      }
      tokens := tokens[t := stored.(revokedAt := Some(now))];
      next := next[t := minted];
      root := root[minted := if t in root then root[t] else t];
      var token := IssueSession(stored.userId, minted, now);
      result := Ok(token);
    }

    /** The presented token is dead afterwards; every other is as it was. */
    method LogOut(raw: Option<Token>, now: Time)
      requires Valid()
      modifies this`tokens
      ensures Valid()
      ensures State() == Logout(old(State()), raw, now)
      ensures LoggedOut(old(State()), State(), raw, now)
      ensures forall t: Token :: Alive(State(), t) <==> old(Alive(State(), t)) && raw != Some(t)
    {
      LogoutKeeps(State(), raw, now);
      if raw.Some? && raw.value in tokens && tokens[raw.value].revokedAt.None? {
        tokens := tokens[raw.value := tokens[raw.value].(revokedAt := Some(now))];
      }
    }

    /** The new password works, the old one does not, and no token of the user is alive; or nothing moves. */
    method SetPassword(u: UserId, current: string, new': string, now: Time) returns (result: Result<(), Denied>)
      requires Valid()
      modifies this
      ensures Valid()
      ensures (State(), result) == ChangePassword(old(State()), u, current, new', now)
      ensures Changed(old(State()), State(), result, u, current, new', now)
      ensures result.Ok? <==> old(CredentialsOk(State(), u, current)) && new' != current
      ensures result.Ok? ==>
                LiveOf(State(), u) == {} && CredentialsOk(State(), u, new') && !CredentialsOk(State(), u, current)
      ensures forall v :: result.Err? || v != u ==> LiveOf(State(), v) == old(LiveOf(State(), v))
    {
      RevokeKeeps(State(), u, now);
      ChangeClosesAll(State(), u, current, new', now);
      if u !in users || !users[u].isActive {
        return Err(Unauthorized);
      }
      if users[u].password != current {
        return Err(Unauthorized);
      }
      if users[u].password == new' {
        return Err(BadRequest);
      }
      users := users[u := users[u].(password := new', mustChange := false)];
      RevokeAllSessions(u, now);
      result := Ok(());
    }
  }
}
