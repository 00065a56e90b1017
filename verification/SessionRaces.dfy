/**
  Concurrent session requests. A login reads the user row and later inserts a session; a refresh
  reads the session row, then the user row, and later updates the session by its primary key; a
  revocation reads which sessions are unrevoked and later stamps those. None locks what it read, so
  any other request may commit in between. A deactivation locks the user row from its flag update
  to its commit, which keeps out other flag updates but neither reads nor logins.
*/
module SessionRaces {
  import opened Sessions

  type RequestId = nat

  /**
    A refresh whose session row passed at `readAt`, which also dates the expiry it will write;
    `checked` says whether its user row has passed too.
  */
  datatype Refreshing = Refreshing(sid: SessionId, token: Token, readAt: int, checked: bool)

  /** Accepting reads of a refresh token, and the writes that rotate it out. */
  datatype Event = Read(request: RequestId, token: Token) | Wrote(request: RequestId, token: Token)

  /** The sessions a revocation has found unrevoked, and the time it will write to them. */
  datatype Revoking = Revoking(ids: set<SessionId>, at: int)

  /** A deactivation that has found the user active; then one that holds the user row and has listed the sessions. */
  datatype Deactivating = Loaded(user: UserId) | Listed(user: UserId, found: Revoking)

  /** `refreshes`, `logins`, `revokes` and `closings` are in flight; `issued` and `used` are all tokens and request ids ever drawn. */
  datatype World = World(
    store: Store,
    refreshes: map<RequestId, Refreshing>,
    logins: map<RequestId, UserId>,
    revokes: map<RequestId, Revoking>,
    closings: map<RequestId, Deactivating>,
    issued: set<Token>,
    used: set<RequestId>,
    log: seq<Event>)

  datatype Op =
    | LoginRead(request: RequestId, user: UserId, passwordOk: bool)
    | LoginWrite(request: RequestId, sid: SessionId, token: Token, now: int, ttl: int)
    | RefreshRead(request: RequestId, sid: SessionId, token: Token, now: int)
    | CheckUser(request: RequestId)
    | RefreshWrite(request: RequestId, renewed: Token, ttl: int)
    | GiveUp(request: RequestId)
    | RevokeRead(request: RequestId, sid: SessionId, user: UserId, now: int)
    | RevokeList(request: RequestId, user: UserId, keep: Option<SessionId>, now: int)
    | RevokeWrite(request: RequestId)
    | Load(request: RequestId, user: UserId)
    | List(request: RequestId, now: int)
    | Finish(request: RequestId)
    | RollBack(request: RequestId)
    | Reactivate(user: UserId)
    | Register(user: UserId, mustChangePassword: bool)

  function DoLoginRead(w: World, q: RequestId, u: UserId, passwordOk: bool): World {
    if q in w.used || LoginResult(w.store, u, passwordOk) != LoggedIn then w
    else w.(logins := w.logins[q := u], used := w.used + {q})
  }

  function DoLoginWrite(w: World, q: RequestId, sid: SessionId, token: Token, now: int, ttl: int): World {
    if q !in w.logins || sid in w.store.sessions || token in w.issued then w
    else w.(store := w.store.(sessions := w.store.sessions[sid := Session(w.logins[q], token, None, now + ttl, None)]),
            logins := w.logins - {q}, issued := w.issued + {token})
  }

  /** `sid` is the session the unique index finds for the token. */
  function DoRefreshRead(w: World, q: RequestId, sid: SessionId, token: Token, now: int): World {
    if q in w.used || !Usable(w.store, sid, now) || w.store.sessions[sid].token != token then w
    else w.(refreshes := w.refreshes[q := Refreshing(sid, token, now, false)], used := w.used + {q}, log := w.log + [Read(q, token)])
  }

  predicate Usable(s: Store, sid: SessionId, now: int) {
    sid in s.sessions && s.sessions[sid].revokedAt.None? && s.sessions[sid].expiresAt > now
  }

  predicate OwnerActive(s: Store, sid: SessionId) {
    sid in s.sessions && s.sessions[sid].user in s.users && s.users[s.sessions[sid].user].isActive
  }

  function DoCheckUser(w: World, q: RequestId): World {
    if q !in w.refreshes then w
    else if OwnerActive(w.store, w.refreshes[q].sid) then w.(refreshes := w.refreshes[q := w.refreshes[q].(checked := true)])
    else w.(refreshes := w.refreshes - {q})
  }

  /** The update finds its row by primary key, whatever has become of it. */
  function DoRefreshWrite(w: World, q: RequestId, renewed: Token, ttl: int): World {
    if q !in w.refreshes || !w.refreshes[q].checked || w.refreshes[q].sid !in w.store.sessions || renewed in w.issued then w
    else
      var r := w.refreshes[q];
      w.(store := Rotated(w.store, r.sid, renewed, r.readAt, ttl), refreshes := w.refreshes - {q},
         issued := w.issued + {renewed}, log := w.log + [Wrote(q, r.token)])
  }

  function Live(s: Store, u: UserId): set<SessionId> {
    set x | x in s.sessions && s.sessions[x].user == u && s.sessions[x].revokedAt.None?
  }

  /** The revoking update: by primary key, whatever the rows have come to say. */
  function Stamped(s: Store, found: Revoking): Store {
    s.(sessions := map x | x in s.sessions ::
         if x in found.ids then s.sessions[x].(revokedAt := Some(found.at)) else s.sessions[x])
  }

  function DoRevokeRead(w: World, q: RequestId, sid: SessionId, u: UserId, now: int): World {
    if q in w.used || sid !in Live(w.store, u) then w
    else w.(revokes := w.revokes[q := Revoking({sid}, now)], used := w.used + {q})
  }

  function DoRevokeList(w: World, q: RequestId, u: UserId, keep: Option<SessionId>, now: int): World {
    if q in w.used then w
    else
      var ids := set x | x in Live(w.store, u) && keep != Some(x);
      w.(revokes := w.revokes[q := Revoking(ids, now)], used := w.used + {q})
  }

  function DoRevokeWrite(w: World, q: RequestId): World {
    if q !in w.revokes then w
    else w.(store := Stamped(w.store, w.revokes[q]), revokes := w.revokes - {q})
  }

  /** Some deactivation of the user holds the user row. */
  ghost predicate RowLocked(w: World, u: UserId) {
    exists q :: q in w.closings && w.closings[q].Listed? && w.closings[q].user == u
  }

  function DoLoad(w: World, q: RequestId, u: UserId): World {
    if q in w.used || u !in w.store.users || !w.store.users[u].isActive then w
    else w.(closings := w.closings[q := Loaded(u)], used := w.used + {q})
  }

  /** The flag update, which waits for the user row, and the listing that follows it. */
  ghost function DoList(w: World, q: RequestId, now: int): World {
    if q !in w.closings || !w.closings[q].Loaded? || RowLocked(w, w.closings[q].user) then w
    else
      var u := w.closings[q].user;
      w.(closings := w.closings[q := Listed(u, Revoking(Live(w.store, u), now))])
  }

  /** The commit: the flag and the stamps become visible together. */
  function DoFinish(w: World, q: RequestId): World {
    if q !in w.closings || !w.closings[q].Listed? then w
    else
      var Listed(u, found) := w.closings[q];
      var s := Stamped(w.store, found);
      w.(store := if u in s.users then s.(users := s.users[u := s.users[u].(isActive := false)]) else s,
         closings := w.closings - {q})
  }

  ghost function DoReactivate(w: World, u: UserId): World {
    if RowLocked(w, u) then w else w.(store := AfterReactivate(w.store, u))
  }

  ghost function Step(w: World, op: Op): World {
    match op
    case LoginRead(q, u, passwordOk) => DoLoginRead(w, q, u, passwordOk)
    case LoginWrite(q, sid, token, now, ttl) => DoLoginWrite(w, q, sid, token, now, ttl)
    case RefreshRead(q, sid, token, now) => DoRefreshRead(w, q, sid, token, now)
    case CheckUser(q) => DoCheckUser(w, q)
    case RefreshWrite(q, renewed, ttl) => DoRefreshWrite(w, q, renewed, ttl)
    case GiveUp(q) => w.(refreshes := w.refreshes - {q}, logins := w.logins - {q})
    case RevokeRead(q, sid, u, now) => DoRevokeRead(w, q, sid, u, now)
    case RevokeList(q, u, keep, now) => DoRevokeList(w, q, u, keep, now)
    case RevokeWrite(q) => DoRevokeWrite(w, q)
    case Load(q, u) => DoLoad(w, q, u)
    case List(q, now) => DoList(w, q, now)
    case Finish(q) => DoFinish(w, q)
    case RollBack(q) => w.(revokes := w.revokes - {q}, closings := w.closings - {q})
    case Reactivate(u) => DoReactivate(w, u)
    case Register(u, mustChange) =>
      if u in w.store.users then w else w.(store := w.store.(users := w.store.users[u := User(true, mustChange)]))
  }

  ghost function Run(w: World, ops: seq<Op>): World
    decreases |ops|
  {
    if ops == [] then w else Run(Step(w, ops[0]), ops[1..])
  }

  const EMPTY := World(Store(map[], map[]), map[], map[], map[], map[], {}, {}, [])

  lemma RunOne(w: World, op: Op)
    ensures Run(w, [op]) == Step(w, op)
  {
    assert [op][1..] == [] && Run(Step(w, op), []) == Step(w, op);
  }

  lemma {:induction false} RunAppend(w: World, a: seq<Op>, b: seq<Op>)
    ensures Run(w, a + b) == Run(Run(w, a), b)
    decreases |a|
  {
    if a == [] {
      assert a + b == b;
    } else {
      assert (a + b)[1..] == a[1..] + b;
      RunAppend(Step(w, a[0]), a[1..], b);
    }
  }

  lemma RunSnoc(w: World, ops: seq<Op>, op: Op)
    ensures Run(w, ops + [op]) == Step(Run(w, ops), op)
  {
    RunAppend(w, ops, [op]);
    RunOne(Run(w, ops), op);
  }

  /** Reads directly followed by their write are the whole call. */
  lemma AloneRefreshes(w: World, q: RequestId, sid: SessionId, token: Token, renewed: Token, now: int, ttl: int)
    requires q !in w.used && q !in w.refreshes && renewed !in w.issued
    ensures Run(w, [RefreshRead(q, sid, token, now)] + [CheckUser(q)] + [RefreshWrite(q, renewed, ttl)]).store
         == if Refreshable(w.store, sid, now) && w.store.sessions[sid].token == token then Rotated(w.store, sid, renewed, now, ttl) else w.store
  {
    RunOne(w, RefreshRead(q, sid, token, now));
    RunSnoc(w, [RefreshRead(q, sid, token, now)], CheckUser(q));
    RunSnoc(w, [RefreshRead(q, sid, token, now)] + [CheckUser(q)], RefreshWrite(q, renewed, ttl));
  }

  lemma AloneLogsIn(w: World, q: RequestId, u: UserId, passwordOk: bool, sid: SessionId, token: Token, now: int, ttl: int)
    requires q !in w.used && q !in w.logins && token !in w.issued && sid !in w.store.sessions
    ensures Run(w, [LoginRead(q, u, passwordOk)] + [LoginWrite(q, sid, token, now, ttl)]).store
         == AfterLogin(w.store, u, passwordOk, sid, token, now, ttl)
  {
    RunOne(w, LoginRead(q, u, passwordOk));
    RunSnoc(w, [LoginRead(q, u, passwordOk)], LoginWrite(q, sid, token, now, ttl));
  }

  // ---------------------------------------------------------------- what the reads let through

  /** A login gets past its read exactly with an existing, active user, the right password and none to change. */
  lemma LoginReadIff(w: World, q: RequestId, u: UserId, passwordOk: bool)
    requires q !in w.used && q !in w.logins
    ensures var v := Step(w, LoginRead(q, u, passwordOk));
      && (q in v.logins <==> u in w.store.users && passwordOk && w.store.users[u].isActive && !w.store.users[u].mustChangePassword)
      && (q in v.logins ==> v.logins[q] == u)
      && v.store == w.store
  {
  }

  /** A refresh gets past its reads exactly with an unrevoked, unexpired session of the token and then an active user. */
  lemma RefreshReadIff(w: World, q: RequestId, sid: SessionId, token: Token, now: int)
    requires q !in w.used && q !in w.refreshes
    ensures q in Step(w, RefreshRead(q, sid, token, now)).refreshes <==>
      && sid in w.store.sessions && w.store.sessions[sid].token == token
      && w.store.sessions[sid].revokedAt.None? && w.store.sessions[sid].expiresAt > now
  {
  }

  lemma CheckUserIff(w: World, q: RequestId)
    requires q in w.refreshes && w.refreshes[q].sid in w.store.sessions
    ensures var v, u := Step(w, CheckUser(q)), w.store.sessions[w.refreshes[q].sid].user;
      && (q in v.refreshes <==> u in w.store.users && w.store.users[u].isActive)
      && (q in v.refreshes ==> v.refreshes[q].checked)
  {
  }

  /** The users whose right password some login of the run presented. */
  function Passworded(ops: seq<Op>): set<UserId> {
    set i | 0 <= i < |ops| && ops[i].LoginRead? && ops[i].passwordOk :: ops[i].user
  }

  /** Every session and every login in flight belongs to one of these users. */
  ghost predicate Known(w: World, us: set<UserId>) {
    && (forall x | x in w.store.sessions :: w.store.sessions[x].user in us)
    && (forall q | q in w.logins :: w.logins[q] in us)
  }

  lemma KnownStep(w: World, op: Op, us: set<UserId>)
    requires Known(w, us)
    ensures Known(Step(w, op), us + Passworded([op]))
  {
    if op.LoginRead? {
      assert [op][0] == op && (op.passwordOk ==> op.user in Passworded([op]));
    }
  }

  lemma {:induction false} KnownRun(w: World, ops: seq<Op>, us: set<UserId>)
    requires Known(w, us)
    ensures Known(Run(w, ops), us + Passworded(ops))
    decreases |ops|
  {
    if ops != [] {
      KnownStep(w, ops[0], us);
      KnownRun(Step(w, ops[0]), ops[1..], us + Passworded([ops[0]]));
      assert Passworded([ops[0]]) + Passworded(ops[1..]) <= Passworded(ops) by {
        assert forall i | 0 <= i < |ops[1..]| :: ops[1..][i] == ops[i + 1];
        assert [ops[0]][0] == ops[0];
      }
    }
  }

  /** In every run each session's user has presented the right password. */
  lemma EverySessionHadItsPassword(ops: seq<Op>, x: SessionId)
    requires x in Run(EMPTY, ops).store.sessions
    ensures exists i :: 0 <= i < |ops| && ops[i].LoginRead? && ops[i].passwordOk
              && ops[i].user == Run(EMPTY, ops).store.sessions[x].user
  {
    KnownRun(EMPTY, ops, {});
    assert Run(EMPTY, ops).store.sessions[x].user in {} + Passworded(ops);
  }

  // ---------------------------------------------------------------- refresh tokens

  predicate IsWrite(e: Event, t: Token) {
    e.Wrote? && e.token == t
  }

  /** Some write from position `n` of the log on accepts the token. */
  ghost predicate AcceptedSince(log: seq<Event>, n: nat, t: Token) {
    exists i :: n <= i < |log| && IsWrite(log[i], t)
  }

  ghost predicate SessionOk(w: World, v: Session) {
    v.token in w.issued && !AcceptedSince(w.log, 0, v.token) && v.user in w.store.users
  }

  ghost predicate RefreshOk(w: World, q: RequestId, r: Refreshing) {
    && q in w.used && r.sid in w.store.sessions && r.token in w.issued && Read(q, r.token) in w.log
    && (forall i | 0 <= i < |w.log| && w.log[i].Wrote? :: w.log[i].request != q)
    && (forall x | x in w.store.sessions && w.store.sessions[x].token == r.token :: x == r.sid)
  }

  /** A request writes once, after its own read; and no token is read after it was accepted. */
  ghost predicate LogOk(log: seq<Event>) {
    && (forall j | 0 <= j < |log| && log[j].Wrote? :: Read(log[j].request, log[j].token) in log)
    && (forall i, j | 0 <= i < j < |log| && log[i].Wrote? && log[j].Wrote? :: log[i].request != log[j].request)
    && (forall i, j | 0 <= i < j < |log| && log[i].Wrote? && log[j].Read? :: log[i].token != log[j].token)
  }

  ghost predicate Inv(w: World) {
    && TokensUnique(w.store) && LogOk(w.log)
    && (forall x | x in w.store.sessions :: SessionOk(w, w.store.sessions[x]))
    && (forall q | q in w.refreshes :: RefreshOk(w, q, w.refreshes[q]))
    && (forall q | q in w.logins :: w.logins[q] in w.store.users)
    && (forall i | 0 <= i < |w.log| :: w.log[i].token in w.issued && w.log[i].request in w.used)
  }

  /** Nothing is logged and no token issued; tokens, owners and requests stay as they are. */
  ghost predicate Quiet(w: World, v: World) {
    && v.log == w.log && v.issued == w.issued && w.used <= v.used
    && (forall q | q in v.refreshes ::
          q in w.refreshes && v.refreshes[q].sid == w.refreshes[q].sid && v.refreshes[q].token == w.refreshes[q].token)
    && (forall q | q in v.logins :: v.logins[q] in v.store.users)
    && SameTokens(w.store, v.store)
  }

  ghost predicate SameTokens(s: Store, t: Store) {
    && t.sessions.Keys == s.sessions.Keys && s.users.Keys <= t.users.Keys
    && (forall x | x in s.sessions :: t.sessions[x].token == s.sessions[x].token && t.sessions[x].user == s.sessions[x].user)
  }

  lemma QuietKeeps(w: World, v: World)
    requires Inv(w) && Quiet(w, v)
    ensures Inv(v)
  {
    forall q | q in v.refreshes ensures RefreshOk(v, q, v.refreshes[q]) {
      assert RefreshOk(w, q, w.refreshes[q]);
    }
    forall x | x in v.store.sessions ensures SessionOk(v, v.store.sessions[x]) {
      assert SessionOk(w, w.store.sessions[x]);
    }
  }

  predicate IsQuiet(op: Op) {
    !op.LoginWrite? && !op.RefreshRead? && !op.RefreshWrite?
  }

  lemma StampedTokens(s: Store, found: Revoking)
    ensures SameTokens(s, Stamped(s, found))
  {
  }

  lemma QuietRevoke(w: World, op: Op)
    requires (forall q | q in w.logins :: w.logins[q] in w.store.users) && (op.RevokeRead? || op.RevokeList? || op.RevokeWrite? || op.RollBack?)
    ensures Quiet(w, Step(w, op))
  {
    if op.RevokeWrite? && op.request in w.revokes {
      StampedTokens(w.store, w.revokes[op.request]);
    }
  }

  lemma QuietClosing(w: World, op: Op)
    requires (forall q | q in w.logins :: w.logins[q] in w.store.users) && (op.Load? || op.List? || op.Finish?)
    ensures Quiet(w, Step(w, op))
  {
    if op.Finish? && op.request in w.closings && w.closings[op.request].Listed? {
      StampedTokens(w.store, w.closings[op.request].found);
    }
  }

  lemma QuietRead(w: World, op: Op)
    requires (forall q | q in w.logins :: w.logins[q] in w.store.users) && (op.LoginRead? || op.CheckUser?)
    ensures Quiet(w, Step(w, op))
  {
  }

  lemma QuietOther(w: World, op: Op)
    requires (forall q | q in w.logins :: w.logins[q] in w.store.users) && (op.Reactivate? || op.Register? || op.GiveUp?)
    ensures Quiet(w, Step(w, op))
  {
  }

  lemma LoginWriteKeeps(w: World, q: RequestId, sid: SessionId, token: Token, now: int, ttl: int)
    requires Inv(w)
    ensures Inv(DoLoginWrite(w, q, sid, token, now, ttl))
  {
    var v := DoLoginWrite(w, q, sid, token, now, ttl);
    if v != w {
      forall p | p in v.refreshes ensures RefreshOk(v, p, v.refreshes[p]) {
        assert RefreshOk(w, p, w.refreshes[p]);
      }
      forall x | x in v.store.sessions ensures SessionOk(v, v.store.sessions[x]) {
        assert x != sid ==> SessionOk(w, w.store.sessions[x]);
      }
    }
  }

  lemma ReadLogOk(log: seq<Event>, q: RequestId, t: Token)
    requires LogOk(log) && !AcceptedSince(log, 0, t)
    ensures LogOk(log + [Read(q, t)])
  {
  }

  lemma ReadAcceptsNothing(log: seq<Event>, q: RequestId, t: Token, x: Token)
    requires !AcceptedSince(log, 0, x)
    ensures !AcceptedSince(log + [Read(q, t)], 0, x)
  {
  }

  lemma ReadRefreshOk(w: World, v: World, q: RequestId, p: RequestId, t: Token)
    requires p in w.refreshes && RefreshOk(w, p, w.refreshes[p])
    requires v.log == w.log + [Read(q, t)] && v.issued == w.issued && w.used <= v.used && v.store == w.store
    ensures RefreshOk(v, p, w.refreshes[p])
  {
  }

  lemma RefreshReadKeeps(w: World, q: RequestId, sid: SessionId, token: Token, now: int)
    requires Inv(w)
    ensures Inv(DoRefreshRead(w, q, sid, token, now))
  {
    var v := DoRefreshRead(w, q, sid, token, now);
    if v != w {
      assert SessionOk(w, w.store.sessions[sid]);
      ReadLogOk(w.log, q, token);
      forall p | p in v.refreshes ensures RefreshOk(v, p, v.refreshes[p]) {
        if p != q {
          assert RefreshOk(w, p, w.refreshes[p]);
          ReadRefreshOk(w, v, q, p, token);
        }
      }
      forall x | x in v.store.sessions ensures SessionOk(v, v.store.sessions[x]) {
        assert SessionOk(w, w.store.sessions[x]);
        ReadAcceptsNothing(w.log, q, token, w.store.sessions[x].token);
      }
    }
  }

  /** After a write of `q` the log says so, and the other requests in flight are as before. */
  lemma WrittenLogOk(w: World, q: RequestId)
    requires Inv(w) && q in w.refreshes
    ensures LogOk(w.log + [Wrote(q, w.refreshes[q].token)])
  {
    assert RefreshOk(w, q, w.refreshes[q]);
  }

  lemma WrittenSessionOk(w: World, v: World, q: RequestId, x: SessionId)
    requires Inv(w) && q in w.refreshes && x in w.store.sessions && x != w.refreshes[q].sid
    requires v.log == w.log + [Wrote(q, w.refreshes[q].token)] && w.issued <= v.issued && v.store.users == w.store.users
    ensures SessionOk(v, w.store.sessions[x])
  {
    assert SessionOk(w, w.store.sessions[x]) && RefreshOk(w, q, w.refreshes[q]);
  }

  lemma WrittenRefreshOk(w: World, v: World, q: RequestId, p: RequestId)
    requires Inv(w) && q in w.refreshes && p in w.refreshes && p != q && w.refreshes[q].sid in w.store.sessions
    requires v.log == w.log + [Wrote(q, w.refreshes[q].token)] && w.issued <= v.issued && v.used == w.used
    requires v.store.sessions.Keys == w.store.sessions.Keys
    requires v.store.sessions[w.refreshes[q].sid].token !in w.issued
    requires forall x | x in w.store.sessions && x != w.refreshes[q].sid :: v.store.sessions[x] == w.store.sessions[x]
    ensures RefreshOk(v, p, w.refreshes[p])
  {
    assert RefreshOk(w, p, w.refreshes[p]);
  }

  lemma RefreshWriteKeeps(w: World, q: RequestId, renewed: Token, ttl: int)
    requires Inv(w)
    ensures Inv(DoRefreshWrite(w, q, renewed, ttl))
  {
    var v := DoRefreshWrite(w, q, renewed, ttl);
    if v != w {
      var r := w.refreshes[q];
      assert RefreshOk(w, q, r) && SessionOk(w, w.store.sessions[r.sid]);
      WrittenLogOk(w, q);
      forall p | p in v.refreshes ensures RefreshOk(v, p, v.refreshes[p]) {
        WrittenRefreshOk(w, v, q, p);
      }
      forall x | x in v.store.sessions ensures SessionOk(v, v.store.sessions[x]) {
        if x != r.sid {
          WrittenSessionOk(w, v, q, x);
        }
      }
    }
  }

  lemma StepKeeps(w: World, op: Op)
    requires Inv(w)
    ensures Inv(Step(w, op))
  {
    if op.LoginWrite? {
      LoginWriteKeeps(w, op.request, op.sid, op.token, op.now, op.ttl);
    } else if op.RefreshRead? {
      RefreshReadKeeps(w, op.request, op.sid, op.token, op.now);
    } else if op.RefreshWrite? {
      RefreshWriteKeeps(w, op.request, op.renewed, op.ttl);
    } else {
      QuietStep(w, op);
      QuietKeeps(w, Step(w, op));
    }
  }

  lemma QuietStep(w: World, op: Op)
    requires (forall q | q in w.logins :: w.logins[q] in w.store.users) && IsQuiet(op)
    ensures Quiet(w, Step(w, op))
  {
    if op.RevokeRead? || op.RevokeList? || op.RevokeWrite? || op.RollBack? {
      QuietRevoke(w, op);
    } else if op.Load? || op.List? || op.Finish? {
      QuietClosing(w, op);
    } else if op.LoginRead? || op.CheckUser? {
      QuietRead(w, op);
    } else {
      QuietOther(w, op);
    }
  }

  lemma {:induction false} InvRun(w: World, ops: seq<Op>)
    requires Inv(w)
    ensures Inv(Run(w, ops))
    decreases |ops|
  {
    if ops != [] {
      StepKeeps(w, ops[0]);
      InvRun(Step(w, ops[0]), ops[1..]);
    }
  }

  ghost predicate AcceptedTwice(log: seq<Event>, t: Token) {
    exists i, j :: 0 <= i < j < |log| && IsWrite(log[i], t) && IsWrite(log[j], t)
  }

  ghost predicate FirstWrite(log: seq<Event>, i: nat, t: Token) {
    i < |log| && IsWrite(log[i], t) && forall k | 0 <= k < i :: !IsWrite(log[k], t)
  }

  /** The request read the token before position `i`, and went on to write. */
  ghost predicate ReadBeforeAndWrote(log: seq<Event>, i: nat, q: RequestId, t: Token) {
    i <= |log| && Read(q, t) in log[..i] && Wrote(q, t) in log
  }

  ghost predicate TwoReadFirst(log: seq<Event>, t: Token) {
    exists i, q, r :: FirstWrite(log, i, t) && q != r && ReadBeforeAndWrote(log, i, q, t) && ReadBeforeAndWrote(log, i, r, t)
  }

  lemma {:induction false} FirstExists(log: seq<Event>, j: nat, t: Token) returns (i: nat)
    requires j < |log| && IsWrite(log[j], t)
    ensures i <= j && FirstWrite(log, i, t)
  {
    i := j;
    if k :| 0 <= k < j && IsWrite(log[k], t) {
      i := FirstExists(log, k, t);
    }
  }

  /** Whoever wrote the token had read it before anyone wrote it. */
  lemma ReadFirst(log: seq<Event>, i: nat, j: nat, t: Token)
    requires LogOk(log) && FirstWrite(log, i, t) && j < |log| && IsWrite(log[j], t)
    ensures ReadBeforeAndWrote(log, i, log[j].request, t)
  {
    var e := Read(log[j].request, t);
    assert e in log && log[j] == Wrote(log[j].request, t);
    var k :| 0 <= k < |log| && log[k] == e;
    assert k < i && log[..i][k] == e;
  }

  lemma TwiceMeansBothReadFirst(log: seq<Event>, t: Token, i: nat, j: nat)
    requires LogOk(log) && i < j < |log| && IsWrite(log[i], t) && IsWrite(log[j], t)
    ensures TwoReadFirst(log, t)
  {
    var f := FirstExists(log, i, t);
    ReadFirst(log, f, i, t);
    ReadFirst(log, f, j, t);
  }

  lemma BothWroteMeansTwice(log: seq<Event>, t: Token, q: RequestId, r: RequestId)
    requires q != r && Wrote(q, t) in log && Wrote(r, t) in log
    ensures AcceptedTwice(log, t)
  {
    var i :| 0 <= i < |log| && log[i] == Wrote(q, t);
    var j :| 0 <= j < |log| && log[j] == Wrote(r, t);
    assert IsWrite(log[if i < j then i else j], t) && IsWrite(log[if i < j then j else i], t);
  }

  /** In every run a token is accepted twice if and only if two requests that both complete read it before its first write. */
  lemma TokenAcceptedTwiceIff(ops: seq<Op>, t: Token)
    ensures AcceptedTwice(Run(EMPTY, ops).log, t) <==> TwoReadFirst(Run(EMPTY, ops).log, t)
  {
    InvRun(EMPTY, ops);
    var log := Run(EMPTY, ops).log;
    if i, j :| 0 <= i < j < |log| && IsWrite(log[i], t) && IsWrite(log[j], t) {
      TwiceMeansBothReadFirst(log, t, i, j);
    }
    if f, q, r :| FirstWrite(log, f, t) && q != r && ReadBeforeAndWrote(log, f, q, t) && ReadBeforeAndWrote(log, f, r, t) {
      BothWroteMeansTwice(log, t, q, r);
    }
  }

  /** Nobody holds the token any more: neither a session nor a request in flight. */
  ghost predicate Spent(w: World, t: Token) {
    && t in w.issued
    && (forall x | x in w.store.sessions :: w.store.sessions[x].token != t)
    && (forall q | q in w.refreshes :: w.refreshes[q].token != t)
  }

  lemma SpentStep(w: World, op: Op, n: nat, t: Token)
    requires Spent(w, t) && n <= |w.log| && !AcceptedSince(w.log, n, t)
    ensures Spent(Step(w, op), t) && n <= |Step(w, op).log| && !AcceptedSince(Step(w, op).log, n, t)
  {
  }

  lemma {:induction false} SpentRun(w: World, ops: seq<Op>, n: nat, t: Token)
    requires Spent(w, t) && n <= |w.log| && !AcceptedSince(w.log, n, t)
    ensures !AcceptedSince(Run(w, ops).log, n, t)
    decreases |ops|
  {
    if ops != [] {
      SpentStep(w, ops[0], n, t);
      SpentRun(Step(w, ops[0]), ops[1..], n, t);
    }
  }

  lemma {:induction false} FreshToken(issued: set<Token>) returns (t: Token)
    ensures forall x | x in issued :: x < t
  {
    t := 0;
    if issued != {} {
      var x :| x in issued;
      var below := FreshToken(issued - {x});
      t := if x < below then below else x + 1;
      assert forall y | y in issued :: y == x || y in issued - {x};
    }
  }

  ghost predicate CanBeAcceptedAgain(w: World, t: Token) {
    exists ops :: AcceptedSince(Run(w, ops).log, |w.log|, t)
  }

  /** Rolling back the deactivations that hold the user row frees it. */
  lemma {:induction false} Unlocks(w: World, u: UserId, locks: set<RequestId>) returns (ops: seq<Op>)
    requires forall q | q in w.closings && w.closings[q].Listed? && w.closings[q].user == u :: q in locks
    ensures var v := Run(w, ops);
      && v.store == w.store && v.refreshes == w.refreshes && v.log == w.log && v.issued == w.issued
      && !RowLocked(v, u)
    decreases |locks|
  {
    ops := [];
    if locks != {} {
      var q :| q in locks;
      var v := Step(w, RollBack(q));
      var rest := Unlocks(v, u, locks - {q});
      ops := [RollBack(q)] + rest;
      assert ops[1..] == rest;
    }
  }

  /** A refresh in flight can complete, if need be once its user is active again. */
  lemma FinishesLater(w: World, p: RequestId, ttl: int)
    requires Inv(w) && p in w.refreshes
    ensures CanBeAcceptedAgain(w, w.refreshes[p].token)
  {
    assert RefreshOk(w, p, w.refreshes[p]);
    var sid := w.refreshes[p].sid;
    assert SessionOk(w, w.store.sessions[sid]);
    var u := w.store.sessions[sid].user;
    var first := Unlocks(w, u, w.closings.Keys);
    var v := Run(w, first);
    var next := FreshToken(v.issued);
    var rest := Completes(v, p, u, next, ttl);
    RunAppend(w, first, rest);
    assert IsWrite(Run(w, first + rest).log[|w.log|], w.refreshes[p].token);
  }

  lemma Completes(v: World, p: RequestId, u: UserId, next: Token, ttl: int) returns (ops: seq<Op>)
    requires p in v.refreshes && v.refreshes[p].sid in v.store.sessions && v.store.sessions[v.refreshes[p].sid].user == u
    requires u in v.store.users && !RowLocked(v, u) && next !in v.issued
    ensures Run(v, ops).log == v.log + [Wrote(p, v.refreshes[p].token)]
  {
    var a, b, e := Reactivate(u), CheckUser(p), RefreshWrite(p, next, ttl);
    var v1 := Step(v, a);
    var v2 := Step(v1, b);
    assert OwnerActive(v1.store, v.refreshes[p].sid) && v2.refreshes[p] == v.refreshes[p].(checked := true);
    RunOne(v, a);
    RunSnoc(v, [a], b);
    RunSnoc(v, [a] + [b], e);
    ops := [a] + [b] + [e];
  }

  /** Once a write has accepted a token, another can if and only if its request is in flight with that token by then. */
  lemma AcceptedAgainIff(w: World, q: RequestId, renewed: Token, ttl: int)
    requires Inv(w) && q in w.refreshes && w.refreshes[q].checked && renewed !in w.issued
    ensures CanBeAcceptedAgain(Step(w, RefreshWrite(q, renewed, ttl)), w.refreshes[q].token)
            <==> exists p :: p in w.refreshes && p != q && w.refreshes[p].token == w.refreshes[q].token
  {
    var t, v := w.refreshes[q].token, Step(w, RefreshWrite(q, renewed, ttl));
    assert RefreshOk(w, q, w.refreshes[q]);
    if p :| p in w.refreshes && p != q && w.refreshes[p].token == t {
      StepKeeps(w, RefreshWrite(q, renewed, ttl));
      FinishesLater(v, p, ttl);
    } else {
      forall ops ensures !AcceptedSince(Run(v, ops).log, |v.log|, t) {
        SpentRun(v, ops, |v.log|, t);
      }
    }
  }

  /** One active user with one session, holding token 7. */
  lemma OneSession() returns (ops: seq<Op>, w: World)
    ensures w == Run(EMPTY, ops) && w.issued == {7} && w.used == {0} && w.refreshes == map[] && w.log == []
    ensures w.store == Store(map[0 := User(true, false)], map[0 := Session(0, 7, None, 10, None)])
  {
    ops := [Register(0, false), LoginRead(0, 0, true), LoginWrite(0, 0, 7, 0, 10)];
    var w1 := Step(EMPTY, Register(0, false));
    var w2 := Step(w1, LoginRead(0, 0, true));
    w := Step(w2, LoginWrite(0, 0, 7, 0, 10));
  }

  /** Two refreshes of it in flight, each with both its reads done. */
  lemma TwoReads() returns (ops: seq<Op>, w: World)
    ensures w == Run(EMPTY, ops)
    ensures w.refreshes == map[1 := Refreshing(0, 7, 1, true), 2 := Refreshing(0, 7, 1, true)]
    ensures 0 in w.store.sessions && w.issued == {7} && w.log == [Read(1, 7), Read(2, 7)]
  {
    ops, w := OneSession();
    var w1 := DoRefreshRead(w, 1, 0, 7, 1);
    var w2 := DoRefreshRead(w1, 2, 0, 7, 1);
    var w3 := DoCheckUser(w2, 1);
    RunSnoc(EMPTY, ops, RefreshRead(1, 0, 7, 1));
    ops := ops + [RefreshRead(1, 0, 7, 1)];
    RunSnoc(EMPTY, ops, RefreshRead(2, 0, 7, 1));
    ops := ops + [RefreshRead(2, 0, 7, 1)];
    RunSnoc(EMPTY, ops, CheckUser(1));
    ops := ops + [CheckUser(1)];
    RunSnoc(EMPTY, ops, CheckUser(2));
    ops, w := ops + [CheckUser(2)], DoCheckUser(w3, 2);
  }

  /** Two refreshes of one token that both read before either writes are both accepted. */
  lemma TwoRefreshesRace() returns (ops: seq<Op>)
    ensures AcceptedTwice(Run(EMPTY, ops).log, 7)
  {
    var w;
    ops, w := TwoReads();
    var v := DoRefreshWrite(w, 1, 8, 10);
    var u := DoRefreshWrite(v, 2, 9, 10);
    assert u.log == [Read(1, 7), Read(2, 7), Wrote(1, 7), Wrote(2, 7)];
    assert IsWrite(u.log[2], 7) && IsWrite(u.log[3], 7);
    RunSnoc(EMPTY, ops, RefreshWrite(1, 8, 10));
    ops := ops + [RefreshWrite(1, 8, 10)];
    RunSnoc(EMPTY, ops, RefreshWrite(2, 9, 10));
    ops := ops + [RefreshWrite(2, 9, 10)];
  }
}
