/**
  The session store: login, refresh-token rotation, revocation and account deactivation, one call
  at a time. Raw tokens stand for their hashes (hashing is injective, fresh tokens are distinct).
*/
module Sessions {

  type UserId = nat
  type SessionId = nat
  type Token = nat

  datatype Option<T> = None | Some(value: T)

  datatype User = User(isActive: bool, mustChangePassword: bool)

  datatype Session = Session(user: UserId, token: Token, lastUsedAt: Option<int>, expiresAt: int, revokedAt: Option<int>)

  datatype Store = Store(users: map<UserId, User>, sessions: map<SessionId, Session>)

  datatype LoginOutcome = InvalidCredentials | AccountDeactivated | MustChangePassword | LoggedIn

  datatype RevokeOutcome = Revoked | NotFound | Forbidden

  // ---------------------------------------------------------------- specification

  function LoginResult(s: Store, u: UserId, passwordOk: bool): LoginOutcome {
    if u !in s.users || !passwordOk then InvalidCredentials
    else if !s.users[u].isActive then AccountDeactivated
    else if s.users[u].mustChangePassword then MustChangePassword
    else LoggedIn
  }

  function AfterLogin(s: Store, u: UserId, passwordOk: bool, sid: SessionId, token: Token, now: int, ttl: int): Store {
    if LoginResult(s, u, passwordOk) == LoggedIn
    then s.(sessions := s.sessions[sid := Session(u, token, None, now + ttl, None)])
    else s
  }

  predicate Refreshable(s: Store, sid: SessionId, now: int) {
    && sid in s.sessions && s.sessions[sid].revokedAt.None? && s.sessions[sid].expiresAt > now
    && s.sessions[sid].user in s.users && s.users[s.sessions[sid].user].isActive
  }

  function Rotated(s: Store, sid: SessionId, renewed: Token, now: int, ttl: int): Store
    requires sid in s.sessions
  {
    s.(sessions := s.sessions[sid := s.sessions[sid].(token := renewed, lastUsedAt := Some(now), expiresAt := now + ttl)])
  }

  function Revocation(v: Session, now: int): Session {
    if v.revokedAt.None? then v.(revokedAt := Some(now)) else v
  }

  function RevokedAll(s: Store, u: UserId, keep: Option<SessionId>, now: int): Store {
    s.(sessions := map sid | sid in s.sessions ::
         if s.sessions[sid].user == u && keep != Some(sid) then Revocation(s.sessions[sid], now) else s.sessions[sid])
  }

  function AfterDeactivate(s: Store, u: UserId, now: int): Store {
    if u !in s.users || !s.users[u].isActive then s
    else RevokedAll(s.(users := s.users[u := s.users[u].(isActive := false)]), u, None, now)
  }

  function AfterReactivate(s: Store, u: UserId): Store {
    if u !in s.users then s else s.(users := s.users[u := s.users[u].(isActive := true)])
  }

  /** The unique index on the refresh-token hash. */
  ghost predicate TokensUnique(s: Store) {
    forall a, b | a in s.sessions && b in s.sessions && s.sessions[a].token == s.sessions[b].token :: a == b
  }

  // ---------------------------------------------------------------- the service

  class SessionService {
    var users: map<UserId, User>
    var sessions: map<SessionId, Session>

    constructor (users: map<UserId, User>)
      ensures Value() == Store(users, map[])
    {
      this.users, this.sessions := users, map[];
    }

    ghost function Value(): Store
      reads this
    {
      Store(users, sessions)
    }

    method Login(u: UserId, passwordOk: bool, sid: SessionId, token: Token, now: int, ttl: int) returns (out: LoginOutcome)
      requires sid !in sessions
      modifies this
      ensures out == LoginResult(old(Value()), u, passwordOk)
      ensures Value() == AfterLogin(old(Value()), u, passwordOk, sid, token, now, ttl)
      ensures out == InvalidCredentials <==> u !in old(users) || !passwordOk
      ensures out == AccountDeactivated <==> u in old(users) && passwordOk && !old(users)[u].isActive
      ensures out == LoggedIn <==> u in old(users) && passwordOk && old(users)[u].isActive && !old(users)[u].mustChangePassword
      ensures users == old(users)
      ensures sessions == if out == LoggedIn then old(sessions)[sid := Session(u, token, None, now + ttl, None)] else old(sessions)
    {
      if u !in users || !passwordOk {
        return InvalidCredentials;
      }
      if !users[u].isActive {
        return AccountDeactivated;
      }
      if users[u].mustChangePassword {
        return MustChangePassword;
      }
      sessions := sessions[sid := Session(u, token, None, now + ttl, None)];
      out := LoggedIn;
    }

    /** Accepted exactly when some refreshable session holds the token, which is then rotated out. */
    method Refresh(token: Token, renewed: Token, now: int, ttl: int) returns (ok: bool, sid: SessionId)
      requires TokensUnique(Value())
      modifies this
      ensures ok <==> exists x :: x in old(sessions) && old(sessions)[x].token == token && Refreshable(old(Value()), x, now)
      ensures ok ==> sid in old(sessions) && old(sessions)[sid].token == token
      ensures Value() == if ok then Rotated(old(Value()), sid, renewed, now, ttl) else old(Value())
      ensures ok <==> exists x :: x in old(sessions) && old(sessions)[x].token == token && old(sessions)[x].revokedAt.None?
                        && old(sessions)[x].expiresAt > now && old(sessions)[x].user in old(users) && old(users)[old(sessions)[x].user].isActive
      ensures ok ==> sid in sessions && sessions[sid] == old(sessions)[sid].(token := renewed, lastUsedAt := Some(now), expiresAt := now + ttl)
    {
      ok, sid := false, 0;
      var found := set x | x in sessions && sessions[x].token == token;
      assert forall x | x in sessions && sessions[x].token == token :: x in found;
      if found == {} {
        return;
      }
      sid :| sid in found;
      var v := sessions[sid];
      if v.revokedAt.Some? || v.expiresAt <= now {
        return;
      }
      if v.user !in users || !users[v.user].isActive {
        return;
      }
      sessions := sessions[sid := v.(token := renewed, lastUsedAt := Some(now), expiresAt := now + ttl)];
      ok := true;
      assert Refreshable(old(Value()), sid, now);
    }

    /** Revoke one session on its owner's behalf; idempotent, and the first revocation time stays. */
    method RevokeSession(sid: SessionId, u: UserId, now: int) returns (out: RevokeOutcome)
      modifies this
      ensures out == if sid !in old(sessions) then NotFound else if old(sessions)[sid].user != u then Forbidden else Revoked
      ensures users == old(users)
      ensures sessions == if out == Revoked then old(sessions)[sid := Revocation(old(sessions)[sid], now)] else old(sessions)
      ensures out == Revoked ==> sessions[sid].revokedAt == if old(sessions)[sid].revokedAt.Some? then old(sessions)[sid].revokedAt else Some(now)
    {
      if sid !in sessions {
        return NotFound;
      }
      if sessions[sid].user != u {
        return Forbidden;
      }
      if sessions[sid].revokedAt.None? {
        sessions := sessions[sid := sessions[sid].(revokedAt := Some(now))];
      } else {
        assert sessions[sid := sessions[sid]] == sessions;
      }
      out := Revoked;
    }

    /** The bulk loop; `revoked` are the sessions this call revoked. */
    method RevokeSessionsForUser(u: UserId, keep: Option<SessionId>, now: int) returns (revoked: set<SessionId>)
      modifies this
      ensures Value() == RevokedAll(old(Value()), u, keep, now)
      ensures revoked == set x | x in old(sessions) && old(sessions)[x].user == u && old(sessions)[x].revokedAt.None? && keep != Some(x)
      ensures sessions.Keys == old(sessions).Keys && users == old(users)
      ensures forall x | x in sessions :: sessions[x] == if x in revoked then old(sessions)[x].(revokedAt := Some(now)) else old(sessions)[x]
    {
      var active := set x | x in sessions && sessions[x].user == u && sessions[x].revokedAt.None?;
      var todo := active;
      revoked := {};
      while todo != {}
        invariant users == old(users) && todo <= active && sessions.Keys == old(sessions).Keys
        invariant revoked == set x | x in active - todo && keep != Some(x)
        invariant forall x | x in sessions :: sessions[x] ==
                    if x in revoked then Revocation(old(sessions)[x], now) else old(sessions)[x]
        decreases todo
      {
        var x :| x in todo;
        if keep != Some(x) {
          sessions := sessions[x := sessions[x].(revokedAt := Some(now))];
          revoked := revoked + {x};
        }
        todo := todo - {x};
      }
      assert sessions == RevokedAll(old(Value()), u, keep, now).sessions;
    }

    method Deactivate(u: UserId, now: int) returns (revoked: set<SessionId>)
      modifies this
      ensures Value() == AfterDeactivate(old(Value()), u, now)
      ensures u in users ==> !users[u].isActive
      ensures u in old(users) && old(users)[u].isActive ==>
                (forall x | x in sessions && sessions[x].user == u :: sessions[x].revokedAt.Some?)
      ensures u !in old(users) || !old(users)[u].isActive ==> users == old(users) && sessions == old(sessions)
      ensures forall x | x in old(sessions) && old(sessions)[x].user != u :: x in sessions && sessions[x] == old(sessions)[x]
    {
      revoked := {};
      if u in users && users[u].isActive {
        users := users[u := users[u].(isActive := false)];
        revoked := RevokeSessionsForUser(u, None, now);
      }
    }

    method Reactivate(u: UserId) returns (changed: bool)
      modifies this
      ensures Value() == AfterReactivate(old(Value()), u)
      ensures changed <==> u in old(users) && !old(users)[u].isActive
      ensures sessions == old(sessions) && (u in users ==> users[u].isActive)
      ensures users == if changed then old(users)[u := old(users)[u].(isActive := true)] else old(users)
    {
      changed := u in users && !users[u].isActive;
      if changed {
        users := users[u := users[u].(isActive := true)];
      } else if u in users {
        assert users[u := users[u].(isActive := true)] == users;
      }
    }
  }
}
