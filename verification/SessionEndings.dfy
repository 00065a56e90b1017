/**
  How sessions end when requests interleave: revocations that stamp what they found, deactivations
  that list sessions before they commit, and the logins that get past them.
*/
module SessionEndings {
  import opened Sessions
  import opened SessionRaces

  /** The steps of a revocation with nothing in between are the whole call. */
  lemma AloneRevokes(w: World, q: RequestId, sid: SessionId, u: UserId, now: int)
    requires q !in w.used && q !in w.revokes
    ensures Run(w, [RevokeRead(q, sid, u, now)] + [RevokeWrite(q)]).store.sessions
         == if sid in w.store.sessions && w.store.sessions[sid].user == u
            then w.store.sessions[sid := Revocation(w.store.sessions[sid], now)] else w.store.sessions
  {
    RunOne(w, RevokeRead(q, sid, u, now));
    RunSnoc(w, [RevokeRead(q, sid, u, now)], RevokeWrite(q));
  }

  lemma AloneRevokesAll(w: World, q: RequestId, u: UserId, keep: Option<SessionId>, now: int)
    requires q !in w.used && q !in w.revokes
    ensures Run(w, [RevokeList(q, u, keep, now)] + [RevokeWrite(q)]).store == RevokedAll(w.store, u, keep, now)
  {
    RunOne(w, RevokeList(q, u, keep, now));
    RunSnoc(w, [RevokeList(q, u, keep, now)], RevokeWrite(q));
    assert DoRevokeWrite(DoRevokeList(w, q, u, keep, now), q).store.sessions == RevokedAll(w.store, u, keep, now).sessions;
  }

  /** So are those of a deactivation. */
  lemma AloneDeactivates(w: World, q: RequestId, u: UserId, now: int)
    requires q !in w.used && q !in w.closings && !RowLocked(w, u)
    ensures Run(w, [Load(q, u)] + [List(q, now)] + [Finish(q)]).store == AfterDeactivate(w.store, u, now)
  {
    RunOne(w, Load(q, u));
    RunSnoc(w, [Load(q, u)], List(q, now));
    RunSnoc(w, [Load(q, u)] + [List(q, now)], Finish(q));
    var v := DoLoad(w, q, u);
    if v != w {
      assert !RowLocked(v, u);
      assert DoList(v, q, now).closings[q] == Listed(u, Revoking(Live(w.store, u), now));
      StampsLive(w.store, u, now);
    }
  }

  lemma StampsLive(s: Store, u: UserId, now: int)
    ensures Stamped(s, Revoking(Live(s, u), now)).sessions == RevokedAll(s, u, None, now).sessions
    ensures forall users :: RevokedAll(s.(users := users), u, None, now).sessions == RevokedAll(s, u, None, now).sessions
  {
  }

  // ---------------------------------------------------------------- revocation

  /** A session keeps existing, keeps its owner, and once revoked stays revoked. */
  ghost predicate RevocationsKept(s: Store, t: Store) {
    forall x | x in s.sessions ::
      && x in t.sessions && t.sessions[x].user == s.sessions[x].user
      && (s.sessions[x].revokedAt.Some? ==> t.sessions[x].revokedAt.Some?)
  }

  lemma KeptStep(w: World, op: Op)
    ensures RevocationsKept(w.store, Step(w, op).store)
  {
  }

  lemma KeptOn(s: Store, t: Store, u: Store)
    requires RevocationsKept(s, t) && RevocationsKept(t, u)
    ensures RevocationsKept(s, u)
  {
  }

  lemma {:induction false} RevocationIsForever(w: World, ops: seq<Op>)
    ensures RevocationsKept(w.store, Run(w, ops).store)
    decreases |ops|
  {
    if ops != [] {
      var v := Step(w, ops[0]);
      KeptStep(w, ops[0]);
      RevocationIsForever(v, ops[1..]);
      KeptOn(w.store, v.store, Run(v, ops[1..]).store);
    }
  }

  predicate RevokedAt(s: Store, x: SessionId, at: int) {
    x in s.sessions && s.sessions[x].revokedAt == Some(at)
  }

  /** A revocation or deactivation in flight has this session among those it will stamp, with another time. */
  ghost predicate RestampPending(w: World, x: SessionId, at: int) {
    || (exists q :: q in w.revokes && x in w.revokes[q].ids && w.revokes[q].at != at)
    || (exists q :: q in w.closings && w.closings[q].Listed? && x in w.closings[q].found.ids && w.closings[q].found.at != at)
  }

  lemma FixedStep(w: World, op: Op, x: SessionId, at: int)
    requires RevokedAt(w.store, x, at) && !RestampPending(w, x, at)
    ensures RevokedAt(Step(w, op).store, x, at) && !RestampPending(Step(w, op), x, at)
  {
  }

  lemma {:induction false} FixedRun(w: World, ops: seq<Op>, x: SessionId, at: int)
    requires RevokedAt(w.store, x, at) && !RestampPending(w, x, at)
    ensures RevokedAt(Run(w, ops).store, x, at)
    decreases |ops|
  {
    if ops != [] {
      FixedStep(w, ops[0], x, at);
      FixedRun(Step(w, ops[0]), ops[1..], x, at);
    }
  }

  /** The time of a revocation stays as it is in every continuation if and only if no request in flight will stamp the session with another. */
  lemma RevocationTimeStaysIff(w: World, x: SessionId, at: int)
    requires RevokedAt(w.store, x, at)
    ensures (forall ops :: RevokedAt(Run(w, ops).store, x, at)) <==> !RestampPending(w, x, at)
  {
    if q :| q in w.revokes && x in w.revokes[q].ids && w.revokes[q].at != at {
      RunOne(w, RevokeWrite(q));
      assert !RevokedAt(Run(w, [RevokeWrite(q)]).store, x, at);
    } else if q :| q in w.closings && w.closings[q].Listed? && x in w.closings[q].found.ids && w.closings[q].found.at != at {
      RunOne(w, Finish(q));
      assert !RevokedAt(Run(w, [Finish(q)]).store, x, at);
    } else {
      forall ops ensures RevokedAt(Run(w, ops).store, x, at) {
        FixedRun(w, ops, x, at);
      }
    }
  }

  /** Two revocations of one session that both read before either writes: the second moves the time. */
  lemma TwoRevocations() returns (ops: seq<Op>, last: Op)
    ensures RevokedAt(Run(EMPTY, ops).store, 0, 1) && RevokedAt(Run(EMPTY, ops + [last]).store, 0, 2)
  {
    var w;
    ops, w := OneSession();
    var a, b := RevokeRead(1, 0, 0, 1), RevokeRead(2, 0, 0, 2);
    var v := Step(Step(w, a), b);
    assert v.revokes[1] == Revoking({0}, 1) && v.revokes[2] == Revoking({0}, 2);
    RunSnoc(EMPTY, ops, a);
    RunSnoc(EMPTY, ops + [a], b);
    RunSnoc(EMPTY, ops + [a] + [b], RevokeWrite(1));
    ops, last := ops + [a] + [b] + [RevokeWrite(1)], RevokeWrite(2);
    RunSnoc(EMPTY, ops, last);
  }

  // ---------------------------------------------------------------- deactivated accounts

  ghost predicate NoLiveSession(w: World, u: UserId) {
    forall x | x in w.store.sessions && w.store.sessions[x].user == u :: w.store.sessions[x].revokedAt.Some?
  }

  ghost predicate InFlight(w: World, u: UserId) {
    exists q :: q in w.logins && w.logins[q] == u
  }

  predicate Inactive(w: World, u: UserId) {
    u in w.store.users && !w.store.users[u].isActive
  }

  /** Every session of the user is revoked or among those listed. */
  ghost predicate Covered(w: World, u: UserId, ids: set<SessionId>) {
    forall x | x in w.store.sessions && w.store.sessions[x].user == u :: w.store.sessions[x].revokedAt.Some? || x in ids
  }

  /** No login is in flight when the deactivation of its user commits, and none commits between that listing and that commit. */
  ghost predicate LoginKeepsOut(w: World, op: Op) {
    && (op.Finish? && op.request in w.closings ==> !InFlight(w, w.closings[op.request].user))
    && (op.LoginWrite? && op.request in w.logins ==> !RowLocked(w, w.logins[op.request]))
  }

  ghost predicate LoginsKeepOut(w: World, ops: seq<Op>)
    decreases |ops|
  {
    ops == [] || (LoginKeepsOut(w, ops[0]) && LoginsKeepOut(Step(w, ops[0]), ops[1..]))
  }

  ghost predicate Clean(w: World) {
    && (forall u | Inactive(w, u) :: NoLiveSession(w, u))
    && (forall q | q in w.closings && w.closings[q].Listed? :: Covered(w, w.closings[q].user, w.closings[q].found.ids))
    && (forall q | q in w.logins :: w.logins[q] in w.store.users && w.store.users[w.logins[q]].isActive)
    && (forall x | x in w.store.sessions :: w.store.sessions[x].user in w.store.users)
  }

  lemma CleanFinish(w: World, q: RequestId)
    requires Clean(w) && LoginKeepsOut(w, Finish(q))
    ensures Clean(DoFinish(w, q))
  {
    var v := DoFinish(w, q);
    forall u | Inactive(v, u) ensures NoLiveSession(v, u) {
      if v != w && u == w.closings[q].user {
        assert Covered(w, u, w.closings[q].found.ids);
      } else {
        assert Inactive(w, u);
      }
    }
    forall p | p in v.closings && v.closings[p].Listed? ensures Covered(v, v.closings[p].user, v.closings[p].found.ids) {
      assert Covered(w, w.closings[p].user, w.closings[p].found.ids);
    }
  }

  lemma CleanLoginWrite(w: World, q: RequestId, sid: SessionId, token: Token, now: int, ttl: int)
    requires Clean(w) && LoginKeepsOut(w, LoginWrite(q, sid, token, now, ttl))
    ensures Clean(DoLoginWrite(w, q, sid, token, now, ttl))
  {
    var v := DoLoginWrite(w, q, sid, token, now, ttl);
    forall u | Inactive(v, u) ensures NoLiveSession(v, u) {
      assert Inactive(w, u);
    }
    forall p | p in v.closings && v.closings[p].Listed? ensures Covered(v, v.closings[p].user, v.closings[p].found.ids) {
      assert Covered(w, w.closings[p].user, w.closings[p].found.ids);
    }
  }

  /** No user is newly inactive, no session new or less revoked, and what is listed was listed or covers all there is. */
  ghost predicate OnlyRevokes(w: World, v: World) {
    && (forall u | Inactive(v, u) :: Inactive(w, u))
    && v.store.sessions.Keys == w.store.sessions.Keys && RevocationsKept(w.store, v.store)
    && (forall p | p in v.closings && v.closings[p].Listed? ::
          (p in w.closings && v.closings[p] == w.closings[p]) || Covered(v, v.closings[p].user, v.closings[p].found.ids))
    && (forall q | q in v.logins :: v.logins[q] in v.store.users && v.store.users[v.logins[q]].isActive)
    && w.store.users.Keys <= v.store.users.Keys
  }

  lemma CleanFrame(w: World, v: World)
    requires Clean(w) && OnlyRevokes(w, v)
    ensures Clean(v)
  {
    forall u | Inactive(v, u) ensures NoLiveSession(v, u) {
      assert Inactive(w, u);
    }
    forall p | p in v.closings && v.closings[p].Listed? ensures Covered(v, v.closings[p].user, v.closings[p].found.ids) {
      if p in w.closings && v.closings[p] == w.closings[p] {
        assert Covered(w, w.closings[p].user, w.closings[p].found.ids);
      }
    }
  }

  lemma CleanRevoking(w: World, op: Op)
    requires Clean(w) && (op.RevokeRead? || op.RevokeList? || op.RevokeWrite? || op.RollBack?)
    ensures OnlyRevokes(w, Step(w, op))
  {
  }

  lemma CleanClosing(w: World, op: Op)
    requires Clean(w) && (op.Load? || op.List?)
    ensures OnlyRevokes(w, Step(w, op))
  {
  }

  lemma CleanRefreshing(w: World, op: Op)
    requires Clean(w) && (op.RefreshRead? || op.CheckUser? || op.RefreshWrite? || op.GiveUp?)
    ensures OnlyRevokes(w, Step(w, op))
  {
  }

  lemma CleanLoginRead(w: World, op: Op)
    requires Clean(w) && op.LoginRead?
    ensures OnlyRevokes(w, Step(w, op))
  {
  }

  lemma CleanAccount(w: World, op: Op)
    requires Clean(w) && (op.Reactivate? || op.Register?)
    ensures OnlyRevokes(w, Step(w, op))
  {
  }

  lemma CleanStep(w: World, op: Op)
    requires Clean(w) && LoginKeepsOut(w, op)
    ensures Clean(Step(w, op))
  {
    if op.Finish? {
      CleanFinish(w, op.request);
    } else if op.LoginWrite? {
      CleanLoginWrite(w, op.request, op.sid, op.token, op.now, op.ttl);
    } else {
      if op.RevokeRead? || op.RevokeList? || op.RevokeWrite? || op.RollBack? {
        CleanRevoking(w, op);
      } else if op.Load? || op.List? {
        CleanClosing(w, op);
      } else if op.RefreshRead? || op.CheckUser? || op.RefreshWrite? || op.GiveUp? {
        CleanRefreshing(w, op);
      } else if op.LoginRead? {
        CleanLoginRead(w, op);
      } else {
        CleanAccount(w, op);
      }
      CleanFrame(w, Step(w, op));
    }
  }

  /** In every run whose logins keep out of the way of deactivations, each unrevoked session belongs to an active user. */
  lemma {:induction false} DeactivatedHoldNoSession(w: World, ops: seq<Op>)
    requires Clean(w) && LoginsKeepOut(w, ops)
    ensures Clean(EMPTY) && Clean(Run(w, ops))
    decreases |ops|
  {
    if ops != [] {
      CleanStep(w, ops[0]);
      DeactivatedHoldNoSession(Step(w, ops[0]), ops[1..]);
    }
  }

  predicate Reactivates(ops: seq<Op>, u: UserId) {
    exists i :: 0 <= i < |ops| && ops[i] == Reactivate(u)
  }

  ghost predicate StaysWithoutSession(w: World, u: UserId) {
    forall ops | !Reactivates(ops, u) :: NoLiveSession(Run(w, ops), u)
  }

  ghost predicate Shut(w: World, u: UserId) {
    Inactive(w, u) && NoLiveSession(w, u) && !InFlight(w, u)
  }

  lemma ShutStep(w: World, op: Op, u: UserId)
    requires Shut(w, u) && op != Reactivate(u)
    ensures Shut(Step(w, op), u)
  {
  }

  lemma {:induction false} ShutRun(w: World, ops: seq<Op>, u: UserId)
    requires Shut(w, u) && !Reactivates(ops, u)
    ensures NoLiveSession(Run(w, ops), u)
    decreases |ops|
  {
    if ops != [] {
      assert ops[0] != Reactivate(u);
      ShutStep(w, ops[0], u);
      assert !Reactivates(ops[1..], u) by {
        assert forall i | 0 <= i < |ops[1..]| :: ops[1..][i] == ops[i + 1];
      }
      ShutRun(Step(w, ops[0]), ops[1..], u);
    }
  }

  /** A login in flight for the user can still commit a live session. */
  lemma LoginGetsIn(v: World, u: UserId)
    requires InFlight(v, u)
    ensures !StaysWithoutSession(v, u)
  {
    var q :| q in v.logins && v.logins[q] == u;
    var x := FreshToken(v.store.sessions.Keys);
    var t := FreshToken(v.issued);
    var op := LoginWrite(q, x, t, 0, 1);
    RunOne(v, op);
    var y := DoLoginWrite(v, q, x, t, 0, 1);
    assert y.store.sessions[x] == Session(u, t, None, 1, None) && !NoLiveSession(y, u);
    assert !Reactivates([op], u) && Run(v, [op]) == y;
  }

  /**
    A deactivated user stays without a live session until reactivated if and only if, when the
    deactivation committed, no login of theirs was in flight and every unrevoked session of theirs
    was among those it had listed.
  */
  lemma DeactivationShutsOutIff(w: World, q: RequestId)
    requires q in w.closings && w.closings[q].Listed? && w.closings[q].user in w.store.users
    ensures var u := w.closings[q].user;
      StaysWithoutSession(Step(w, Finish(q)), u) <==> !InFlight(w, u) && Covered(w, u, w.closings[q].found.ids)
  {
    var u, v := w.closings[q].user, Step(w, Finish(q));
    assert InFlight(v, u) <==> InFlight(w, u);
    if InFlight(w, u) {
      LoginGetsIn(v, u);
    } else if !Covered(w, u, w.closings[q].found.ids) {
      var x :| x in w.store.sessions && w.store.sessions[x].user == u
        && w.store.sessions[x].revokedAt.None? && x !in w.closings[q].found.ids;
      assert v.store.sessions[x] == w.store.sessions[x];
      var none: seq<Op> := [];
      assert !NoLiveSession(Run(v, none), u) && !Reactivates(none, u);
    } else {
      forall ops | !Reactivates(ops, u) ensures NoLiveSession(Run(v, ops), u) {
        ShutRun(v, ops, u);
      }
    }
  }

  /** A login overtaken by the commit of a deactivation of its account. */
  lemma LateLogin() returns (ops: seq<Op>)
    ensures var w := Run(EMPTY, ops); Inactive(w, 0) && !NoLiveSession(w, 0)
  {
    var w;
    ops, w := UserListed(true);
    var v := DoFinish(w, 1);
    var u := DoLoginWrite(v, 2, 0, 7, 2, 10);
    assert u.store.sessions[0] == Session(0, 7, None, 12, None);
    RunSnoc(EMPTY, ops, Finish(1));
    ops := ops + [Finish(1)];
    RunSnoc(EMPTY, ops, LoginWrite(2, 0, 7, 2, 10));
    ops := ops + [LoginWrite(2, 0, 7, 2, 10)];
  }

  /** A login that begins and commits while a deactivation of its account is between its listing and its commit. */
  lemma LoginInside() returns (ops: seq<Op>)
    ensures var w := Run(EMPTY, ops); Inactive(w, 0) && w.logins == map[] && !NoLiveSession(w, 0)
  {
    var w;
    ops, w := UserListed(false);
    var w1 := DoLoginRead(w, 2, 0, true);
    var w2 := DoLoginWrite(w1, 2, 0, 7, 2, 10);
    var v := DoFinish(w2, 1);
    assert v.store.sessions[0] == Session(0, 7, None, 12, None);
    RunSnoc(EMPTY, ops, LoginRead(2, 0, true));
    ops := ops + [LoginRead(2, 0, true)];
    RunSnoc(EMPTY, ops, LoginWrite(2, 0, 7, 2, 10));
    ops := ops + [LoginWrite(2, 0, 7, 2, 10)];
    RunSnoc(EMPTY, ops, Finish(1));
    ops := ops + [Finish(1)];
  }

  /** One user without a session; a login may have read the user. */
  lemma UserKnown(login: bool) returns (ops: seq<Op>, w: World)
    ensures w == Run(EMPTY, ops) && w.store == Store(map[0 := User(true, false)], map[])
    ensures w.closings == map[] && w.issued == {} && 1 !in w.used
    ensures w.logins == (if login then map[2 := 0] else map[]) && (2 in w.used <==> login)
  {
    ops, w := [Register(0, false)], Step(EMPTY, Register(0, false));
    RunOne(EMPTY, Register(0, false));
    if login {
      RunSnoc(EMPTY, ops, LoginRead(2, 0, true));
      ops, w := ops + [LoginRead(2, 0, true)], DoLoginRead(w, 2, 0, true);
    }
  }

  /** The same with a deactivation that has listed as much. */
  lemma UserListed(login: bool) returns (ops: seq<Op>, w: World)
    ensures w == Run(EMPTY, ops) && w.store == Store(map[0 := User(true, false)], map[])
    ensures w.closings == map[1 := Listed(0, Revoking({}, 1))] && w.issued == {}
    ensures w.logins == (if login then map[2 := 0] else map[]) && (2 in w.used <==> login)
  {
    ops, w := UserKnown(login);
    var v := DoLoad(w, 1, 0);
    RunSnoc(EMPTY, ops, Load(1, 0));
    ops := ops + [Load(1, 0)];
    assert v.closings == map[1 := Loaded(0)];
    assert !RowLocked(v, 0) && Live(v.store, 0) == {};
    RunSnoc(EMPTY, ops, List(1, 1));
    ops, w := ops + [List(1, 1)], DoList(v, 1, 1);
  }

  // ---------------------------------------------------------------- what a deactivation ends

  /** At most one deactivation of a user holds the row. */
  ghost predicate OneLockEach(w: World) {
    forall p, q | p in w.closings && q in w.closings && w.closings[p].Listed? && w.closings[q].Listed?
      && w.closings[p].user == w.closings[q].user :: p == q
  }

  lemma {:induction false} OneLockEachRun(w: World, ops: seq<Op>)
    requires OneLockEach(w)
    ensures OneLockEach(EMPTY) && OneLockEach(Run(w, ops))
    decreases |ops|
  {
    if ops != [] {
      OneLockEachStep(w, ops[0]);
      OneLockEachRun(Step(w, ops[0]), ops[1..]);
    }
  }

  lemma OneLockEachStep(w: World, op: Op)
    requires OneLockEach(w)
    ensures OneLockEach(Step(w, op))
  {
  }

  ghost predicate NeverRefreshable(w: World, x: SessionId) {
    forall ops, later :: !Refreshable(Run(w, ops).store, x, later)
  }

  /**
    A session its user holds when the deactivation commits is dead in every continuation, also for
    refreshes in flight and after reactivation, if and only if it was revoked already or listed.
  */
  lemma DeactivationEndsSessionIff(w: World, q: RequestId, x: SessionId)
    requires OneLockEach(w) && q in w.closings && w.closings[q].Listed? && w.closings[q].user in w.store.users
    requires x in w.store.sessions && w.store.sessions[x].user == w.closings[q].user
    ensures NeverRefreshable(Step(w, Finish(q)), x)
            <==> w.store.sessions[x].revokedAt.Some? || x in w.closings[q].found.ids
  {
    var u, v := w.closings[q].user, Step(w, Finish(q));
    if w.store.sessions[x].revokedAt.Some? || x in w.closings[q].found.ids {
      assert v.store.sessions[x].revokedAt.Some?;
      forall ops, later ensures !Refreshable(Run(v, ops).store, x, later) {
        RevocationIsForever(v, ops);
      }
    } else {
      assert !RowLocked(v, u);
      RunOne(v, Reactivate(u));
      assert Refreshable(Run(v, [Reactivate(u)]).store, x, v.store.sessions[x].expiresAt - 1);
    }
  }
}
