/**
  The session-revocation cache in front of Postgres. A reader that misses the cache reads the
  session row and writes the cache in two separate steps; revoking commits to Postgres and evicts
  the entry in two separate steps; a refresh reads the session row and extends it in two separate
  steps; any cache command may fail.
*/
module RevocationCache {

  type SessionId = nat
  type ReaderId = nat
  type RefreshId = nat

  datatype Option<T> = None | Some(value: T)

  /** A session row: `revokedAt` is when its first revocation committed; a refresh overwrites the expiry. */
  datatype Row = Row(revokedAt: Option<real>, expiresAt: real)

  /** A cached verdict, its expiry, and, for the theorems, when it was written and from which read. */
  datatype Entry = Entry(active: bool, expiresAt: real, writtenAt: real, readAt: real)

  /** A reader that has read Postgres at `readAt` and not yet written the cache. */
  datatype Pending = Pending(sid: SessionId, active: bool, readAt: real)

  /** A refresh that found the session active and will set this expiry. */
  datatype Refreshing = Refreshing(sid: SessionId, expiresAt: real)

  /** A consultation of Postgres, with the verdict of that moment. */
  datatype Read = Read(sid: SessionId, active: bool, at: real)

  /** A served verdict; `writtenAt` dates the cache entry it came from, if it came from one. */
  datatype Answer = Answer(sid: SessionId, active: bool, at: real, readAt: real, writtenAt: real)

  /**
    For the theorems: `consulted` are all consultations of Postgres so far, `asked` the sessions they
    were about, and `revived` the sessions that became active after having been inactive: those
    whose passed expiry a refresh has overwritten, and those asked about before their row was there.
  */
  datatype State = State(
    rows: map<SessionId, Row>,
    refreshing: map<RefreshId, Refreshing>,
    cache: map<SessionId, Entry>,
    pending: map<ReaderId, Pending>,
    asked: set<SessionId>,
    now: real,
    answers: seq<Answer>,
    consulted: seq<Read>,
    revived: set<SessionId>)

  datatype Action =
    | Tick(dt: real)
    | OpenSession(sid: SessionId, expiresAt: real)
    | RefreshRead(refresh: RefreshId, sid: SessionId, expiresAt: real)
    | RefreshWrite(refresh: RefreshId)
    | Revoke(sid: SessionId)
    | Invalidate(sid: SessionId, up: bool)
    | Hit(sid: SessionId)
    | ReadRow(reader: ReaderId, sid: SessionId)
    | FillCache(reader: ReaderId, up: bool)
    | Bypass(sid: SessionId)

  /** The Postgres verdict. */
  predicate Active(rows: map<SessionId, Row>, sid: SessionId, now: real) {
    sid in rows && rows[sid].revokedAt.None? && rows[sid].expiresAt > now
  }

  predicate Cached(s: State, sid: SessionId) {
    sid in s.cache && s.now < s.cache[sid].expiresAt
  }

  /**
    `Hit` answers from a live entry. A reader that has missed the cache consults Postgres with
    `ReadRow`; `FillCache` writes the verdict and answers. `Bypass` is the outage path, straight
    from Postgres. `OpenSession` is the commit of a login, which may come after its first use.
  */
  function Step(s: State, a: Action, ttl: real): State {
    match a
    case Tick(dt) => if dt < 0.0 then s else s.(now := s.now + dt)
    case OpenSession(sid, expiresAt) =>
      if sid in s.rows then s
      else s.(rows := s.rows[sid := Row(None, expiresAt)], revived := if sid in s.asked then s.revived + {sid} else s.revived)
    case RefreshRead(q, sid, expiresAt) =>
      if q in s.refreshing || !Active(s.rows, sid, s.now) || expiresAt <= s.now then s
      else s.(refreshing := s.refreshing[q := Refreshing(sid, expiresAt)])
    case RefreshWrite(q) =>
      if q !in s.refreshing || s.refreshing[q].sid !in s.rows then s
      else
        var sid := s.refreshing[q].sid;
        s.(rows := s.rows[sid := s.rows[sid].(expiresAt := s.refreshing[q].expiresAt)],
           refreshing := s.refreshing - {q},
           revived := if Active(s.rows, sid, s.now) then s.revived else s.revived + {sid})
    case Revoke(sid) =>
      if sid !in s.rows || s.rows[sid].revokedAt.Some? then s
      else s.(rows := s.rows[sid := s.rows[sid].(revokedAt := Some(s.now))])
    case Invalidate(sid, up) => if up then s.(cache := s.cache - {sid}) else s
    case Hit(sid) =>
      if !Cached(s, sid) then s
      else s.(answers := s.answers + [Answer(sid, s.cache[sid].active, s.now, s.cache[sid].readAt, s.cache[sid].writtenAt)])
    case ReadRow(r, sid) =>
      if r in s.pending then s
      else
        var active := Active(s.rows, sid, s.now);
        s.(asked := s.asked + {sid}, consulted := s.consulted + [Read(sid, active, s.now)],
           pending := s.pending[r := Pending(sid, active, s.now)])
    case FillCache(r, up) =>
      if r !in s.pending then s
      else
        var p := s.pending[r];
        var t := s.(pending := s.pending - {r}, answers := s.answers + [Answer(p.sid, p.active, s.now, p.readAt, s.now)]);
        if up then t.(cache := s.cache[p.sid := Entry(p.active, s.now + ttl, s.now, p.readAt)]) else t
    case Bypass(sid) =>
      var active := Active(s.rows, sid, s.now);
      s.(asked := s.asked + {sid}, consulted := s.consulted + [Read(sid, active, s.now)],
         answers := s.answers + [Answer(sid, active, s.now, s.now, s.now)])
  }

  const INIT := State(map[], map[], map[], map[], {}, 0.0, [], [], {})

  function Run(s: State, acts: seq<Action>, ttl: real): State
    decreases |acts|
  {
    if acts == [] then s else Run(Step(s, acts[0], ttl), acts[1..], ttl)
  }

  // ---------------------------------------------------------------- provenance

  /**
    What a verdict read at `readAt` is worth now. It is what Postgres said then. An active one was
    read no later than any revocation; an inactive one is still right, unless a refresh that had
    read the session before its expiry wrote after it, or the row was not yet there when asked about.
  */
  ghost predicate Justified(s: State, sid: SessionId, active: bool, readAt: real) {
    && readAt <= s.now && sid in s.asked && Read(sid, active, readAt) in s.consulted
    && (if active then sid in s.rows && (s.rows[sid].revokedAt.Some? ==> readAt <= s.rows[sid].revokedAt.value)
        else !Active(s.rows, sid, s.now) || sid in s.revived)
  }

  ghost predicate AnswerOk(s: State, x: Answer, ttl: real) {
    && Justified(s, x.sid, x.active, x.readAt)
    && x.readAt <= x.writtenAt <= x.at <= s.now && x.at - x.writtenAt < ttl
  }

  ghost predicate EntryOk(s: State, sid: SessionId, e: Entry, ttl: real) {
    Justified(s, sid, e.active, e.readAt) && e.readAt <= e.writtenAt <= s.now && e.expiresAt == e.writtenAt + ttl
  }

  ghost predicate Inv(s: State, ttl: real) {
    && (forall sid | sid in s.cache :: EntryOk(s, sid, s.cache[sid], ttl))
    && (forall r | r in s.pending :: Justified(s, s.pending[r].sid, s.pending[r].active, s.pending[r].readAt))
    && (forall i | 0 <= i < |s.answers| :: AnswerOk(s, s.answers[i], ttl))
  }

  /** What time, refreshes and revocations do to what is already justified. */
  ghost predicate Later(s: State, t: State) {
    && s.now <= t.now && s.asked <= t.asked && s.consulted <= t.consulted && s.revived <= t.revived
    && (forall sid | sid in s.rows ::
          sid in t.rows
          && (t.rows[sid].revokedAt == s.rows[sid].revokedAt
              || (s.rows[sid].revokedAt.None? && t.rows[sid].revokedAt.Some? && t.rows[sid].revokedAt.value >= s.now)))
    && (forall sid | sid in s.asked && !Active(s.rows, sid, s.now) :: !Active(t.rows, sid, t.now) || sid in t.revived)
  }

  lemma StepIsLater(s: State, a: Action, ttl: real)
    ensures Later(s, Step(s, a, ttl))
  {
  }

  lemma JustifiedLater(s: State, t: State, sid: SessionId, active: bool, readAt: real)
    requires Later(s, t) && Justified(s, sid, active, readAt)
    ensures Justified(t, sid, active, readAt)
  {
  }

  /** Where a cache entry comes from: it was there, or a reader has just written its verdict. */
  lemma EntryOrigin(s: State, a: Action, ttl: real, sid: SessionId)
    requires sid in Step(s, a, ttl).cache
    ensures (sid in s.cache && Step(s, a, ttl).cache[sid] == s.cache[sid])
            || (a.FillCache? && a.reader in s.pending && s.pending[a.reader].sid == sid && Step(s, a, ttl).now == s.now
                && Step(s, a, ttl).cache[sid] == Entry(s.pending[a.reader].active, s.now + ttl, s.now, s.pending[a.reader].readAt))
  {
  }

  lemma EntryLater(s: State, t: State, sid: SessionId, e: Entry, ttl: real)
    requires Later(s, t) && EntryOk(s, sid, e, ttl)
    ensures EntryOk(t, sid, e, ttl)
  {
    JustifiedLater(s, t, sid, e.active, e.readAt);
  }

  lemma CacheStep(s: State, a: Action, ttl: real, sid: SessionId)
    requires Inv(s, ttl) && ttl > 0.0 && sid in Step(s, a, ttl).cache
    ensures EntryOk(Step(s, a, ttl), sid, Step(s, a, ttl).cache[sid], ttl)
  {
    var t := Step(s, a, ttl);
    EntryOrigin(s, a, ttl, sid);
    StepIsLater(s, a, ttl);
    EntryLater(s, t, sid, t.cache[sid], ttl);
  }

  lemma PendingOrigin(s: State, a: Action, ttl: real, r: ReaderId)
    requires r in Step(s, a, ttl).pending
    ensures (r in s.pending && Step(s, a, ttl).pending[r] == s.pending[r]) || JustRead(Step(s, a, ttl), Step(s, a, ttl).pending[r])
  {
  }

  ghost predicate JustRead(t: State, p: Pending) {
    && p.readAt == t.now && p.active == Active(t.rows, p.sid, t.now)
    && p.sid in t.asked && Read(p.sid, p.active, p.readAt) in t.consulted
  }

  lemma PendingStep(s: State, a: Action, ttl: real, r: ReaderId)
    requires Inv(s, ttl) && r in Step(s, a, ttl).pending
    ensures var t := Step(s, a, ttl); Justified(t, t.pending[r].sid, t.pending[r].active, t.pending[r].readAt)
  {
    var t := Step(s, a, ttl);
    PendingOrigin(s, a, ttl, r);
    StepIsLater(s, a, ttl);
    if !JustRead(t, t.pending[r]) {
      JustifiedLater(s, t, t.pending[r].sid, t.pending[r].active, t.pending[r].readAt);
    }
  }

  lemma AnswersGrow(s: State, a: Action, ttl: real)
    ensures s.answers <= Step(s, a, ttl).answers && |Step(s, a, ttl).answers| <= |s.answers| + 1
  {
  }

  lemma AnswerStep(s: State, a: Action, ttl: real, i: nat)
    requires Inv(s, ttl) && ttl > 0.0 && i < |Step(s, a, ttl).answers|
    ensures AnswerOk(Step(s, a, ttl), Step(s, a, ttl).answers[i], ttl)
  {
    AnswersGrow(s, a, ttl);
    if i < |s.answers| {
      StepIsLater(s, a, ttl);
      assert AnswerOk(s, s.answers[i], ttl);
      JustifiedLater(s, Step(s, a, ttl), s.answers[i].sid, s.answers[i].active, s.answers[i].readAt);
    } else {
      NewAnswerOk(s, a, ttl);
    }
  }

  lemma InvStep(s: State, a: Action, ttl: real)
    requires Inv(s, ttl) && ttl > 0.0
    ensures Inv(Step(s, a, ttl), ttl)
  {
    var t := Step(s, a, ttl);
    forall sid | sid in t.cache ensures EntryOk(t, sid, t.cache[sid], ttl) {
      CacheStep(s, a, ttl, sid);
    }
    forall r | r in t.pending ensures Justified(t, t.pending[r].sid, t.pending[r].active, t.pending[r].readAt) {
      PendingStep(s, a, ttl, r);
    }
    forall i | 0 <= i < |t.answers| ensures AnswerOk(t, t.answers[i], ttl) {
      AnswerStep(s, a, ttl, i);
    }
  }

  lemma NewAnswerOk(s: State, a: Action, ttl: real)
    requires Inv(s, ttl) && ttl > 0.0 && |Step(s, a, ttl).answers| > |s.answers|
    ensures AnswerOk(Step(s, a, ttl), Step(s, a, ttl).answers[|s.answers|], ttl)
    ensures |Step(s, a, ttl).answers| == |s.answers| + 1
  {
  }

  lemma {:induction false} InvRun(s: State, acts: seq<Action>, ttl: real)
    requires Inv(s, ttl) && ttl > 0.0
    ensures Inv(Run(s, acts, ttl), ttl)
    decreases |acts|
  {
    if acts != [] {
      InvStep(s, acts[0], ttl);
      InvRun(Step(s, acts[0], ttl), acts[1..], ttl);
    }
  }

  /**
    Every answer of every run is what Postgres said when it was read, through a cache entry written
    less than one TTL before. After a True answer any revocation is later than that read; after a
    False answer the session is inactive, unless a refresh revived it or its row came only later.
  */
  lemma EveryAnswerIsJustified(acts: seq<Action>, ttl: real, i: nat)
    requires ttl > 0.0 && i < |Run(INIT, acts, ttl).answers|
    ensures var s := Run(INIT, acts, ttl);
            var x := s.answers[i];
            && Read(x.sid, x.active, x.readAt) in s.consulted
            && (x.active ==> x.sid in s.rows && (s.rows[x.sid].revokedAt.Some? ==> x.readAt <= s.rows[x.sid].revokedAt.value))
            && (!x.active ==> !Active(s.rows, x.sid, s.now) || x.sid in s.revived)
            && x.readAt <= x.writtenAt <= x.at && x.at < x.writtenAt + ttl
  {
    InvRun(INIT, acts, ttl);
    assert AnswerOk(Run(INIT, acts, ttl), Run(INIT, acts, ttl).answers[i], ttl);
  }

  // ---------------------------------------------------------------- when inactivity is permanent

  /** Revoked; or expired, with no refresh in flight that would set an expiry still to come. */
  ghost predicate Over(s: State, sid: SessionId) {
    && sid in s.rows && !Active(s.rows, sid, s.now)
    && (s.rows[sid].revokedAt.Some? || forall q | q in s.refreshing && s.refreshing[q].sid == sid :: s.refreshing[q].expiresAt <= s.now)
  }

  lemma OverStep(s: State, a: Action, ttl: real, sid: SessionId)
    requires Over(s, sid)
    ensures Over(Step(s, a, ttl), sid)
  {
  }

  lemma {:induction false} OverRun(s: State, acts: seq<Action>, ttl: real, sid: SessionId)
    requires Over(s, sid)
    ensures Over(Run(s, acts, ttl), sid)
    decreases |acts|
  {
    if acts != [] {
      OverStep(s, acts[0], ttl, sid);
      OverRun(Step(s, acts[0], ttl), acts[1..], ttl, sid);
    }
  }

  lemma RunOne(s: State, a: Action, ttl: real)
    ensures Run(s, [a], ttl) == Step(s, a, ttl)
  {
    assert [a][1..] == [] && Run(Step(s, a, ttl), [], ttl) == Step(s, a, ttl);
  }

  ghost predicate StaysInactive(s: State, ttl: real, sid: SessionId) {
    forall acts :: !Active(Run(s, acts, ttl).rows, sid, Run(s, acts, ttl).now)
  }

  /** An inactive session stays inactive in every continuation if and only if it is revoked or no refresh is about to extend it. */
  lemma InactivityIsPermanentIff(s: State, ttl: real, sid: SessionId)
    requires sid in s.rows && !Active(s.rows, sid, s.now)
    ensures StaysInactive(s, ttl, sid) <==> Over(s, sid)
  {
    if Over(s, sid) {
      forall acts ensures !Active(Run(s, acts, ttl).rows, sid, Run(s, acts, ttl).now) {
        OverRun(s, acts, ttl, sid);
      }
    } else {
      var q :| q in s.refreshing && s.refreshing[q].sid == sid && s.refreshing[q].expiresAt > s.now;
      RunOne(s, RefreshWrite(q), ttl);
      assert Active(Run(s, [RefreshWrite(q)], ttl).rows, sid, Run(s, [RefreshWrite(q)], ttl).now);
    }
  }

  // ---------------------------------------------------------------- after a revocation

  ghost predicate PendingActive(s: State, sid: SessionId) {
    exists r :: r in s.pending && s.pending[r].sid == sid && s.pending[r].active
  }

  /** The session is over and nothing in Redis or in flight still says otherwise. */
  ghost predicate Settled(s: State, sid: SessionId) {
    && Over(s, sid)
    && (Cached(s, sid) ==> !s.cache[sid].active)
    && !PendingActive(s, sid)
  }

  /** From answer `n` on, every verdict for `sid` is inactive. */
  ghost predicate RefusedFrom(answers: seq<Answer>, n: nat, sid: SessionId) {
    forall i | n <= i < |answers| && answers[i].sid == sid :: !answers[i].active
  }

  lemma SettledStep(s: State, a: Action, ttl: real, sid: SessionId)
    requires Settled(s, sid)
    ensures Settled(Step(s, a, ttl), sid)
    ensures RefusedFrom(Step(s, a, ttl).answers, |s.answers|, sid)
    ensures s.answers <= Step(s, a, ttl).answers
  {
    OverStep(s, a, ttl, sid);
  }

  lemma {:induction false} SettledRun(s: State, acts: seq<Action>, ttl: real, sid: SessionId, n: nat)
    requires Settled(s, sid) && n <= |s.answers| && RefusedFrom(s.answers, n, sid)
    ensures Settled(Run(s, acts, ttl), sid) && RefusedFrom(Run(s, acts, ttl).answers, n, sid)
    decreases |acts|
  {
    if acts != [] {
      SettledStep(s, acts[0], ttl, sid);
      SettledRun(Step(s, acts[0], ttl), acts[1..], ttl, sid, n);
    }
  }

  ghost predicate AllRefused(s: State, ttl: real, sid: SessionId) {
    forall acts :: RefusedFrom(Run(s, acts, ttl).answers, |s.answers|, sid)
  }

  /** An unwritten active verdict is answered, and a refresh in flight makes the next answer active. */
  lemma UnsettledAnswers(s: State, ttl: real, sid: SessionId) returns (acts: seq<Action>)
    requires sid in s.rows && !Active(s.rows, sid, s.now) && (PendingActive(s, sid) || !Over(s, sid))
    ensures !RefusedFrom(Run(s, acts, ttl).answers, |s.answers|, sid)
  {
    if r :| r in s.pending && s.pending[r].sid == sid && s.pending[r].active {
      acts := [FillCache(r, false)];
      RunOne(s, FillCache(r, false), ttl);
      assert Run(s, acts, ttl).answers[|s.answers|].sid == sid;
    } else {
      var q :| q in s.refreshing && s.refreshing[q].sid == sid && s.refreshing[q].expiresAt > s.now;
      var t := Step(s, RefreshWrite(q), ttl);
      acts := [RefreshWrite(q), Bypass(sid)];
      assert acts[1..] == [Bypass(sid)];
      RunOne(t, Bypass(sid), ttl);
      assert Active(t.rows, sid, t.now) && Run(s, acts, ttl).answers[|s.answers|].sid == sid;
    }
  }

  /**
    After commit-then-invalidate every later answer is False, in every continuation, if and only if
    no reader was holding an unwritten active verdict when the entry was evicted and the session is
    over; a revoked one always is.
  */
  lemma InvalidationSettlesIff(s: State, ttl: real, sid: SessionId)
    requires sid in s.rows && !Active(s.rows, sid, s.now)
    ensures AllRefused(Step(s, Invalidate(sid, true), ttl), ttl, sid) <==> !PendingActive(s, sid) && Over(s, sid)
    ensures s.rows[sid].revokedAt.Some? ==> Over(s, sid)
  {
    var t := Step(s, Invalidate(sid, true), ttl);
    assert PendingActive(t, sid) <==> PendingActive(s, sid);
    if PendingActive(s, sid) || !Over(s, sid) {
      var acts := UnsettledAnswers(t, ttl, sid);
    } else {
      forall acts ensures RefusedFrom(Run(t, acts, ttl).answers, |t.answers|, sid) {
        SettledRun(t, acts, ttl, sid, |t.answers|);
      }
    }
  }

  /** The failing case is reached: a reader that has missed the cache when the session is revoked. */
  lemma FillOvertakesRevocation(ttl: real) returns (acts: seq<Action>)
    ensures var s := Run(INIT, acts, ttl); 0 in s.rows && s.rows[0].revokedAt.Some? && PendingActive(s, 0)
  {
    acts := [OpenSession(0, 1.0), ReadRow(1, 0), Revoke(0)];
    var s1 := Step(INIT, OpenSession(0, 1.0), ttl);
    var s2 := Step(s1, ReadRow(1, 0), ttl);
    var s3 := Step(s2, Revoke(0), ttl);
    assert s3.pending[1] == Pending(0, true, 0.0);
  }

  /** A session asked about before its login has committed: the False answer is wrong afterwards. */
  lemma AskedTooEarly(ttl: real) returns (acts: seq<Action>)
    ensures var s := Run(INIT, acts, ttl); |s.answers| == 1 && s.answers[0].sid == 0 && !s.answers[0].active && Active(s.rows, 0, s.now)
  {
    acts := [Bypass(0), OpenSession(0, 1.0)];
    assert acts[1..] == [OpenSession(0, 1.0)];
    RunOne(Step(INIT, Bypass(0), ttl), OpenSession(0, 1.0), ttl);
  }

  // ---------------------------------------------------------------- expiry

  /** No login or refresh of the run gives the session an expiry beyond `e`. */
  predicate Capped(a: Action, sid: SessionId, e: real) {
    && (a.OpenSession? && a.sid == sid ==> a.expiresAt <= e)
    && (a.RefreshRead? && a.sid == sid ==> a.expiresAt <= e)
  }

  ghost predicate CappedRun(acts: seq<Action>, sid: SessionId, e: real) {
    forall i | 0 <= i < |acts| :: Capped(acts[i], sid, e)
  }

  /** The session's row, and every refresh of it in flight, stay within `e`; Postgres never said active at or after `e`. */
  ghost predicate Within(s: State, sid: SessionId, e: real) {
    && (sid in s.rows ==> s.rows[sid].expiresAt <= e)
    && (forall q | q in s.refreshing && s.refreshing[q].sid == sid :: s.refreshing[q].expiresAt <= e)
    && (forall i | 0 <= i < |s.consulted| && s.consulted[i].sid == sid && s.consulted[i].active :: s.consulted[i].at < e)
  }

  lemma WithinStep(s: State, a: Action, ttl: real, sid: SessionId, e: real)
    requires Within(s, sid, e) && Capped(a, sid, e)
    ensures Within(Step(s, a, ttl), sid, e)
  {
  }

  lemma {:induction false} WithinRun(s: State, acts: seq<Action>, ttl: real, sid: SessionId, e: real)
    requires Within(s, sid, e) && CappedRun(acts, sid, e)
    ensures Within(Run(s, acts, ttl), sid, e)
    decreases |acts|
  {
    if acts != [] {
      assert Capped(acts[0], sid, e);
      WithinStep(s, acts[0], ttl, sid, e);
      assert CappedRun(acts[1..], sid, e) by {
        assert forall i | 0 <= i < |acts[1..]| :: acts[1..][i] == acts[i + 1];
      }
      WithinRun(Step(s, acts[0], ttl), acts[1..], ttl, sid, e);
    }
  }

  /**
    In every run, with `e` the latest expiry a session is given: Postgres never says active at or
    after `e`, so every True answer was read before `e`; and one at or after `e` plus the TTL comes
    from an entry written after `e`, by a reader that had read before.
  */
  lemma ExpiredIsNeverActive(acts: seq<Action>, ttl: real, sid: SessionId, e: real, i: nat)
    requires ttl > 0.0 && CappedRun(acts, sid, e) && i < |Run(INIT, acts, ttl).answers|
    requires Run(INIT, acts, ttl).answers[i].sid == sid && Run(INIT, acts, ttl).answers[i].active
    ensures var x := Run(INIT, acts, ttl).answers[i];
            x.readAt < e && (x.at >= e + ttl ==> x.writtenAt > e)
    ensures forall at | at >= e :: Read(sid, true, at) !in Run(INIT, acts, ttl).consulted
  {
    WithinRun(INIT, acts, ttl, sid, e);
    EveryAnswerIsJustified(acts, ttl, i);
  }

  predicate LeavesRow(a: Action, sid: SessionId) {
    !(a.Revoke? && a.sid == sid) && !(a.RefreshRead? && a.sid == sid)
  }

  /** The session's row is unrevoked, expires at `e`, and nothing is about to extend it. */
  ghost predicate Untouched(s: State, sid: SessionId, e: real) {
    && sid in s.rows && s.rows[sid] == Row(None, e)
    && (forall q | q in s.refreshing :: s.refreshing[q].sid != sid)
  }

  /** From consultation `n` on, Postgres says active exactly before `e`. */
  ghost predicate SaysActiveBefore(consulted: seq<Read>, n: nat, sid: SessionId, e: real) {
    forall i | n <= i < |consulted| && consulted[i].sid == sid :: consulted[i].active <==> consulted[i].at < e
  }

  lemma UntouchedStep(s: State, a: Action, ttl: real, sid: SessionId, e: real, n: nat)
    requires Untouched(s, sid, e) && LeavesRow(a, sid) && SaysActiveBefore(s.consulted, n, sid, e)
    ensures Untouched(Step(s, a, ttl), sid, e) && SaysActiveBefore(Step(s, a, ttl).consulted, n, sid, e)
  {
  }

  /** A session that is neither revoked nor refreshed reads active exactly until it expires. */
  lemma {:induction false} ActiveUntilExpiry(s: State, acts: seq<Action>, ttl: real, sid: SessionId, e: real, n: nat)
    requires Untouched(s, sid, e) && n <= |s.consulted| && SaysActiveBefore(s.consulted, n, sid, e)
    requires forall i | 0 <= i < |acts| :: LeavesRow(acts[i], sid)
    ensures SaysActiveBefore(Run(s, acts, ttl).consulted, n, sid, e)
    decreases |acts|
  {
    if acts != [] {
      UntouchedStep(s, acts[0], ttl, sid, e, n);
      ActiveUntilExpiry(Step(s, acts[0], ttl), acts[1..], ttl, sid, e, n);
    }
  }

  /** What a fill has written is what the cache answers, for all of its time to live. */
  lemma FillServes(s: State, r: ReaderId, dt: real, ttl: real)
    requires r in s.pending && 0.0 <= dt < ttl
    ensures var p := s.pending[r];
            var t := Step(Step(Step(s, FillCache(r, true), ttl), Tick(dt), ttl), Hit(p.sid), ttl);
            && |t.answers| == |s.answers| + 2 && t.answers[|s.answers| + 1].sid == p.sid
            && t.answers[|s.answers| + 1].active == p.active && t.answers[|s.answers| + 1].at == s.now + dt
  {
  }
}
