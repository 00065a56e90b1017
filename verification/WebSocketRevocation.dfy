/**
  Open WebSockets over the session-revocation cache and the user table: how long a revoked
  session, a deactivated user or an expired token can keep a socket open.
*/
module WebSocketRevocation {
  import opened RevocationCache

  type UserId = nat
  type ConnId = nat

  /** `checkedAt` is when token, session and user checks last passed. */
  datatype Conn = Conn(sid: SessionId, user: UserId, tokenExpiresAt: real, deadline: real, checkedAt: real)

  datatype Config = Config(ttl: real, timeout: real)

  /** `inactiveSince` are the deactivated users, each with the time of deactivation. */
  datatype World = World(cache: State, inactiveSince: map<UserId, real>, conns: map<ConnId, Conn>)

  datatype Event =
    | Backend(a: Action)
    | Deactivate(user: UserId)
    | Reactivate(user: UserId)
    | Connect(c: ConnId, sid: SessionId, user: UserId, tokenExpiresAt: real, reader: ReaderId, up: bool)
    | Ping(c: ConnId, reader: ReaderId, up: bool)
    | OtherFrame(c: ConnId)
    | Disconnect(c: ConnId)

  /** `is_session_active` in one go: the live entry, or Postgres and then a cache fill. */
  function Consult(s: State, sid: SessionId, r: ReaderId, up: bool, ttl: real): State {
    if Cached(s, sid) then Step(s, Hit(sid), ttl)
    else Step(Step(s, ReadRow(r, sid), ttl), FillCache(r, up), ttl)
  }

  function Verdict(s: State, sid: SessionId): bool {
    if Cached(s, sid) then s.cache[sid].active else Active(s.rows, sid, s.now)
  }

  predicate ChecksPass(w: World, sid: SessionId, user: UserId, tokenExpiresAt: real) {
    tokenExpiresAt > w.cache.now && Verdict(w.cache, sid) && user !in w.inactiveSince
  }

  /** Time passing fires the heartbeat timer of every socket whose deadline is reached. */
  function Reaped(conns: map<ConnId, Conn>, now: real): map<ConnId, Conn> {
    map c | c in conns && now < conns[c].deadline :: conns[c]
  }

  function Apply(w: World, e: Event, cfg: Config): World {
    match e
    case Backend(a) =>
      var s := Step(w.cache, a, cfg.ttl);
      w.(cache := s, conns := Reaped(w.conns, s.now))
    case Deactivate(u) => if u in w.inactiveSince then w else w.(inactiveSince := w.inactiveSince[u := w.cache.now])
    case Reactivate(u) => w.(inactiveSince := w.inactiveSince - {u})
    case Connect(c, sid, u, tokenExpiresAt, r, up) =>
      if c in w.conns || r in w.cache.pending then w
      else
        var v := if tokenExpiresAt > w.cache.now then w.(cache := Consult(w.cache, sid, r, up, cfg.ttl)) else w;
        if ChecksPass(w, sid, u, tokenExpiresAt)
        then v.(conns := w.conns[c := Conn(sid, u, tokenExpiresAt, w.cache.now + cfg.timeout, w.cache.now)])
        else v
    case Ping(c, r, up) =>
      if c !in w.conns || r in w.cache.pending then w
      else
        var k := w.conns[c];
        var v := if k.tokenExpiresAt > w.cache.now then w.(cache := Consult(w.cache, k.sid, r, up, cfg.ttl)) else w;
        if ChecksPass(w, k.sid, k.user, k.tokenExpiresAt)
        then v.(conns := w.conns[c := k.(deadline := w.cache.now + cfg.timeout, checkedAt := w.cache.now)])
        else v.(conns := w.conns - {c})
    case OtherFrame(_) => w
    case Disconnect(c) => w.(conns := w.conns - {c})
  }

  function RunAll(w: World, es: seq<Event>, cfg: Config): World
    decreases |es|
  {
    if es == [] then w else RunAll(Apply(w, es[0], cfg), es[1..], cfg)
  }

  const START := World(INIT, map[], map[])

  // ---------------------------------------------------------------- what every moment keeps

  /** Some answer of the session check, given at time `at`, said the session is active. */
  ghost predicate Vouched(s: State, sid: SessionId, at: real) {
    exists i :: 0 <= i < |s.answers| && s.answers[i].sid == sid && s.answers[i].active && s.answers[i].at == at
  }

  /** A consultation gives one answer, now, and it is the verdict. */
  lemma ConsultAnswers(s: State, sid: SessionId, r: ReaderId, up: bool, ttl: real)
    requires r !in s.pending
    ensures var t := Consult(s, sid, r, up, ttl);
            && t.now == s.now && s.answers <= t.answers && |t.answers| == |s.answers| + 1
            && t.answers[|s.answers|].sid == sid && t.answers[|s.answers|].at == s.now
            && t.answers[|s.answers|].active == Verdict(s, sid)
    ensures Verdict(s, sid) ==> Vouched(Consult(s, sid, r, up, ttl), sid, s.now)
  {
    var t := Consult(s, sid, r, up, ttl);
    assert Verdict(s, sid) ==> t.answers[|s.answers|].active;
  }

  ghost predicate ConnOk(w: World, k: Conn, cfg: Config) {
    && k.checkedAt <= w.cache.now < k.deadline == k.checkedAt + cfg.timeout
    && k.checkedAt < k.tokenExpiresAt && Vouched(w.cache, k.sid, k.checkedAt)
    && (k.user in w.inactiveSince ==> k.checkedAt <= w.inactiveSince[k.user])
  }

  ghost predicate SocketsOk(w: World, cfg: Config) {
    && (forall c | c in w.conns :: ConnOk(w, w.conns[c], cfg))
    && (forall u | u in w.inactiveSince :: w.inactiveSince[u] <= w.cache.now)
  }

  /** Sockets survive a change of the cache that only adds answers and passes no deadline. */
  lemma SocketsFrame(w: World, s: State, cfg: Config)
    requires SocketsOk(w, cfg) && w.cache.answers <= s.answers && s.now >= w.cache.now
    ensures SocketsOk(World(s, w.inactiveSince, Reaped(w.conns, s.now)), cfg)
    ensures s.now == w.cache.now ==> Reaped(w.conns, s.now) == w.conns
  {
  }

  lemma SocketsConnect(w: World, e: Event, cfg: Config)
    requires SocketsOk(w, cfg) && cfg.timeout > 0.0 && e.Connect?
    ensures SocketsOk(Apply(w, e, cfg), cfg)
  {
    if e.c !in w.conns && e.reader !in w.cache.pending {
      ConsultAnswers(w.cache, e.sid, e.reader, e.up, cfg.ttl);
      SocketsFrame(w, Consult(w.cache, e.sid, e.reader, e.up, cfg.ttl), cfg);
    }
  }

  lemma SocketsPing(w: World, e: Event, cfg: Config)
    requires SocketsOk(w, cfg) && cfg.timeout > 0.0 && e.Ping?
    ensures SocketsOk(Apply(w, e, cfg), cfg)
  {
    if e.c in w.conns && e.reader !in w.cache.pending {
      var sid := w.conns[e.c].sid;
      ConsultAnswers(w.cache, sid, e.reader, e.up, cfg.ttl);
      SocketsFrame(w, Consult(w.cache, sid, e.reader, e.up, cfg.ttl), cfg);
    }
  }

  lemma SocketsStep(w: World, e: Event, cfg: Config)
    requires SocketsOk(w, cfg) && cfg.timeout > 0.0
    ensures SocketsOk(Apply(w, e, cfg), cfg)
  {
    match e
    case Backend(a) =>
      StepIsLater(w.cache, a, cfg.ttl);
      AnswersGrow(w.cache, a, cfg.ttl);
      SocketsFrame(w, Step(w.cache, a, cfg.ttl), cfg);
    case Deactivate(u) =>
    case Reactivate(u) =>
    case Connect(_, _, _, _, _, _) => SocketsConnect(w, e, cfg);
    case Ping(_, _, _) => SocketsPing(w, e, cfg);
    case OtherFrame(_) =>
    case Disconnect(_) =>
  }

  lemma {:induction false} SocketsRun(w: World, es: seq<Event>, cfg: Config)
    requires SocketsOk(w, cfg) && cfg.timeout > 0.0
    ensures SocketsOk(RunAll(w, es, cfg), cfg)
    decreases |es|
  {
    if es != [] {
      SocketsStep(w, es[0], cfg);
      SocketsRun(Apply(w, es[0], cfg), es[1..], cfg);
    }
  }

  /**
    At every moment of every run an open socket passed all three checks less than one heartbeat
    timeout ago, so neither its token has been expired nor its user deactivated for that long.
  */
  lemma OpenSocketsAreFresh(es: seq<Event>, cfg: Config, c: ConnId)
    requires cfg.timeout > 0.0 && c in RunAll(START, es, cfg).conns
    ensures var w := RunAll(START, es, cfg);
            var k := w.conns[c];
            && k.checkedAt <= w.cache.now < k.checkedAt + cfg.timeout
            && Vouched(w.cache, k.sid, k.checkedAt)
            && w.cache.now < k.tokenExpiresAt + cfg.timeout
            && (k.user in w.inactiveSince ==> w.cache.now < w.inactiveSince[k.user] + cfg.timeout)
  {
    SocketsRun(START, es, cfg);
    assert ConnOk(RunAll(START, es, cfg), RunAll(START, es, cfg).conns[c], cfg);
  }

  // ---------------------------------------------------------------- revoked sessions

  /** Since time `r` the session is settled as over, and no socket of it was checked later. */
  ghost predicate EndedSince(w: World, sid: SessionId, r: real) {
    && Settled(w.cache, sid) && r <= w.cache.now
    && (forall c | c in w.conns && w.conns[c].sid == sid :: w.conns[c].checkedAt <= r)
  }

  lemma SettledConsult(s: State, sid: SessionId, x: SessionId, r: ReaderId, up: bool, ttl: real)
    requires Settled(s, sid)
    ensures Settled(Consult(s, x, r, up, ttl), sid) && !Verdict(s, sid)
  {
  }

  lemma EndedStep(w: World, e: Event, cfg: Config, sid: SessionId, r: real)
    requires EndedSince(w, sid, r) && SocketsOk(w, cfg)
    ensures EndedSince(Apply(w, e, cfg), sid, r)
  {
    match e
    case Backend(a) =>
      SettledStep(w.cache, a, cfg.ttl, sid);
      StepIsLater(w.cache, a, cfg.ttl);
    case Deactivate(u) =>
    case Reactivate(u) =>
    case Connect(c, x, u, exp, rd, up) =>
      SettledConsult(w.cache, sid, x, rd, up, cfg.ttl);
      if rd !in w.cache.pending { ConsultAnswers(w.cache, x, rd, up, cfg.ttl); }
    case Ping(c, rd, up) =>
      if c in w.conns {
        SettledConsult(w.cache, sid, w.conns[c].sid, rd, up, cfg.ttl);
        if rd !in w.cache.pending { ConsultAnswers(w.cache, w.conns[c].sid, rd, up, cfg.ttl); }
      }
    case OtherFrame(_) =>
    case Disconnect(_) =>
  }

  lemma {:induction false} EndedRun(w: World, es: seq<Event>, cfg: Config, sid: SessionId, r: real)
    requires EndedSince(w, sid, r) && SocketsOk(w, cfg) && cfg.timeout > 0.0
    ensures EndedSince(RunAll(w, es, cfg), sid, r) && SocketsOk(RunAll(w, es, cfg), cfg)
    decreases |es|
  {
    if es != [] {
      EndedStep(w, es[0], cfg, sid, r);
      SocketsStep(w, es[0], cfg);
      EndedRun(Apply(w, es[0], cfg), es[1..], cfg, sid, r);
    }
  }

  /**
    A session revoked and evicted with no fill in progress has no open socket one heartbeat
    timeout after the eviction, whatever happens in between.
  */
  lemma RevokedSessionHasNoSocketAfterTimeout(w: World, sid: SessionId, es: seq<Event>, cfg: Config, c: ConnId)
    requires SocketsOk(w, cfg) && cfg.timeout > 0.0
    requires sid in w.cache.rows && w.cache.rows[sid].revokedAt.Some? && !PendingActive(w.cache, sid)
    ensures var t := RunAll(Apply(w, Backend(Invalidate(sid, true)), cfg), es, cfg);
            t.cache.now >= w.cache.now + cfg.timeout && c in t.conns ==> t.conns[c].sid != sid
  {
    var v := Apply(w, Backend(Invalidate(sid, true)), cfg);
    assert Settled(v.cache, sid);
    SocketsStep(w, Backend(Invalidate(sid, true)), cfg);
    EndedRun(v, es, cfg, sid, w.cache.now);
    var t := RunAll(v, es, cfg);
    if c in t.conns && t.conns[c].sid == sid {
      assert ConnOk(t, t.conns[c], cfg);
    }
  }

  // ---------------------------------------------------------------- with a verdict still cached

  /** The session is over, and what Redis may still say for it is forgotten by time `e`. */
  ghost predicate Fading(s: State, sid: SessionId, e: real) {
    && Over(s, sid) && !PendingActive(s, sid)
    && (sid in s.cache && s.cache[sid].active ==> s.cache[sid].expiresAt <= e)
  }

  lemma FadingStep(s: State, a: Action, ttl: real, sid: SessionId, e: real)
    requires Fading(s, sid, e)
    ensures Fading(Step(s, a, ttl), sid, e)
  {
    OverStep(s, a, ttl, sid);
  }

  lemma FadingConsult(s: State, sid: SessionId, x: SessionId, r: ReaderId, up: bool, ttl: real, e: real)
    requires Fading(s, sid, e)
    ensures Fading(Consult(s, x, r, up, ttl), sid, e)
    ensures Verdict(s, sid) ==> s.now < e
  {
    if Cached(s, x) {
      FadingStep(s, Hit(x), ttl, sid, e);
    } else {
      FadingStep(s, ReadRow(r, x), ttl, sid, e);
      FadingStep(Step(s, ReadRow(r, x), ttl), FillCache(r, up), ttl, sid, e);
    }
  }

  ghost predicate FadedBy(w: World, sid: SessionId, e: real) {
    Fading(w.cache, sid, e) && forall c | c in w.conns && w.conns[c].sid == sid :: w.conns[c].checkedAt <= e
  }

  lemma FadedStep(w: World, v: Event, cfg: Config, sid: SessionId, e: real)
    requires FadedBy(w, sid, e)
    ensures FadedBy(Apply(w, v, cfg), sid, e)
  {
    match v
    case Backend(a) => FadingStep(w.cache, a, cfg.ttl, sid, e);
    case Deactivate(u) =>
    case Reactivate(u) =>
    case Connect(c, x, u, exp, r, up) => FadingConsult(w.cache, sid, x, r, up, cfg.ttl, e);
    case Ping(c, r, up) =>
      if c in w.conns {
        FadingConsult(w.cache, sid, w.conns[c].sid, r, up, cfg.ttl, e);
      }
    case OtherFrame(_) =>
    case Disconnect(_) =>
  }

  lemma {:induction false} FadedRun(w: World, es: seq<Event>, cfg: Config, sid: SessionId, e: real)
    requires FadedBy(w, sid, e) && SocketsOk(w, cfg) && cfg.timeout > 0.0
    ensures FadedBy(RunAll(w, es, cfg), sid, e) && SocketsOk(RunAll(w, es, cfg), cfg)
    decreases |es|
  {
    if es != [] {
      FadedStep(w, es[0], cfg, sid, e);
      SocketsStep(w, es[0], cfg);
      FadedRun(Apply(w, es[0], cfg), es[1..], cfg, sid, e);
    }
  }

  lemma OverHasNoSocketAfterTtlAndTimeout(w: World, sid: SessionId, es: seq<Event>, cfg: Config, c: ConnId)
    requires SocketsOk(w, cfg) && cfg.timeout > 0.0 && cfg.ttl > 0.0 && Inv(w.cache, cfg.ttl)
    requires Over(w.cache, sid) && !PendingActive(w.cache, sid)
    ensures var t := RunAll(w, es, cfg);
            t.cache.now >= w.cache.now + cfg.ttl + cfg.timeout && c in t.conns ==> t.conns[c].sid != sid
  {
    var e := w.cache.now + cfg.ttl;
    assert sid in w.cache.cache ==> EntryOk(w.cache, sid, w.cache.cache[sid], cfg.ttl);
    forall k | k in w.conns && w.conns[k].sid == sid ensures w.conns[k].checkedAt <= e {
      assert ConnOk(w, w.conns[k], cfg);
    }
    FadedRun(w, es, cfg, sid, e);
    var t := RunAll(w, es, cfg);
    if c in t.conns && t.conns[c].sid == sid {
      assert ConnOk(t, t.conns[c], cfg);
    }
  }

  /**
    Even if a fill overtook the eviction, or none took place: once the last pending fill has been
    written, a revoked session has no open socket after one cache lifetime and one heartbeat timeout.
  */
  lemma RevokedSessionHasNoSocketAfterTtlAndTimeout(w: World, sid: SessionId, es: seq<Event>, cfg: Config, c: ConnId)
    requires SocketsOk(w, cfg) && cfg.timeout > 0.0 && cfg.ttl > 0.0 && Inv(w.cache, cfg.ttl)
    requires sid in w.cache.rows && w.cache.rows[sid].revokedAt.Some? && !PendingActive(w.cache, sid)
    ensures var t := RunAll(w, es, cfg);
            t.cache.now >= w.cache.now + cfg.ttl + cfg.timeout && c in t.conns ==> t.conns[c].sid != sid
  {
    OverHasNoSocketAfterTtlAndTimeout(w, sid, es, cfg, c);
  }

  /**
    So it is from its expiry on with a session that no refresh is about to extend, which nobody
    evicts from the cache.
  */
  lemma ExpiredSessionHasNoSocketAfterTtlAndTimeout(w: World, sid: SessionId, es: seq<Event>, cfg: Config, c: ConnId)
    requires SocketsOk(w, cfg) && cfg.timeout > 0.0 && cfg.ttl > 0.0 && Inv(w.cache, cfg.ttl)
    requires sid in w.cache.rows && w.cache.rows[sid].expiresAt <= w.cache.now && !PendingActive(w.cache, sid)
    requires forall q | q in w.cache.refreshing && w.cache.refreshing[q].sid == sid :: w.cache.refreshing[q].expiresAt <= w.cache.now
    ensures var t := RunAll(w, es, cfg);
            t.cache.now >= w.cache.now + cfg.ttl + cfg.timeout && c in t.conns ==> t.conns[c].sid != sid
  {
    OverHasNoSocketAfterTtlAndTimeout(w, sid, es, cfg, c);
  }

  /** A ping keeps its socket, renewed, exactly when token, session check and user all pass; otherwise it closes it. */
  lemma PingKeepsIff(w: World, c: ConnId, r: ReaderId, up: bool, cfg: Config)
    requires c in w.conns && r !in w.cache.pending
    ensures var k, v := w.conns[c], Apply(w, Ping(c, r, up), cfg);
      && (c in v.conns <==> w.cache.now < k.tokenExpiresAt && k.user !in w.inactiveSince && Verdict(w.cache, k.sid))
      && (c in v.conns ==> v.conns[c].deadline == w.cache.now + cfg.timeout && v.conns[c].checkedAt == w.cache.now)
      && (forall d | d in w.conns && d != c :: d in v.conns && v.conns[d] == w.conns[d])
  {
  }

  /** A connect opens a socket, with a full timeout, exactly when the three checks pass; it touches no other. */
  lemma ConnectOpensIff(w: World, e: Event, cfg: Config)
    requires e.Connect? && e.c !in w.conns && e.reader !in w.cache.pending
    ensures var v := Apply(w, e, cfg);
      && (e.c in v.conns <==> w.cache.now < e.tokenExpiresAt && e.user !in w.inactiveSince && Verdict(w.cache, e.sid))
      && (e.c in v.conns ==> v.conns[e.c] == Conn(e.sid, e.user, e.tokenExpiresAt, w.cache.now + cfg.timeout, w.cache.now))
      && (forall d | d in w.conns :: d in v.conns && v.conns[d] == w.conns[d])
  {
  }

  /** No other frame moves a deadline, and no socket outlives its own. */
  lemma OnlyPingsRenew(w: World, e: Event, cfg: Config, c: ConnId)
    requires c in w.conns && !e.Ping? && !e.Connect? && c in Apply(w, e, cfg).conns
    ensures Apply(w, e, cfg).conns[c] == w.conns[c]
  {
  }

  /** Time closes exactly the sockets whose deadline it reaches. */
  lemma TickReaps(w: World, dt: real, cfg: Config, c: ConnId)
    requires c in w.conns && dt >= 0.0
    ensures c in Apply(w, Backend(Tick(dt)), cfg).conns <==> w.cache.now + dt < w.conns[c].deadline
  {
  }
}
