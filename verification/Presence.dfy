/**
  Presence of one user: the Redis reference count with its time to live, against the set of live
  WebSocket connections, under restarts, lost commands, process crashes and key expiry.
*/
module Presence {

  type ConnId = nat

  /** The counter key as stored; an expired key is still stored until Redis looks at it. */
  datatype Key = Missing | Present(count: int, expiresAt: real)

  function Seen(k: Key, now: real): Key {
    if k.Present? && now >= k.expiresAt then Missing else k
  }

  /** `is_online`. */
  predicate Online(k: Key, now: real) {
    Seen(k, now).Present? && Seen(k, now).count > 0
  }

  // The three scripts, as functions of the key Redis sees.

  function Incremented(k: Key, now: real, ttl: real): Key {
    Present((if k.Missing? then 0 else k.count) + 1, now + ttl)
  }

  function Renewed(k: Key, now: real, ttl: real): Key {
    Present(if k.Missing? then 1 else k.count, now + ttl)
  }

  function Decremented(k: Key): Key {
    if k.Missing? || k.count - 1 <= 0 then Missing else k.(count := k.count - 1)
  }

  function Remaining(k: Key): int {
    if k.Missing? || k.count - 1 <= 0 then 0 else k.count - 1
  }

  /**
    The service over one key. `up` says whether Redis answers the script; a failing script fails
    open to 0. `events` are the published transitions (true is online), `lastSeen` the durable column.
  */
  class PresenceService {
    var key: Key
    var events: seq<bool>
    var lastSeen: real

    constructor ()
      ensures key == Missing && events == []
    {
      key, events, lastSeen := Missing, [], 0.0;
    }

    method HandleConnect(now: real, ttl: real, up: bool)
      modifies this
      ensures key == if up then Incremented(Seen(old(key), now), now, ttl) else old(key)
      ensures events == old(events) + if up && key.count == 1 then [true] else []
      ensures lastSeen == old(lastSeen)
    {
      var count := 0;
      if up {
        key := Seen(key, now);
        count := if key.Missing? then 1 else key.count + 1;
        key := Present(count, now + ttl);
      }
      if count == 1 {
        events := events + [true];
      }
    }

    method HandleHeartbeat(now: real, ttl: real, up: bool)
      modifies this
      ensures key == if up then Renewed(Seen(old(key), now), now, ttl) else old(key)
      ensures events == old(events) && lastSeen == old(lastSeen)
    {
      if up {
        key := Seen(key, now);
        var existed := key.Present?;
        if !existed {
          key := Present(1, now);
        }
        key := key.(expiresAt := now + ttl);
      }
    }

    method HandleDisconnect(now: real, up: bool)
      modifies this
      ensures key == if up then Decremented(Seen(old(key), now)) else old(key)
      ensures var last := !up || Remaining(Seen(old(key), now)) == 0;
              && events == old(events) + (if last then [false] else [])
              && lastSeen == (if last then now else old(lastSeen))
    {
      var count := 0;
      if up {
        key := Seen(key, now);
        if key.Present? {
          var n := key.count - 1;
          if n <= 0 {
            key := Missing;
          } else {
            key, count := key.(count := n), n;
          }
        }
      }
      if count > 0 {
        return;
      }
      lastSeen := now;
      events := events + [false];
    }
  }

  // ---------------------------------------------------------------- the machine

  /** `live` maps each connection to its last connect or ping; `lastScript` is the last such script Redis ran. */
  datatype State = State(key: Key, live: map<ConnId, real>, now: real, lastScript: real, events: seq<bool>)

  datatype Config = Config(ttl: real, timeout: real)

  datatype Action =
    | Connect(c: ConnId, up: bool)
    | Ping(c: ConnId, up: bool)
    | Disconnect(c: ConnId, up: bool)
    | CrashInstance(gone: set<ConnId>)
    | RestartRedis
    | Tick(dt: real)

  function Step(s: State, a: Action, cfg: Config): State {
    match a
    case Connect(c, up) =>
      if c in s.live then s
      else if !up then s.(live := s.live[c := s.now])
      else
        var k := Incremented(Seen(s.key, s.now), s.now, cfg.ttl);
        s.(key := k, live := s.live[c := s.now], lastScript := s.now,
           events := s.events + if k.count == 1 then [true] else [])
    case Ping(c, up) =>
      if c !in s.live then s
      else if !up then s.(live := s.live[c := s.now])
      else s.(key := Renewed(Seen(s.key, s.now), s.now, cfg.ttl), live := s.live[c := s.now], lastScript := s.now)
    case Disconnect(c, up) =>
      if c !in s.live then s
      else
        var last := !up || Remaining(Seen(s.key, s.now)) == 0;
        s.(key := if up then Decremented(Seen(s.key, s.now)) else s.key,
           live := s.live - {c}, events := s.events + if last then [false] else [])
    case CrashInstance(gone) => s.(live := s.live - gone)
    case RestartRedis => s.(key := Missing)
    case Tick(dt) => if dt < 0.0 then s else s.(now := s.now + dt)
  }

  const INIT := State(Missing, map[], 0.0, 0.0, [])

  function Run(s: State, acts: seq<Action>, cfg: Config): State
    decreases |acts|
  {
    if acts == [] then s else Run(Step(s, acts[0], cfg), acts[1..], cfg)
  }

  // ---------------------------------------------------------------- never over-counts

  /** Every decrement reaches Redis and no instance crashes. Everything else may fail. */
  predicate Decrements(acts: seq<Action>) {
    forall a | a in acts :: !a.CrashInstance? && (a.Disconnect? ==> a.up)
  }

  ghost predicate NeverOver(s: State) {
    s.key.Present? ==> 1 <= s.key.count <= |s.live|
  }

  lemma NeverOverStep(s: State, a: Action, cfg: Config)
    requires NeverOver(s) && !a.CrashInstance? && (a.Disconnect? ==> a.up)
    ensures NeverOver(Step(s, a, cfg))
  {
  }

  lemma MapPut(m: map<ConnId, real>, c: ConnId, t: real)
    ensures |m[c := t]| == if c in m then |m| else |m| + 1
    ensures c in m ==> |m| >= 1
  {
  }

  lemma MapDrop(m: map<ConnId, real>, c: ConnId)
    requires c in m
    ensures |m - {c}| == |m| - 1
  {
  }

  /** A stored count is at least one and never exceeds the live connections. */
  lemma {:induction false} CountNeverExceedsLive(s: State, acts: seq<Action>, cfg: Config)
    requires NeverOver(s) && Decrements(acts)
    ensures NeverOver(INIT) && NeverOver(Run(s, acts, cfg))
    decreases |acts|
  {
    if acts != [] {
      assert acts[0] in acts;
      NeverOverStep(s, acts[0], cfg);
      CountNeverExceedsLive(Step(s, acts[0], cfg), acts[1..], cfg);
    }
  }

  // ---------------------------------------------------------------- exact without faults

  /** No fault, and the router reaps a connection before its heartbeat timeout passes. */
  ghost predicate Orderly(s: State, a: Action, cfg: Config) {
    match a
    case Connect(_, up) => up
    case Ping(_, up) => up
    case Disconnect(_, up) => up
    case CrashInstance(_) => false
    case RestartRedis => false
    case Tick(dt) => forall c | c in s.live :: s.now + dt < s.live[c] + cfg.timeout
  }

  ghost predicate OrderlyRun(s: State, acts: seq<Action>, cfg: Config)
    decreases |acts|
  {
    acts == [] || (Orderly(s, acts[0], cfg) && OrderlyRun(Step(s, acts[0], cfg), acts[1..], cfg))
  }

  ghost predicate Alternates(events: seq<bool>) {
    forall i | 0 <= i < |events| :: events[i] == (i % 2 == 0)
  }

  ghost predicate Exact(s: State, cfg: Config) {
    && (if s.live == map[] then s.key == Missing else
          s.key.Present? && s.key.count == |s.live| && s.now < s.key.expiresAt)
    && (forall c | c in s.live :: s.live[c] + cfg.ttl <= s.key.expiresAt && s.live[c] <= s.now < s.live[c] + cfg.timeout)
    && Alternates(s.events) && (|s.events| % 2 == 1 <==> s.live != map[])
  }

  lemma ExactConnect(s: State, c: ConnId, cfg: Config)
    requires 0.0 < cfg.timeout < cfg.ttl && Exact(s, cfg)
    ensures Exact(Step(s, Connect(c, true), cfg), cfg)
  {
  }

  lemma ExactPing(s: State, c: ConnId, cfg: Config)
    requires 0.0 < cfg.timeout < cfg.ttl && Exact(s, cfg)
    ensures Exact(Step(s, Ping(c, true), cfg), cfg)
  {
  }

  lemma ExactDisconnect(s: State, c: ConnId, cfg: Config)
    requires 0.0 < cfg.timeout < cfg.ttl && Exact(s, cfg)
    ensures Exact(Step(s, Disconnect(c, true), cfg), cfg)
  {
    if c in s.live {
      var t := Step(s, Disconnect(c, true), cfg);
      MapDrop(s.live, c);
      assert t.live == map[] <==> |t.live| == 0;
    }
  }

  lemma ExactTick(s: State, dt: real, cfg: Config)
    requires 0.0 < cfg.timeout < cfg.ttl && Exact(s, cfg) && Orderly(s, Tick(dt), cfg)
    ensures Exact(Step(s, Tick(dt), cfg), cfg)
  {
  }

  /**
    With no fault and a heartbeat timeout below the presence time to live: the key lives exactly
    while a connection does, the count is the number of connections, and online and offline
    transitions strictly alternate.
  */
  lemma {:induction false} CountIsExact(s: State, acts: seq<Action>, cfg: Config)
    requires 0.0 < cfg.timeout < cfg.ttl && Exact(s, cfg) && OrderlyRun(s, acts, cfg)
    ensures Exact(INIT, cfg) && Exact(Run(s, acts, cfg), cfg)
    ensures Online(Run(s, acts, cfg).key, Run(s, acts, cfg).now) <==> Run(s, acts, cfg).live != map[]
    decreases |acts|
  {
    if acts == [] {
      if s.live != map[] {
        var d :| d in s.live;
        MapPut(s.live, d, s.now);
      }
    } else {
      match acts[0] {
        case Connect(c, _) => ExactConnect(s, c, cfg);
        case Ping(c, _) => ExactPing(s, c, cfg);
        case Disconnect(c, _) => ExactDisconnect(s, c, cfg);
        case Tick(dt) => ExactTick(s, dt, cfg);
      }
      CountIsExact(Step(s, acts[0], cfg), acts[1..], cfg);
    }
  }

  // ---------------------------------------------------------------- never stale, whatever fails

  ghost predicate Fresh(s: State, cfg: Config) {
    && s.lastScript <= s.now
    && (s.key.Present? ==> s.key.expiresAt == s.lastScript + cfg.ttl)
  }

  /** Whatever crashes, restarts or gets lost: online means some script ran less than a TTL ago. */
  lemma {:induction false} OnlineMeansRecentScript(s: State, acts: seq<Action>, cfg: Config)
    requires Fresh(s, cfg)
    ensures Fresh(INIT, cfg)
    ensures var t := Run(s, acts, cfg);
            Fresh(t, cfg) && (Online(t.key, t.now) ==> t.now < t.lastScript + cfg.ttl)
    decreases |acts|
  {
    if acts != [] {
      OnlineMeansRecentScript(Step(s, acts[0], cfg), acts[1..], cfg);
    }
  }

  // ---------------------------------------------------------------- after a restart

  /** Connections the stored count misses. */
  function Deficit(s: State): int {
    |s.live| - (if s.key.Present? then s.key.count else 0)
  }

  /** The key, if there is one, counts some of the live connections and outlives their deadlines. */
  ghost predicate Short(s: State, cfg: Config) {
    && NeverOver(s)
    && (forall c | c in s.live :: s.live[c] <= s.now < s.live[c] + cfg.timeout)
    && (s.key.Present? ==> s.now < s.key.expiresAt && forall c | c in s.live :: s.live[c] + cfg.ttl <= s.key.expiresAt)
  }

  lemma ExactIsShort(s: State, cfg: Config)
    requires Exact(s, cfg)
    ensures Short(s, cfg) && Deficit(s) == 0
    ensures Short(Step(s, RestartRedis, cfg), cfg) && Deficit(Step(s, RestartRedis, cfg)) == |s.live|
  {
    if s.live != map[] {
      var c :| c in s.live;
      MapPut(s.live, c, s.now);
    }
  }

  lemma SomeLive(m: map<ConnId, real>)
    requires |m| >= 1
    ensures exists c :: c in m
  {
  }

  lemma ShortTick(s: State, dt: real, cfg: Config)
    requires 0.0 < cfg.timeout < cfg.ttl && Short(s, cfg) && Orderly(s, Tick(dt), cfg)
    ensures Short(Step(s, Tick(dt), cfg), cfg)
  {
    if s.key.Present? {
      SomeLive(s.live);
      var c :| c in s.live;
      assert s.now + dt < s.live[c] + cfg.timeout;
    }
  }

  lemma ShortStep(s: State, a: Action, cfg: Config)
    requires 0.0 < cfg.timeout < cfg.ttl && Short(s, cfg) && Orderly(s, a, cfg)
    ensures Short(Step(s, a, cfg), cfg) && 0 <= Deficit(Step(s, a, cfg)) <= Deficit(s)
  {
    NeverOverStep(s, a, cfg);
    if (a.Connect? && a.c !in s.live) || (a.Ping? && a.c in s.live) {
      MapPut(s.live, a.c, s.now);
    } else if a.Disconnect? && a.c in s.live {
      MapDrop(s.live, a.c);
    } else if a.Tick? {
      ShortTick(s, a.dt, cfg);
    }
  }

  predicate ReadsRight(s: State) {
    Online(s.key, s.now) <==> s.live != map[]
  }

  /** A user whose count is short by `d` reads online exactly while more than `d` connections live. */
  lemma OnlineBeyondDeficit(s: State, cfg: Config)
    requires Short(s, cfg)
    ensures Online(s.key, s.now) <==> |s.live| > Deficit(s)
    ensures s.live == map[] <==> |s.live| == 0
  {
  }

  /**
    Over any orderly run the count stays short of the live connections by no more than it was, so
    after a Redis restart by no more than the connections live at the restart.
  */
  lemma {:induction false} DeficitNeverGrows(s: State, acts: seq<Action>, cfg: Config)
    requires 0.0 < cfg.timeout < cfg.ttl && Short(s, cfg) && OrderlyRun(s, acts, cfg)
    ensures var t := Run(s, acts, cfg);
            && Short(t, cfg) && 0 <= Deficit(t) <= Deficit(s)
            && (Online(t.key, t.now) <==> |t.live| > Deficit(t))
    decreases |acts|
  {
    if acts == [] {
      OnlineBeyondDeficit(s, cfg);
    } else {
      ShortStep(s, acts[0], cfg);
      DeficitNeverGrows(Step(s, acts[0], cfg), acts[1..], cfg);
    }
  }

  /** With `n` connections live when Redis restarts: never over, and never more than `n` under. */
  lemma RestartLosesAtMost(s: State, acts: seq<Action>, cfg: Config)
    requires 0.0 < cfg.timeout < cfg.ttl && Exact(s, cfg) && OrderlyRun(Step(s, RestartRedis, cfg), acts, cfg)
    ensures var t := Run(Step(s, RestartRedis, cfg), acts, cfg);
            && 0 <= Deficit(t) <= |s.live|
            && (Online(t.key, t.now) ==> t.live != map[])
            && (|t.live| > |s.live| ==> Online(t.key, t.now))
  {
    ExactIsShort(s, cfg);
    DeficitNeverGrows(Step(s, RestartRedis, cfg), acts, cfg);
    OnlineBeyondDeficit(Run(Step(s, RestartRedis, cfg), acts, cfg), cfg);
  }

  ghost predicate AlwaysReadsRight(s: State, cfg: Config) {
    forall acts | OrderlyRun(s, acts, cfg) :: ReadsRight(Run(s, acts, cfg))
  }

  /** Connections closing one after the other bring a short count to nothing before the last of them. */
  lemma {:induction false} ShortCountFails(s: State, cfg: Config) returns (acts: seq<Action>)
    requires 0.0 < cfg.timeout < cfg.ttl && Short(s, cfg) && Deficit(s) > 0
    ensures OrderlyRun(s, acts, cfg) && !ReadsRight(Run(s, acts, cfg))
    decreases |s.live|
  {
    OnlineBeyondDeficit(s, cfg);
    acts := [];
    if s.key.Present? {
      SomeLive(s.live);
      var c :| c in s.live;
      var a := Disconnect(c, true);
      MapDrop(s.live, c);
      ShortStep(s, a, cfg);
      var rest := ShortCountFails(Step(s, a, cfg), cfg);
      acts := [a] + rest;
      assert acts[1..] == rest;
    }
  }

  /** From any such state every orderly continuation reads online exactly while connections live, if and only if no connection is missed. */
  lemma AlwaysReadsRightIff(s: State, cfg: Config)
    requires 0.0 < cfg.timeout < cfg.ttl && Short(s, cfg)
    ensures AlwaysReadsRight(s, cfg) <==> Deficit(s) == 0
  {
    if Deficit(s) > 0 {
      var acts := ShortCountFails(s, cfg);
    } else {
      forall acts | OrderlyRun(s, acts, cfg) ensures ReadsRight(Run(s, acts, cfg)) {
        DeficitNeverGrows(s, acts, cfg);
        OnlineBeyondDeficit(Run(s, acts, cfg), cfg);
      }
    }
  }

  /**
    A Redis restart is harmless if and only if nothing was connected; and once a first ping has
    recreated the key, if and only if that connection was the only one.
  */
  lemma RestartIsHarmlessIff(s: State, cfg: Config)
    requires 0.0 < cfg.timeout < cfg.ttl && Exact(s, cfg)
    ensures AlwaysReadsRight(Step(s, RestartRedis, cfg), cfg) <==> s.live == map[]
    ensures forall c | c in s.live ::
              AlwaysReadsRight(Step(Step(s, RestartRedis, cfg), Ping(c, true), cfg), cfg) <==> |s.live| == 1
  {
    var t := Step(s, RestartRedis, cfg);
    ExactIsShort(s, cfg);
    OnlineBeyondDeficit(t, cfg);
    AlwaysReadsRightIff(t, cfg);
    forall c | c in s.live
      ensures AlwaysReadsRight(Step(t, Ping(c, true), cfg), cfg) <==> |s.live| == 1
    {
      MapPut(t.live, c, t.now);
      ShortStep(t, Ping(c, true), cfg);
      AlwaysReadsRightIff(Step(t, Ping(c, true), cfg), cfg);
    }
  }

  /** The accepted trade-off: after a restart one surviving tab's ping can hide another's. */
  lemma RestartCanUndercount(cfg: Config)
    requires cfg.ttl > 0.0
    ensures var s := Run(INIT, [Connect(1, true), Connect(2, true), RestartRedis, Ping(1, true), Ping(2, true), Disconnect(1, true)], cfg);
            s.live != map[] && !Online(s.key, s.now) && s.events == [true, false]
  {
  }

  // ---------------------------------------------------------------- after a lost decrement or a crash

  /** Connections the count Redis sees has too many. */
  function Surplus(s: State): int {
    if Seen(s.key, s.now).Missing? then 0 else s.key.count - |s.live|
  }

  /** The stored count exceeds the live connections by `d`; while one of them lives the key does. */
  ghost predicate Long(s: State, cfg: Config, d: nat) {
    && Fresh(s, cfg)
    && (forall c | c in s.live :: s.live[c] <= s.now < s.live[c] + cfg.timeout && s.live[c] <= s.lastScript)
    && (if s.key.Present? then s.key.count == |s.live| + d && s.key.count >= 1 else s.live == map[])
  }

  lemma LongKeyLives(s: State, cfg: Config, d: nat)
    requires 0.0 < cfg.timeout < cfg.ttl && Long(s, cfg, d)
    ensures s.live != map[] ==> Seen(s.key, s.now) == s.key && s.key.Present?
    ensures Surplus(s) == (if Seen(s.key, s.now).Missing? then 0 else d)
    ensures Online(s.key, s.now) <==> s.live != map[] || Surplus(s) > 0
    ensures Surplus(s) > 0 ==> s.now < s.lastScript + cfg.ttl
  {
    if s.live != map[] {
      var c :| c in s.live;
      assert s.now < s.live[c] + cfg.timeout;
    } else {
      assert |s.live| == 0;
    }
  }

  /** An orderly step keeps the surplus, or ends it when it finds the key expired or deletes it. */
  lemma LongStep(s: State, a: Action, cfg: Config, d: nat)
    requires 0.0 < cfg.timeout < cfg.ttl && Long(s, cfg, d) && Orderly(s, a, cfg)
    ensures Long(Step(s, a, cfg), cfg, d) || (Long(Step(s, a, cfg), cfg, 0) && Surplus(s) == 0)
    ensures Surplus(s) == 0 ==> Surplus(Step(s, a, cfg)) == 0
  {
    LongKeyLives(s, cfg, d);
    if (a.Connect? && a.c !in s.live) || (a.Ping? && a.c in s.live) {
      MapPut(s.live, a.c, s.now);
    } else if a.Disconnect? && a.c in s.live {
      MapDrop(s.live, a.c);
    }
  }

  /** Whether every state of the run has a live connection. */
  ghost predicate NeverEmpty(s: State, acts: seq<Action>, cfg: Config)
    decreases |acts|
  {
    s.live != map[] && (acts == [] || NeverEmpty(Step(s, acts[0], cfg), acts[1..], cfg))
  }

  /**
    Over any orderly run a surplus stays as it is until the key expires, which takes one TTL without
    a connect or ping, so it outlasts every run in which some connection is always live. The user
    reads online exactly while a connection lives or a surplus does.
  */
  lemma {:induction false} SurplusLasts(s: State, acts: seq<Action>, cfg: Config, d: nat)
    requires 0.0 < cfg.timeout < cfg.ttl && Long(s, cfg, d) && OrderlyRun(s, acts, cfg)
    ensures var t := Run(s, acts, cfg);
      && (Long(t, cfg, d) || Long(t, cfg, 0)) && Surplus(t) in {0, d}
      && (NeverEmpty(s, acts, cfg) ==> Surplus(t) == d)
      && (Online(t.key, t.now) <==> t.live != map[] || Surplus(t) > 0)
      && (Surplus(t) > 0 ==> t.now < t.lastScript + cfg.ttl)
    decreases |acts|
  {
    LongKeyLives(s, cfg, d);
    if acts != [] {
      var t := Step(s, acts[0], cfg);
      LongStep(s, acts[0], cfg, d);
      if Long(t, cfg, d) {
        SurplusLasts(t, acts[1..], cfg, d);
      } else {
        SurplusLasts(t, acts[1..], cfg, 0);
      }
    }
  }

  /** Once every connection has gone, a surplus reads online for the rest of the TTL and no longer. */
  lemma SurplusFades(s: State, dt: real, cfg: Config, d: nat)
    requires 0.0 < cfg.timeout < cfg.ttl && Long(s, cfg, d) && s.live == map[] && Surplus(s) > 0 && dt >= 0.0
    ensures Online(Step(s, Tick(dt), cfg).key, s.now + dt) <==> s.now + dt < s.lastScript + cfg.ttl
  {
    LongKeyLives(s, cfg, d);
  }

  /** Closing every connection leaves a surplus behind. */
  lemma {:induction false} SurplusFails(s: State, cfg: Config, d: nat) returns (acts: seq<Action>)
    requires 0.0 < cfg.timeout < cfg.ttl && Long(s, cfg, d) && Surplus(s) > 0
    ensures OrderlyRun(s, acts, cfg) && !ReadsRight(Run(s, acts, cfg))
    decreases |s.live|
  {
    LongKeyLives(s, cfg, d);
    acts := [];
    if s.live != map[] {
      var c :| c in s.live;
      var a := Disconnect(c, true);
      MapDrop(s.live, c);
      LongStep(s, a, cfg, d);
      assert Surplus(Step(s, a, cfg)) == d;
      var rest := SurplusFails(Step(s, a, cfg), cfg, d);
      acts := [a] + rest;
      assert acts[1..] == rest;
    }
  }

  /** From any such state every orderly continuation reads online exactly while connections live, if and only if there is no surplus. */
  lemma NoSurplusIff(s: State, cfg: Config, d: nat)
    requires 0.0 < cfg.timeout < cfg.ttl && Long(s, cfg, d)
    ensures AlwaysReadsRight(s, cfg) <==> Surplus(s) == 0
  {
    LongKeyLives(s, cfg, d);
    if Surplus(s) > 0 {
      var acts := SurplusFails(s, cfg, d);
    } else {
      forall acts | OrderlyRun(s, acts, cfg) ensures ReadsRight(Run(s, acts, cfg)) {
        NoneFromNone(s, acts, cfg, d);
      }
    }
  }

  /** A surplus that has gone does not come back. */
  lemma {:induction false} NoneFromNone(s: State, acts: seq<Action>, cfg: Config, d: nat)
    requires 0.0 < cfg.timeout < cfg.ttl && Long(s, cfg, d) && Surplus(s) == 0 && OrderlyRun(s, acts, cfg)
    ensures Surplus(Run(s, acts, cfg)) == 0 && ReadsRight(Run(s, acts, cfg))
    decreases |acts|
  {
    LongKeyLives(s, cfg, d);
    if acts != [] {
      LongStep(s, acts[0], cfg, d);
      NoneFromNone(Step(s, acts[0], cfg), acts[1..], cfg, if Long(Step(s, acts[0], cfg), cfg, d) then d else 0);
    }
  }

  lemma Without(m: map<ConnId, real>, gone: set<ConnId>)
    ensures |m - gone| == |m| - |m.Keys * gone|
  {
    assert (m - gone).Keys == m.Keys - gone;
    assert |(m - gone).Keys| == |m - gone| && |m.Keys| == |m|;
    assert m.Keys == (m.Keys - gone) + (m.Keys * gone);
  }

  /** A crash leaves a surplus of the connections it took, and is harmless if and only if it took none. */
  lemma CrashIsHarmlessIff(s: State, gone: set<ConnId>, cfg: Config)
    requires 0.0 < cfg.timeout < cfg.ttl && Exact(s, cfg) && Long(s, cfg, 0)
    ensures Long(Step(s, CrashInstance(gone), cfg), cfg, |s.live.Keys * gone|)
    ensures Surplus(Step(s, CrashInstance(gone), cfg)) == |s.live.Keys * gone|
    ensures AlwaysReadsRight(Step(s, CrashInstance(gone), cfg), cfg) <==> s.live.Keys * gone == {}
  {
    var t := Step(s, CrashInstance(gone), cfg);
    Without(s.live, gone);
    if s.live == map[] {
      assert s.live.Keys * gone == {} && t.live == map[];
    }
    NoSurplusIff(t, cfg, |s.live.Keys * gone|);
  }

  /** A lost decrement leaves a surplus of one. */
  lemma LostDecrementLeavesOne(s: State, c: ConnId, cfg: Config)
    requires 0.0 < cfg.timeout < cfg.ttl && Exact(s, cfg) && Long(s, cfg, 0) && c in s.live
    ensures Long(Step(s, Disconnect(c, false), cfg), cfg, 1) && Surplus(Step(s, Disconnect(c, false), cfg)) == 1
    ensures !AlwaysReadsRight(Step(s, Disconnect(c, false), cfg), cfg)
  {
    MapDrop(s.live, c);
    NoSurplusIff(Step(s, Disconnect(c, false), cfg), cfg, 1);
  }

  /** Both hypotheses of a crash hold in every orderly run from the start. */
  lemma ExactAndLong(acts: seq<Action>, cfg: Config)
    requires 0.0 < cfg.timeout < cfg.ttl && OrderlyRun(INIT, acts, cfg)
    ensures Exact(Run(INIT, acts, cfg), cfg) && Long(Run(INIT, acts, cfg), cfg, 0)
  {
    CountIsExact(INIT, acts, cfg);
    SurplusLasts(INIT, acts, cfg, 0);
  }
}
