/**
  The receive loop of one `/v1/ws` connection: heartbeat deadline, frame guard, revalidation on
  ping, subscriptions. Handling a frame takes no time; an idle socket is reaped at its deadline.
*/
module WebSocketLoop {
  import FL = FrameLimiter

  type Topic = string

  datatype Option<T> = None | Some(value: T)

  datatype CloseCode = HeartbeatTimeout | RateLimited | TokenExpired | TokenRevoked | UserDeactivated

  /** What revalidation looks at, in this order. */
  datatype Checks = Checks(tokenExpired: bool, sessionActive: bool, userActive: bool)

  function Revalidate(c: Checks): Option<CloseCode> {
    if c.tokenExpired then Some(TokenExpired)
    else if !c.sessionActive then Some(TokenRevoked)
    else if !c.userActive then Some(UserDeactivated)
    else None
  }

  predicate Passes(c: Checks) {
    !c.tokenExpired && c.sessionActive && c.userActive
  }

  /** A client frame; joins and typing carry the outcome of their authorization check. */
  datatype Frame =
    | Ping(checks: Checks)
    | Join(topic: Topic, authorized: bool)
    | Leave(topic: Topic)
    | Typing(topic: Topic, authorized: bool)
    | Malformed
    | ClientClose

  datatype Received = Received(at: real, frame: Frame)

  datatype Config = Config(timeout: real, maxFrames: int, window: real)

  /** How the loop ended; no code is sent when the client closed. */
  datatype End = End(at: real, code: Option<CloseCode>, topics: set<Topic>)

  ghost predicate InOrder(start: real, frames: seq<Received>) {
    && (forall i | 0 <= i < |frames| :: start <= frames[i].at)
    && (forall i, j | 0 <= i <= j < |frames| :: frames[i].at <= frames[j].at)
  }

  function Subscribed(topics: set<Topic>, f: Frame): set<Topic> {
    match f
    case Join(t, authorized) => if authorized then topics + {t} else topics
    case Leave(t) => topics - {t}
    case _ => topics
  }

  /** The loop's outcome from frame `i` on, given its deadline, past frames and subscriptions. */
  function Outcome(frames: seq<Received>, i: nat, deadline: real, past: seq<real>, topics: set<Topic>, cfg: Config): End
    requires i <= |frames|
    decreases |frames| - i
  {
    if i == |frames| || frames[i].at >= deadline then End(deadline, Some(HeartbeatTimeout), topics)
    else
      var at, f := frames[i].at, frames[i].frame;
      if f.ClientClose? then End(at, None, topics)
      else if FL.FramesInWindow(past + [at], at - cfg.window) > cfg.maxFrames then End(at, Some(RateLimited), topics)
      else if f.Ping? && Revalidate(f.checks).Some? then End(at, Revalidate(f.checks), topics)
      else
        Outcome(frames, i + 1, if f.Ping? then at + cfg.timeout else deadline, past + [at], Subscribed(topics, f), cfg)
  }

  /** `_connection_loop`, with its own frame limiter. */
  method ConnectionLoop(start: real, frames: seq<Received>, own: Topic, cfg: Config) returns (end: End)
    requires InOrder(start, frames) && cfg.timeout > 0.0
    ensures end == Outcome(frames, 0, start + cfg.timeout, [], {own}, cfg)
  {
    var limiter := new FL.FrameRateLimiter(cfg.maxFrames, cfg.window);
    var deadline, now, topics, i := start + cfg.timeout, start, {own}, 0;
    ghost var goal := Outcome(frames, 0, deadline, [], topics, cfg);
    while true
      invariant i <= |frames| && now < deadline && (i > 0 ==> now == frames[i - 1].at)
      invariant fresh(limiter) && limiter.Valid() && limiter.maxFrames == cfg.maxFrames && limiter.window == cfg.window
      invariant i == 0 <==> limiter.history == []
      invariant i > 0 ==> limiter.history[|limiter.history| - 1] == now
      invariant Outcome(frames, i, deadline, limiter.history, topics, cfg) == goal
      decreases |frames| - i
    {
      if i == |frames| || frames[i].at >= deadline {
        return End(deadline, Some(HeartbeatTimeout), topics);
      }
      var f := frames[i].frame;
      now := frames[i].at;
      if f.ClientClose? {
        return End(now, None, topics);
      }
      var over := limiter.RecordAndCheck(now);
      if over {
        return End(now, Some(RateLimited), topics);
      }
      i := i + 1;
      match f {
        case Ping(checks) =>
          deadline := now + cfg.timeout;
          var code := Revalidate(checks);
          if code.Some? {
            return End(now, code, topics);
          }
        case Join(t, authorized) =>
          if authorized {
            topics := topics + {t};
          }
        case Leave(t) =>
          topics := topics - {t};
        case Typing(_, _) =>
        case Malformed =>
      }
    }
  }

  // ---------------------------------------------------------------- what the loop guarantees

  /** A moment at which the three checks passed: the connect, or a ping. */
  ghost predicate CheckedAt(frames: seq<Received>, start: real, p: real) {
    p == start || exists i :: 0 <= i < |frames| && frames[i].at == p && frames[i].frame.Ping? && Passes(frames[i].frame.checks)
  }

  ghost predicate CheckedRecently(frames: seq<Received>, start: real, t: real, timeout: real) {
    exists p :: CheckedAt(frames, start, p) && p <= t < p + timeout
  }

  lemma {:induction false} OpenFrom(frames: seq<Received>, start: real, i: nat, deadline: real, past: seq<real>, topics: set<Topic>, cfg: Config, p: real, t: real)
    requires InOrder(start, frames) && cfg.timeout > 0.0 && i <= |frames|
    requires CheckedAt(frames, start, p) && deadline == p + cfg.timeout
    requires p <= t < Outcome(frames, i, deadline, past, topics, cfg).at
    ensures CheckedRecently(frames, start, t, cfg.timeout)
    decreases |frames| - i
  {
    if i < |frames| && frames[i].at < deadline && t >= frames[i].at {
      var at, f := frames[i].at, frames[i].frame;
      if f.Ping? {
        OpenFrom(frames, start, i + 1, at + cfg.timeout, past + [at], Subscribed(topics, f), cfg, at, t);
      } else {
        OpenFrom(frames, start, i + 1, deadline, past + [at], Subscribed(topics, f), cfg, p, t);
      }
    } else {
      assert t < deadline;
    }
  }

  /**
    At every instant the socket is open, token, session and user checks passed within the last
    heartbeat timeout, whatever other frames the client sends.
  */
  lemma OpenMeansCheckedRecently(start: real, frames: seq<Received>, own: Topic, cfg: Config, t: real)
    requires InOrder(start, frames) && cfg.timeout > 0.0
    requires start <= t < Outcome(frames, 0, start + cfg.timeout, [], {own}, cfg).at
    ensures CheckedRecently(frames, start, t, cfg.timeout)
  {
    OpenFrom(frames, start, 0, start + cfg.timeout, [], {own}, cfg, start, t);
  }

  /** Frames that cannot pass the checks do not extend the connection. */
  ghost predicate NoGoodPingAfter(frames: seq<Received>, r: real) {
    forall i | 0 <= i < |frames| && frames[i].at > r && frames[i].frame.Ping? :: !Passes(frames[i].frame.checks)
  }

  /** If no check passes after time r, the socket is closed one timeout later at the latest. */
  lemma ClosesWithinTimeout(start: real, frames: seq<Received>, own: Topic, cfg: Config, r: real)
    requires InOrder(start, frames) && cfg.timeout > 0.0 && start <= r && NoGoodPingAfter(frames, r)
    ensures Outcome(frames, 0, start + cfg.timeout, [], {own}, cfg).at <= r + cfg.timeout
  {
    var end := Outcome(frames, 0, start + cfg.timeout, [], {own}, cfg);
    if end.at > r + cfg.timeout {
      OpenMeansCheckedRecently(start, frames, own, cfg, r + cfg.timeout);
    }
  }

  // ---------------------------------------------------------------- the loop, frame by frame

  function Times(frames: seq<Received>, n: nat): (ts: seq<real>)
    requires n <= |frames|
    ensures |ts| == n
  {
    seq(n, i requires 0 <= i < n => frames[i].at)
  }

  /** The frames up to and including `i` are more in its window than the limit. */
  predicate TooMany(frames: seq<Received>, i: nat, cfg: Config)
    requires i < |frames|
  {
    FL.FramesInWindow(Times(frames, i + 1), frames[i].at - cfg.window) > cfg.maxFrames
  }

  /** When the checks were last asked for before frame `n`: the connect or the last ping. */
  function LastCheck(start: real, frames: seq<Received>, n: nat): real
    requires n <= |frames|
  {
    if n == 0 then start
    else if frames[n - 1].frame.Ping? then frames[n - 1].at
    else LastCheck(start, frames, n - 1)
  }

  /** Subscribed after `n` frames: by the connect, or by the last authorized join or leave of the topic. */
  predicate SubscribedTo(t: Topic, own: Topic, frames: seq<Received>, n: nat)
    requires n <= |frames|
  {
    if n == 0 then t == own
    else if frames[n - 1].frame == Join(t, true) then true
    else if frames[n - 1].frame == Leave(t) then false
    else SubscribedTo(t, own, frames, n - 1)
  }

  ghost predicate AreSubscribed(topics: set<Topic>, own: Topic, frames: seq<Received>, n: nat)
    requires n <= |frames|
  {
    forall t :: t in topics <==> SubscribedTo(t, own, frames, n)
  }

  /** Frame `i` lets the loop go on. */
  predicate GoesOn(frames: seq<Received>, i: nat, cfg: Config)
    requires i < |frames|
  {
    !frames[i].frame.ClientClose? && !TooMany(frames, i, cfg) && (frames[i].frame.Ping? ==> Passes(frames[i].frame.checks))
  }

  /** Why the loop ended before processing frame `n` to its end, and when. */
  ghost predicate EndsAt(end: End, start: real, frames: seq<Received>, n: nat, cfg: Config)
    requires n <= |frames|
  {
    var deadline := LastCheck(start, frames, n) + cfg.timeout;
    if n == |frames| || frames[n].at >= deadline then end.at == deadline && end.code == Some(HeartbeatTimeout)
    else
      && end.at == frames[n].at
      && (end.code == None <==> frames[n].frame.ClientClose?)
      && (end.code == Some(RateLimited) <==> !frames[n].frame.ClientClose? && TooMany(frames, n, cfg))
      && (end.code != None && end.code != Some(RateLimited) ==>
            frames[n].frame.Ping?
            && var c := frames[n].frame.checks;
               if c.tokenExpired then end.code == Some(TokenExpired)
               else if !c.sessionActive then end.code == Some(TokenRevoked)
               else !c.userActive && end.code == Some(UserDeactivated))
  }

  /** Frame `i` comes before the deadline and lets the loop go on. */
  predicate Continues(start: real, frames: seq<Received>, i: nat, cfg: Config)
    requires i < |frames|
  {
    GoesOn(frames, i, cfg) && frames[i].at < LastCheck(start, frames, i) + cfg.timeout
  }

  ghost predicate ContinuesUpTo(start: real, frames: seq<Received>, n: nat, cfg: Config)
    requires n <= |frames|
  {
    forall i | 0 <= i < n :: Continues(start, frames, i, cfg)
  }

  /** The loop processes frames as long as each comes before its deadline and lets it go on, and ends at the first that does not. */
  ghost predicate LoopEnds(end: End, start: real, frames: seq<Received>, own: Topic, cfg: Config, n: nat) {
    && n <= |frames|
    && ContinuesUpTo(start, frames, n, cfg)
    && EndsAt(end, start, frames, n, cfg) && AreSubscribed(end.topics, own, frames, n)
  }

  lemma SubscribedOn(topics: set<Topic>, own: Topic, frames: seq<Received>, i: nat)
    requires i < |frames| && AreSubscribed(topics, own, frames, i)
    ensures AreSubscribed(Subscribed(topics, frames[i].frame), own, frames, i + 1)
  {
  }

  /** The specification function from frame `i` on, as the loop meets it. */
  function OutcomeAt(start: real, frames: seq<Received>, i: nat, topics: set<Topic>, cfg: Config): End
    requires i <= |frames|
  {
    Outcome(frames, i, LastCheck(start, frames, i) + cfg.timeout, Times(frames, i), topics, cfg)
  }

  lemma TimesOn(frames: seq<Received>, i: nat)
    requires i < |frames|
    ensures Times(frames, i) + [frames[i].at] == Times(frames, i + 1)
  {
  }

  lemma OutcomeGoesOn(start: real, frames: seq<Received>, i: nat, topics: set<Topic>, cfg: Config)
    requires i < |frames| && Continues(start, frames, i, cfg)
    ensures OutcomeAt(start, frames, i, topics, cfg) == OutcomeAt(start, frames, i + 1, Subscribed(topics, frames[i].frame), cfg)
  {
    TimesOn(frames, i);
  }

  lemma OutcomeStops(start: real, frames: seq<Received>, i: nat, topics: set<Topic>, cfg: Config)
    requires i <= |frames| && (i < |frames| ==> !Continues(start, frames, i, cfg))
    ensures EndsAt(OutcomeAt(start, frames, i, topics, cfg), start, frames, i, cfg)
    ensures OutcomeAt(start, frames, i, topics, cfg).topics == topics
  {
    if i < |frames| {
      TimesOn(frames, i);
    }
  }

  lemma {:induction false} FirstStop(start: real, frames: seq<Received>, cfg: Config, i: nat) returns (n: nat)
    requires i <= |frames| && ContinuesUpTo(start, frames, i, cfg)
    ensures i <= n <= |frames| && ContinuesUpTo(start, frames, n, cfg)
    ensures n < |frames| ==> !Continues(start, frames, n, cfg)
    decreases |frames| - i
  {
    n := i;
    if i < |frames| && Continues(start, frames, i, cfg) {
      n := FirstStop(start, frames, cfg, i + 1);
    }
  }

  /** Going on through `n` frames: the subscriptions are the fold, the outcome is that of what is left. */
  lemma {:induction false} OutcomeAfter(start: real, frames: seq<Received>, own: Topic, cfg: Config, n: nat) returns (topics: set<Topic>)
    requires n <= |frames| && ContinuesUpTo(start, frames, n, cfg)
    ensures AreSubscribed(topics, own, frames, n)
    ensures OutcomeAt(start, frames, 0, {own}, cfg) == OutcomeAt(start, frames, n, topics, cfg)
  {
    topics := {own};
    if n > 0 {
      var before := OutcomeAfter(start, frames, own, cfg, n - 1);
      assert Continues(start, frames, n - 1, cfg);
      OutcomeGoesOn(start, frames, n - 1, before, cfg);
      SubscribedOn(before, own, frames, n - 1);
      topics := Subscribed(before, frames[n - 1].frame);
    }
  }

  /** What the loop does, said without running it. */
  lemma LoopEndsRight(start: real, frames: seq<Received>, own: Topic, cfg: Config) returns (n: nat)
    requires InOrder(start, frames) && cfg.timeout > 0.0
    ensures LoopEnds(Outcome(frames, 0, start + cfg.timeout, [], {own}, cfg), start, frames, own, cfg, n)
  {
    n := FirstStop(start, frames, cfg, 0);
    var topics := OutcomeAfter(start, frames, own, cfg, n);
    OutcomeStops(start, frames, n, topics, cfg);
    assert Times(frames, 0) == [];
  }
}
