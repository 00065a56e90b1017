/**
  Boundedness of one send: whatever other requests and sweeps do, the claim and resolve loops of a
  request end after a number of its own steps fixed by the two loop bounds and its media count.
*/
module MessageSendProgress {
  import opened MessageSend

  /** Program points the code can reach: attempts and rounds within their bounds. */
  predicate InBounds(pc: Pc) {
    match pc
    case Probing(round, attempt) => round <= CLAIM_MAX_ROUNDS && attempt < RESOLVE_MAX_ATTEMPTS
    case Looking(round, attempt, _) =>
      round <= CLAIM_MAX_ROUNDS && (attempt == 0 || attempt == RESOLVE_MAX_ATTEMPTS - 1)
    case Claiming(round) => 1 <= round <= CLAIM_MAX_ROUNDS
    case _ => true
  }

  const ROUND_COST: nat := 2 * RESOLVE_MAX_ATTEMPTS + 4

  /** An upper bound on the steps a request with `n` attachments still takes. */
  function Rank(pc: Pc, n: nat): int {
    match pc
    case Probing(round, attempt) => (CLAIM_MAX_ROUNDS - round) * ROUND_COST + n + 10 + 2 * (RESOLVE_MAX_ATTEMPTS - attempt)
    case Looking(round, attempt, _) => (CLAIM_MAX_ROUNDS - round) * ROUND_COST + n + 9 + 2 * (RESOLVE_MAX_ATTEMPTS - attempt)
    case Validating => CLAIM_MAX_ROUNDS * ROUND_COST + n + 10
    case Claiming(round) => (CLAIM_MAX_ROUNDS - round) * ROUND_COST + n + 10 + ROUND_COST - 2
    case Inserting => n + 6
    case Binding(todo, _) => |todo| + 5
    case Committing(_) => 4
    case RollingBack(_) => 3
    case Publishing => 2
    case Releasing => 2
    case Finished(_) => 0
    case Crashed => 1
  }

  function MaxSteps(n: nat): nat {
    CLAIM_MAX_ROUNDS * ROUND_COST + n + 10 + 2 * RESOLVE_MAX_ATTEMPTS
  }

  /** The request's program point changed from `s` to `t`, and its rank fell. */
  ghost predicate Falls(s: State, t: State, id: MessageId) {
    && id in s.requests && id in t.requests
    && InBounds(t.requests[id].pc)
    && t.requests[id].media == s.requests[id].media
    && (t.requests[id].pc == s.requests[id].pc
        || Rank(t.requests[id].pc, |t.requests[id].media|) < Rank(s.requests[id].pc, |s.requests[id].media|))
  }

  lemma {:induction false} IdSetFits(ids: seq<MediaId>)
    ensures |IdSet(ids)| <= |ids|
  {
    if ids != [] {
      IdSetFits(ids[1..]);
      assert ids == [ids[0]] + ids[1..];
      assert IdSet(ids) == IdSet(ids[1..]) + {ids[0]};
    }
  }

  lemma RankPositive(pc: Pc, n: nat)
    requires InBounds(pc) && !pc.Finished?
    ensures Rank(pc, n) >= 1
    ensures !pc.Crashed? ==> Rank(pc, n) >= 2
    ensures pc.Inserting? || pc.Binding? || pc.Committing? ==> Rank(pc, n) >= 4
  {
  }

  lemma ProbeRank(round: nat, attempt: nat, n: nat)
    requires InBounds(Probing(round, attempt))
    ensures InBounds(NoClaimFound(round)) && Rank(NoClaimFound(round), n) < Rank(Probing(round, attempt), n)
    ensures attempt + 1 < RESOLVE_MAX_ATTEMPTS ==> Rank(Probing(round, attempt + 1), n) < Rank(Probing(round, attempt), n)
    ensures forall x :: Rank(Looking(round, attempt, x), n) < Rank(Probing(round, attempt), n)
  {
  }

  lemma ProbeFalls(s: State, id: MessageId)
    requires id in s.requests && InBounds(s.requests[id].pc)
    ensures Falls(s, DoProbe(s, id), id)
  {
    var r := s.requests[id];
    if r.pc.Probing? {
      ProbeRank(r.pc.round, r.pc.attempt, |r.media|);
    }
  }

  lemma LookFalls(s: State, id: MessageId)
    requires id in s.requests && InBounds(s.requests[id].pc)
    ensures Falls(s, DoLook(s, id), id)
  {
  }

  lemma ValidateFalls(s: State, id: MessageId)
    requires id in s.requests && InBounds(s.requests[id].pc)
    ensures Falls(s, DoValidate(s, id), id)
  {
  }

  lemma ClaimFalls(s: State, id: MessageId, lost: bool)
    requires id in s.requests && InBounds(s.requests[id].pc)
    ensures Falls(s, DoClaim(s, id, lost), id)
  {
  }

  lemma InsertFalls(s: State, id: MessageId)
    requires id in s.requests && InBounds(s.requests[id].pc)
    ensures Falls(s, DoInsert(s, id), id)
  {
    IdSetFits(s.requests[id].media);
  }

  lemma BindRowFalls(s: State, id: MessageId, m: MediaId)
    requires id in s.requests && InBounds(s.requests[id].pc)
    ensures Falls(s, DoBindRow(s, id, m), id)
  {
  }

  lemma CountBoundFalls(s: State, id: MessageId)
    requires id in s.requests && InBounds(s.requests[id].pc)
    ensures Falls(s, DoCountBound(s, id), id)
  {
  }

  lemma CommitFalls(s: State, id: MessageId)
    requires id in s.requests && InBounds(s.requests[id].pc)
    ensures Falls(s, DoCommit(s, id), id)
  {
  }

  lemma PublishFalls(s: State, id: MessageId, lost: bool)
    requires id in s.requests && InBounds(s.requests[id].pc)
    ensures Falls(s, DoPublish(s, id, lost), id)
  {
  }

  lemma RaiseFalls(s: State, id: MessageId)
    requires id in s.requests && InBounds(s.requests[id].pc)
    ensures Falls(s, DoRaise(s, id), id)
  {
    if !s.requests[id].pc.Finished? {
      RankPositive(s.requests[id].pc, |s.requests[id].media|);
    }
  }

  lemma RollbackFalls(s: State, id: MessageId)
    requires id in s.requests && InBounds(s.requests[id].pc)
    ensures Falls(s, DoRollback(s, id), id)
  {
  }

  lemma ReleaseFalls(s: State, id: MessageId, lost: bool)
    requires id in s.requests && InBounds(s.requests[id].pc)
    ensures Falls(s, DoRelease(s, id, lost), id)
  {
  }

  lemma CrashFalls(s: State, id: MessageId)
    requires id in s.requests && InBounds(s.requests[id].pc)
    ensures Falls(s, DoCrash(s, id), id)
  {
    if !s.requests[id].pc.Finished? {
      RankPositive(s.requests[id].pc, |s.requests[id].media|);
    }
  }

  lemma ClaimPartFalls(s: State, a: Action)
    requires a.Probe? || a.Look? || a.Validate? || a.Claim? || a.Insert? || a.Crash?
    requires a.id in s.requests && InBounds(s.requests[a.id].pc)
    ensures Falls(s, Step(s, a), a.id)
  {
    match a
    case Probe(id) => ProbeFalls(s, id);
    case Look(id) => LookFalls(s, id);
    case Validate(id) => ValidateFalls(s, id);
    case Claim(id, lost) => ClaimFalls(s, id, lost);
    case Insert(id) => InsertFalls(s, id);
    case Crash(id) => CrashFalls(s, id);
  }

  lemma TransactionPartFalls(s: State, a: Action)
    requires a.BindRow? || a.CountBound? || a.Commit? || a.Publish? || a.Raise? || a.Rollback? || a.Release?
    requires a.id in s.requests && InBounds(s.requests[a.id].pc)
    ensures Falls(s, Step(s, a), a.id)
  {
    match a
    case BindRow(id, m) => BindRowFalls(s, id, m);
    case CountBound(id) => CountBoundFalls(s, id);
    case Commit(id) => CommitFalls(s, id);
    case Publish(id, lost) => PublishFalls(s, id, lost);
    case Raise(id) => RaiseFalls(s, id);
    case Rollback(id) => RollbackFalls(s, id);
    case Release(id, lost) => ReleaseFalls(s, id, lost);
  }

  predicate SendAction(a: Action) {
    IsClaimStep(a) || IsEndStep(a) || a.Commit?
  }

  lemma OthersKeepIt(s: State, a: Action, id: MessageId)
    requires id in s.requests && !SendAction(a)
    ensures id in Step(s, a).requests && Step(s, a).requests[id] == s.requests[id]
  {
    if IsSweepStep(a) {
      SweepStepFrame(s, a);
    }
  }

  lemma OtherRequestKeepsIt(s: State, a: Action, id: MessageId)
    requires id in s.requests && SendAction(a) && a.id != id
    ensures id in Step(s, a).requests && Step(s, a).requests[id] == s.requests[id]
  {
    if IsClaimStep(a) {
      ClaimStepMovesOne(s, a);
    } else if IsEndStep(a) {
      EndStepMovesOne(s, a);
    }
  }

  lemma EveryStepFalls(s: State, a: Action, id: MessageId)
    requires id in s.requests && InBounds(s.requests[id].pc)
    ensures Falls(s, Step(s, a), id)
  {
    if !SendAction(a) {
      OthersKeepIt(s, a, id);
    } else if a.id != id {
      OtherRequestKeepsIt(s, a, id);
    } else if a.Probe? || a.Look? || a.Validate? || a.Claim? || a.Insert? || a.Crash? {
      ClaimPartFalls(s, a);
    } else {
      TransactionPartFalls(s, a);
    }
  }

  /** A send waits for a row lock: it has rows to update, all of them matching and locked. */
  ghost predicate WaitsForRows(s: State, id: MessageId) {
    && id in s.requests && s.requests[id].pc.Binding? && s.requests[id].pc.todo != {}
    && (forall m | m in s.requests[id].pc.todo :: Bindable(s, s.requests[id].key.sender, m) && m in s.locks)
  }

  /** The step `a` of request `id` is no failure and moves it. */
  ghost predicate Advances(s: State, a: Action, id: MessageId) {
    && SendAction(a) && a.id == id && !a.Raise? && !a.Crash?
    && id in s.requests && id in Step(s, a).requests && Step(s, a).requests[id].pc != s.requests[id].pc
  }

  lemma ResolvingAdvances(s: State, id: MessageId) returns (a: Action)
    requires id in s.requests && (s.requests[id].pc.Probing? || s.requests[id].pc.Looking?)
    ensures Advances(s, a, id)
  {
    a := if s.requests[id].pc.Probing? then Probe(id) else Look(id);
  }

  lemma ClaimingAdvances(s: State, id: MessageId) returns (a: Action)
    requires id in s.requests
    requires var pc := s.requests[id].pc; pc.Validating? || pc.Claiming? || pc.Inserting?
    ensures Advances(s, a, id)
  {
    match s.requests[id].pc
    case Validating => a := Validate(id);
    case Claiming(_) => a := Claim(id, false);
    case Inserting => a := Insert(id);
  }

  lemma BindingAdvances(s: State, id: MessageId) returns (a: Action)
    requires id in s.requests && s.requests[id].pc.Binding? && !WaitsForRows(s, id)
    ensures Advances(s, a, id)
  {
    if s.requests[id].pc.todo == {} {
      a := CountBound(id);
    } else {
      var m :| m in s.requests[id].pc.todo && !(Bindable(s, s.requests[id].key.sender, m) && m in s.locks);
      a := BindRow(id, m);
    }
  }

  lemma EndingAdvances(s: State, id: MessageId) returns (a: Action)
    requires id in s.requests
    requires var pc := s.requests[id].pc; pc.Committing? || pc.RollingBack? || pc.Publishing? || pc.Releasing?
    ensures Advances(s, a, id)
  {
    match s.requests[id].pc
    case Committing(_) => a := Commit(id);
    case RollingBack(_) => a := Rollback(id);
    case Publishing => a := Publish(id, false);
    case Releasing => a := Release(id, false);
  }

  /** A send that has not ended always has a next step of its own, no failure, unless it waits for row locks. */
  lemma NextStep(s: State, id: MessageId) returns (a: Action)
    requires id in s.requests && !s.requests[id].pc.Finished? && !s.requests[id].pc.Crashed? && !WaitsForRows(s, id)
    ensures Advances(s, a, id)
  {
    var pc := s.requests[id].pc;
    if pc.Binding? {
      a := BindingAdvances(s, id);
    } else if pc.Committing? || pc.RollingBack? || pc.Publishing? || pc.Releasing? {
      a := EndingAdvances(s, id);
    } else if pc.Probing? || pc.Looking? {
      a := ResolvingAdvances(s, id);
    } else {
      a := ClaimingAdvances(s, id);
    }
  }

  /** How many steps of a run move request `id`. */
  function Moves(s: State, acts: seq<Action>, id: MessageId): nat
    decreases |acts|
  {
    if acts == [] then 0 else
      var t := Step(s, acts[0]);
      (if id in s.requests && id in t.requests && t.requests[id].pc != s.requests[id].pc then 1 else 0)
      + Moves(t, acts[1..], id)
  }

  lemma {:induction false} MovesFit(s: State, acts: seq<Action>, id: MessageId)
    requires id in s.requests && InBounds(s.requests[id].pc)
    ensures id in Run(s, acts).requests
    ensures Moves(s, acts, id) <= Rank(s.requests[id].pc, |s.requests[id].media|)
    decreases |acts|
  {
    if acts != [] {
      EveryStepFalls(s, acts[0], id);
      MovesFit(Step(s, acts[0]), acts[1..], id);
    }
  }

  /** A request that has just arrived moves at most `MaxSteps` times, in every interleaving. */
  lemma SendIsBounded(s: State, id: MessageId, key: ClaimKey, media: seq<MediaId>, acts: seq<Action>)
    requires id !in s.requests
    ensures Moves(DoArrive(s, id, key, media), acts, id) <= MaxSteps(|media|)
  {
    MovesFit(DoArrive(s, id, key, media), acts, id);
  }
}
