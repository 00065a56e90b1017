/**
  What a send that does not create the message is answered: with the message committed under its
  key, whether it lost the race for the claim or came later, and with a time-out only after all
  its attempts. And a send that creates it publishes it.
*/
module MessageSendReplay {
  import opened MessageSend
  import opened MessageSendSafety
  import opened MessageSendTheorems
  import Progress = MessageSendProgress

  /** Before its claim, or looking up the claim of `x`. */
  predicate Undecided(pc: Pc, x: MessageId) {
    pc.Probing? || pc.Validating? || pc.Claiming? || (pc.Looking? && pc.claimed == x)
  }

  /** Where a request can stand that was undecided when `x` was already committed under its key. */
  ghost predicate Retrying(s: State, id: MessageId, x: MessageId) {
    && id in s.requests && x in s.rows && id != x && SameKey(s, id, x)
    && (Undecided(s.requests[id].pc, x) || s.requests[id].pc == Finished(Replayed(x))
        || s.requests[id].pc == Finished(Failed) || s.requests[id].pc == Crashed)
  }

  lemma RetryProbes(s: State, id: MessageId, x: MessageId)
    requires ClaimInv(s) && Retrying(s, id, x)
    ensures Retrying(DoProbe(s, id), id, x)
  {
    assert RequestOk(s, x);
  }

  lemma RetryLooks(s: State, id: MessageId, x: MessageId)
    requires Retrying(s, id, x)
    ensures Retrying(DoLook(s, id), id, x)
  {
  }

  lemma RetryClaims(s: State, id: MessageId, x: MessageId, lost: bool)
    requires ClaimInv(s) && Retrying(s, id, x)
    ensures Retrying(DoClaim(s, id, lost), id, x)
  {
    assert RequestOk(s, x);
  }

  lemma RetryValidates(s: State, id: MessageId, x: MessageId)
    requires Retrying(s, id, x)
    ensures Retrying(DoValidate(s, id), id, x)
  {
  }

  lemma RetryRaises(s: State, id: MessageId, x: MessageId)
    requires Retrying(s, id, x)
    ensures DoRaise(s, id).requests[id].pc == s.requests[id].pc || Retrying(DoRaise(s, id), id, x)
  {
  }

  lemma RetryCrashes(s: State, id: MessageId, x: MessageId)
    requires Retrying(s, id, x)
    ensures DoCrash(s, id).requests[id].pc == s.requests[id].pc || Retrying(DoCrash(s, id), id, x)
  {
  }

  /** A request at these points takes none of the later steps. */
  lemma RetryIdles(s: State, a: Action, id: MessageId, x: MessageId)
    requires Retrying(s, id, x) && Progress.SendAction(a) && a.id == id
    requires !a.Probe? && !a.Look? && !a.Validate? && !a.Claim? && !a.Raise? && !a.Crash?
    ensures Step(s, a) == s
  {
  }

  lemma RetryMoves(s: State, a: Action, id: MessageId, x: MessageId)
    requires ClaimInv(s) && Retrying(s, id, x) && Progress.SendAction(a) && a.id == id
    ensures var t := Step(s, a); id in t.requests && (t.requests[id].pc == s.requests[id].pc || Retrying(t, id, x))
  {
    if a.Probe? {
      RetryProbes(s, id, x);
    } else if a.Look? {
      RetryLooks(s, id, x);
    } else if a.Validate? {
      RetryValidates(s, id, x);
    } else if a.Claim? {
      RetryClaims(s, id, x, a.replyLost);
    } else if a.Raise? {
      RetryRaises(s, id, x);
    } else if a.Crash? {
      RetryCrashes(s, id, x);
    } else {
      RetryIdles(s, a, id, x);
    }
  }

  lemma RetryKept(s: State, t: State, id: MessageId, x: MessageId)
    requires ClaimInv(s) && Retrying(s, id, x) && Extends(s, t)
    requires id in t.requests && t.requests[id] == s.requests[id]
    ensures Retrying(t, id, x)
  {
  }

  lemma RetryMoved(s: State, t: State, id: MessageId, x: MessageId)
    requires Retrying(s, id, x) && Extends(s, t) && id in t.requests
    requires t.requests[id].pc == s.requests[id].pc || Retrying(t, id, x)
    ensures Retrying(t, id, x)
  {
  }

  lemma RetryStep(s: State, a: Action, id: MessageId, x: MessageId)
    requires Inv(s) && Tame(s, a) && Retrying(s, id, x)
    ensures Retrying(Step(s, a), id, x)
  {
    ExtendsStep(s, a);
    if Progress.SendAction(a) && a.id == id {
      RetryMoves(s, a, id, x);
      RetryMoved(s, Step(s, a), id, x);
    } else {
      if Progress.SendAction(a) {
        Progress.OtherRequestKeepsIt(s, a, id);
      } else {
        Progress.OthersKeepIt(s, a, id);
      }
      RetryKept(s, Step(s, a), id, x);
    }
  }

  lemma {:induction false} RetryRun(s: State, id: MessageId, x: MessageId, acts: seq<Action>)
    requires Inv(s) && TameRun(s, acts) && Retrying(s, id, x)
    ensures Retrying(Run(s, acts), id, x)
    decreases |acts|
  {
    if acts != [] {
      RetryStep(s, acts[0], id, x);
      InvStep(s, acts[0]);
      RetryRun(Step(s, acts[0]), id, x, acts[1..]);
    }
  }

  /**
    Whatever else runs: once `x` is committed, a request of its key that has not got past its claim,
    in whatever round and attempt, never creates a row and never times out. It answers with `x`, or
    its own infrastructure fails.
  */
  lemma UndecidedReplays(s: State, id: MessageId, x: MessageId, acts: seq<Action>)
    requires Inv(s) && x in s.rows && SameKey(s, id, x) && Undecided(s.requests[id].pc, x)
    requires TameRun(s, acts)
    ensures var t := Run(s, acts);
            && id !in t.rows && id in t.requests
            && (t.requests[id].pc.Finished? ==>
                  t.requests[id].pc.outcome == Replayed(x) || t.requests[id].pc.outcome == Failed)
  {
    assert RequestOk(s, x);
    RetryRun(s, id, x, acts);
    InvRun(s, acts);
    assert RequestOk(Run(s, acts), id);
  }

  /** So it is with a retry that arrives after the commit. */
  lemma LateRetryReplays(s: State, id: MessageId, x: MessageId, media: seq<MediaId>, acts: seq<Action>)
    requires Inv(s) && x in s.rows && id !in s.requests
    requires TameRun(s, [Arrive(id, s.requests[x].key, media)] + acts)
    ensures var t := Run(s, [Arrive(id, s.requests[x].key, media)] + acts);
            && id !in t.rows && id in t.requests
            && (t.requests[id].pc.Finished? ==>
                  t.requests[id].pc.outcome == Replayed(x) || t.requests[id].pc.outcome == Failed)
  {
    var a := Arrive(id, s.requests[x].key, media);
    assert ([a] + acts)[0] == a && ([a] + acts)[1..] == acts;
    InvStep(s, a);
    UndecidedReplays(Step(s, a), id, x, acts);
  }

  /** The step an undecided request takes next, when nothing fails. */
  function OwnStep(pc: Pc, id: MessageId): Action {
    match pc
    case Probing(_, _) => Probe(id)
    case Looking(_, _, _) => Look(id)
    case Validating => Validate(id)
    case _ => Claim(id, false)
  }

  lemma OwnStepMoves(s: State, id: MessageId, x: MessageId)
    requires Inv(s) && Retrying(s, id, x) && Undecided(s.requests[id].pc, x)
    ensures var t := Step(s, OwnStep(s.requests[id].pc, id));
            id in t.requests && t.requests[id].pc != s.requests[id].pc && t.requests[id].pc != Finished(Failed) && !t.requests[id].pc.Crashed?
  {
    assert RequestOk(s, x);
  }

  /** Left to itself it does answer, with the committed message. */
  lemma {:induction false} AnswersAlone(s: State, id: MessageId, x: MessageId) returns (acts: seq<Action>)
    requires Inv(s) && Retrying(s, id, x) && Progress.InBounds(s.requests[id].pc)
    requires Undecided(s.requests[id].pc, x) || s.requests[id].pc == Finished(Replayed(x))
    ensures TameRun(s, acts) && id in Run(s, acts).requests && Run(s, acts).requests[id].pc == Finished(Replayed(x))
    decreases Progress.Rank(s.requests[id].pc, |s.requests[id].media|)
  {
    acts := [];
    if Undecided(s.requests[id].pc, x) {
      var a := OwnStep(s.requests[id].pc, id);
      OwnStepMoves(s, id, x);
      RetryStep(s, a, id, x);
      InvStep(s, a);
      Progress.EveryStepFalls(s, a, id);
      Progress.RankPositive(s.requests[id].pc, |s.requests[id].media|);
      var rest := AnswersAlone(Step(s, a), id, x);
      acts := [a] + rest;
      assert acts[1..] == rest;
    }
  }

  // ---------------------------------------------------------------- time-outs

  /** How often a run schedules the request's claim reads, and its claims. */
  function Probes(acts: seq<Action>, id: MessageId): nat {
    if acts == [] then 0 else (if acts[0] == Probe(id) then 1 else 0) + Probes(acts[1..], id)
  }

  function Claims(acts: seq<Action>, id: MessageId): nat {
    if acts == [] then 0 else (if acts[0].Claim? && acts[0].id == id then 1 else 0) + Claims(acts[1..], id)
  }

  /** What it takes to be at this point: so many claim reads, so many claims. */
  predicate Earned(pc: Pc, probes: nat, claims: nat) {
    match pc
    case Probing(round, attempt) => probes >= attempt && claims >= round
    case Looking(round, attempt, _) => probes > attempt && claims >= round
    case Claiming(round) => claims + 1 >= round
    case Finished(outcome) => outcome.TimedOut? ==> probes >= RESOLVE_MAX_ATTEMPTS || claims >= CLAIM_MAX_ROUNDS
    case _ => true
  }

  /** The request's point in `t` is earned if its point in `s` was, counting the reads and claims made. */
  ghost predicate EarnedOn(s: State, t: State, id: MessageId, probes: nat, claims: nat, p: nat, c: nat) {
    && id in s.requests && id in t.requests
    && (Progress.InBounds(s.requests[id].pc) && Earned(s.requests[id].pc, probes, claims) ==>
          Earned(t.requests[id].pc, probes + p, claims + c))
  }

  lemma EarnedProbe(s: State, id: MessageId, probes: nat, claims: nat)
    requires id in s.requests
    ensures EarnedOn(s, DoProbe(s, id), id, probes, claims, 1, 0)
  {
  }

  lemma EarnedClaim(s: State, id: MessageId, lost: bool, probes: nat, claims: nat)
    requires id in s.requests
    ensures EarnedOn(s, DoClaim(s, id, lost), id, probes, claims, 0, 1)
  {
  }

  lemma EarnedLook(s: State, id: MessageId, probes: nat, claims: nat)
    requires id in s.requests
    ensures EarnedOn(s, DoLook(s, id), id, probes, claims, 0, 0)
  {
  }

  lemma EarnedStart(s: State, a: Action, id: MessageId, probes: nat, claims: nat)
    requires a.Validate? || a.Insert?
    requires id in s.requests && a.id == id
    ensures EarnedOn(s, Step(s, a), id, probes, claims, 0, 0)
  {
  }

  lemma EarnedBind(s: State, a: Action, id: MessageId, probes: nat, claims: nat)
    requires a.BindRow? || a.CountBound? || a.Commit?
    requires id in s.requests && a.id == id
    ensures EarnedOn(s, Step(s, a), id, probes, claims, 0, 0)
  {
  }

  lemma EarnedRaise(s: State, id: MessageId, probes: nat, claims: nat)
    requires id in s.requests
    ensures EarnedOn(s, DoRaise(s, id), id, probes, claims, 0, 0)
  {
  }

  lemma EarnedEnd(s: State, a: Action, id: MessageId, probes: nat, claims: nat)
    requires a.Publish? || a.Rollback? || a.Release? || a.Crash?
    requires id in s.requests && a.id == id
    ensures EarnedOn(s, Step(s, a), id, probes, claims, 0, 0)
  {
  }

  lemma EarnedOwn(s: State, a: Action, id: MessageId, probes: nat, claims: nat)
    requires id in s.requests && Progress.SendAction(a) && a.id == id
    ensures EarnedOn(s, Step(s, a), id, probes, claims, if a.Probe? then 1 else 0, if a.Claim? then 1 else 0)
  {
    if a.Probe? {
      EarnedProbe(s, id, probes, claims);
    } else if a.Claim? {
      EarnedClaim(s, id, a.replyLost, probes, claims);
    } else if a.Look? {
      EarnedLook(s, id, probes, claims);
    } else if a.Validate? || a.Insert? {
      EarnedStart(s, a, id, probes, claims);
    } else if a.BindRow? || a.CountBound? || a.Commit? {
      EarnedBind(s, a, id, probes, claims);
    } else if a.Raise? {
      EarnedRaise(s, id, probes, claims);
    } else {
      EarnedEnd(s, a, id, probes, claims);
    }
  }

  lemma EarnedByOthers(s: State, a: Action, id: MessageId, probes: nat, claims: nat)
    requires id in s.requests && (Progress.SendAction(a) ==> a.id != id)
    ensures EarnedOn(s, Step(s, a), id, probes, claims, 0, 0)
  {
    if Progress.SendAction(a) {
      Progress.OtherRequestKeepsIt(s, a, id);
    } else {
      Progress.OthersKeepIt(s, a, id);
    }
  }

  predicate Is(a: Action, id: MessageId) {
    Progress.SendAction(a) && a.id == id
  }

  lemma {:induction false} EarnedRun(s: State, acts: seq<Action>, id: MessageId, probes: nat, claims: nat)
    requires id in s.requests && Progress.InBounds(s.requests[id].pc) && Earned(s.requests[id].pc, probes, claims)
    ensures id in Run(s, acts).requests
    ensures Earned(Run(s, acts).requests[id].pc, probes + Probes(acts, id), claims + Claims(acts, id))
    decreases |acts|
  {
    if acts != [] {
      var a := acts[0];
      var p := if a == Probe(id) then 1 else 0;
      var c := if a.Claim? && a.id == id then 1 else 0;
      Progress.EveryStepFalls(s, a, id);
      if Is(a, id) {
        EarnedOwn(s, a, id, probes, claims);
      } else {
        EarnedByOthers(s, a, id, probes, claims);
      }
      EarnedRun(Step(s, a), acts[1..], id, probes + p, claims + c);
    }
  }

  /** Nobody times out early: not before all attempts at one claim, or all rounds of claiming. */
  lemma TimeOutIsEarned(s: State, id: MessageId, key: ClaimKey, media: seq<MediaId>, acts: seq<Action>)
    requires id !in s.requests
    ensures var t := Run(DoArrive(s, id, key, media), acts);
            id in t.requests && (t.requests[id].pc == Finished(TimedOut) ==>
              Probes(acts, id) >= 8 || Claims(acts, id) >= 3)
  {
    EarnedRun(DoArrive(s, id, key, media), acts, id, 0, 0);
  }

  // ---------------------------------------------------------------- publication

  /** A publication that is not lost is there in every continuation, with the answer `created`. */
  lemma PublishedForGood(s: State, id: MessageId, acts: seq<Action>)
    requires Inv(s) && id in s.requests && s.requests[id].pc.Publishing?
    requires TameRun(Step(s, Publish(id, false)), acts)
    ensures var t := Run(Step(s, Publish(id, false)), acts);
            id in t.published && id in t.requests && t.requests[id].pc == Finished(Created(id))
  {
    var t := Step(s, Publish(id, false));
    assert t.published[|s.published|] == id;
    InvStep(s, Publish(id, false));
    NothingIsUndone(t, acts);
    assert Run(t, acts).published[|s.published|] == id;
  }

  /** The first claim read of a round leads straight to the committed message. */
  lemma AnsweredAtOnce(s: State, id: MessageId, x: MessageId)
    requires ClaimInv(s) && x in s.rows && SameKey(s, id, x)
    requires s.requests[id].pc.Probing? && s.requests[id].pc.attempt == 0
    ensures var t := DoLook(DoProbe(s, id), id);
            id in t.requests && t.requests[id].pc == Finished(Replayed(x))
  {
    assert RequestOk(s, x);
  }

  // ---------------------------------------------------------------- failures

  /** An error before the claim is won ends the request, having changed nothing else. */
  lemma EarlyFailureEnds(s: State, id: MessageId)
    requires id in s.requests
    requires var pc := s.requests[id].pc; pc.Probing? || pc.Looking? || pc.Validating? || pc.Claiming?
    ensures DoRaise(s, id) == SetPc(s, id, Finished(Failed))
  {
  }

  /**
    An error between the claim and the end of the commit is rolled back: no row, no lock, no
    binding, and the key is free for the next request.
  */
  lemma FailedSendFreesItsKey(s: State, id: MessageId)
    requires id in s.requests
    requires var pc := s.requests[id].pc; pc.Inserting? || pc.Binding? || pc.Committing?
    ensures var t := DoRelease(DoRollback(DoRaise(s, id), id), id, false);
            && id in t.requests && t.requests[id].pc == Finished(Failed) && s.requests[id].key !in t.claims
            && t.rows == s.rows && t.media == s.media && t.objects == s.objects && t.published == s.published
            && (forall m :: m in t.locks <==> m in s.locks && s.locks[m] != Sender(id))
            && (forall m | m in t.locks :: t.locks[m] == s.locks[m])
            && (forall k :: k in t.claims <==> k in s.claims && k != s.requests[id].key)
  {
  }
}
