/**
  Safety of every interleaving of sends and sweeps: the inductive invariant, its preservation by
  each action, and the theorems over whole runs.
*/
module MessageSendSafety {
  import opened MessageSend

  ghost predicate SameKey(s: State, a: MessageId, b: MessageId) {
    a in s.requests && b in s.requests && s.requests[a].key == s.requests[b].key
  }

  // ---------------------------------------------------------------- claims and rows

  /** What must hold for request `r` to stand at program point `pc`. */
  ghost predicate PcOk(s: State, r: MessageId, pc: Pc)
    requires r in s.requests
  {
    var key := s.requests[r].key;
    && (pc.HoldsClaim() || r in s.rows ==> key in s.claims && s.claims[key] == r)
    && (r in s.rows ==> pc.Publishing? || pc == Finished(Created(r)) || pc.Crashed?)
    && (pc.Publishing? ==> r in s.rows && r !in s.published)
    && (pc.Looking? ==> SameKey(s, r, pc.claimed))
    && (pc.Finished? && pc.outcome.Created? ==> pc.outcome.id == r && r in s.rows)
    && (pc.Finished? && pc.outcome.Replayed? ==> pc.outcome.id in s.rows && SameKey(s, r, pc.outcome.id))
  }

  ghost predicate RequestOk(s: State, r: MessageId)
    requires r in s.requests
  {
    PcOk(s, r, s.requests[r].pc)
  }

  ghost predicate ClaimInv(s: State) {
    && (forall k | k in s.claims :: s.claims[k] in s.requests && s.requests[s.claims[k]].key == k)
    && s.rows <= s.requests.Keys
    && (forall r | r in s.requests :: RequestOk(s, r))
    && (forall i | 0 <= i < |s.published| :: s.published[i] in s.rows)
    && (forall i, j | 0 <= i < j < |s.published| :: s.published[i] != s.published[j])
  }

  lemma ClaimInvFrame(s: State, t: State)
    requires ClaimInv(s)
    requires SendsUntouched(s, t)
    ensures ClaimInv(t)
  {
  }

  /** Moving one request keeps the invariant when its new program point is allowed in `s`. */
  lemma ClaimInvMove(s: State, id: MessageId, pc: Pc)
    requires ClaimInv(s) && id in s.requests && PcOk(s, id, pc)
    ensures ClaimInv(SetPc(s, id, pc))
  {
  }

  lemma ClaimInvClaim(s: State, id: MessageId, lost: bool)
    requires ClaimInv(s)
    ensures ClaimInv(DoClaim(s, id, lost))
  {
    if id in s.requests && s.requests[id].pc.Claiming? {
      var t := DoClaim(s, id, lost);
      var key := s.requests[id].key;
      assert RequestOk(s, id);
      if key in s.claims {
        ClaimInvMove(s, id, Probing(s.requests[id].pc.round, 0));
      } else {
        forall r | r in t.requests ensures RequestOk(t, r) {
          assert RequestOk(s, r);
          assert r != id ==> t.requests[r] == s.requests[r];
        }
      }
    }
  }

  lemma ClaimInvCommit(s: State, id: MessageId)
    requires ClaimInv(s)
    ensures ClaimInv(DoCommit(s, id))
  {
    var t := DoCommit(s, id);
    if id in s.requests && s.requests[id].pc.Committing? {
      forall r | r in t.requests ensures RequestOk(t, r) {
        assert RequestOk(s, r) && RequestOk(s, id);
      }
    }
  }

  lemma ClaimInvPublish(s: State, id: MessageId, lost: bool)
    requires ClaimInv(s)
    ensures ClaimInv(DoPublish(s, id, lost))
  {
  }

  lemma ClaimInvRelease(s: State, id: MessageId, lost: bool)
    requires ClaimInv(s)
    ensures ClaimInv(DoRelease(s, id, lost))
  {
  }

  lemma ClaimInvArrive(s: State, id: MessageId, key: ClaimKey, media: seq<MediaId>)
    requires ClaimInv(s)
    ensures ClaimInv(DoArrive(s, id, key, media))
  {
  }

  lemma ClaimInvProbe(s: State, id: MessageId)
    requires ClaimInv(s)
    ensures ClaimInv(DoProbe(s, id))
  {
    if id in s.requests && s.requests[id].pc.Probing? {
      assert RequestOk(s, id);
      ClaimInvMove(s, id, DoProbe(s, id).requests[id].pc);
    }
  }

  lemma ClaimInvLook(s: State, id: MessageId)
    requires ClaimInv(s)
    ensures ClaimInv(DoLook(s, id))
  {
    if id in s.requests && s.requests[id].pc.Looking? {
      assert RequestOk(s, id);
      var Looking(round, attempt, claimed) := s.requests[id].pc;
      if claimed in s.rows {
        ClaimInvMove(s, id, Finished(Replayed(claimed)));
      } else if attempt == 0 {
        ClaimInvMove(s, id, Probing(round, 1));
      } else {
        ClaimInvMove(s, id, Finished(TimedOut));
      }
    }
  }

  /** The moves that touch, besides the program point, at most the attachment locks. */
  lemma ClaimInvQuietMove(s: State, t: State, id: MessageId)
    requires ClaimInv(s) && id in s.requests && id in t.requests
    requires t.requests == SetPc(s, id, t.requests[id].pc).requests
    requires t.claims == s.claims && t.rows == s.rows && t.published == s.published
    requires PcOk(s, id, t.requests[id].pc)
    ensures ClaimInv(t)
  {
  }

  lemma ClaimInvValidate(s: State, id: MessageId)
    requires ClaimInv(s)
    ensures ClaimInv(DoValidate(s, id))
  {
  }

  lemma ClaimInvInsert(s: State, id: MessageId)
    requires ClaimInv(s)
    ensures ClaimInv(DoInsert(s, id))
  {
  }

  lemma ClaimInvBindRow(s: State, id: MessageId, m: MediaId)
    requires ClaimInv(s)
    ensures ClaimInv(DoBindRow(s, id, m))
  {
    if id in s.requests && s.requests[id].pc.Binding? {
      assert RequestOk(s, id);
      ClaimInvQuietMove(s, DoBindRow(s, id, m), id);
    }
  }

  lemma ClaimInvCountBound(s: State, id: MessageId)
    requires ClaimInv(s)
    ensures ClaimInv(DoCountBound(s, id))
  {
  }

  lemma ClaimInvRaise(s: State, id: MessageId)
    requires ClaimInv(s)
    ensures ClaimInv(DoRaise(s, id))
  {
    if id in s.requests && DoRaise(s, id) != s {
      assert RequestOk(s, id);
      ClaimInvQuietMove(s, DoRaise(s, id), id);
    }
  }

  lemma ClaimInvRollback(s: State, id: MessageId)
    requires ClaimInv(s)
    ensures ClaimInv(DoRollback(s, id))
  {
  }

  lemma ClaimInvCrash(s: State, id: MessageId)
    requires ClaimInv(s)
    ensures ClaimInv(DoCrash(s, id))
  {
  }

  lemma ClaimInvClaimStep(s: State, a: Action)
    requires ClaimInv(s)
    requires a.Arrive? || a.Probe? || a.Look? || a.Validate? || a.Claim? || a.Release? || a.Crash?
    ensures ClaimInv(Step(s, a))
  {
    match a
    case Arrive(id, key, media) => ClaimInvArrive(s, id, key, media);
    case Probe(id) => ClaimInvProbe(s, id);
    case Look(id) => ClaimInvLook(s, id);
    case Validate(id) => ClaimInvValidate(s, id);
    case Claim(id, lost) => ClaimInvClaim(s, id, lost);
    case Release(id, lost) => ClaimInvRelease(s, id, lost);
    case Crash(id) => ClaimInvCrash(s, id);
  }

  lemma ClaimInvTransactionStep(s: State, a: Action)
    requires ClaimInv(s)
    requires a.Insert? || a.BindRow? || a.CountBound? || a.Commit? || a.Publish? || a.Raise? || a.Rollback?
    ensures ClaimInv(Step(s, a))
  {
    match a
    case Insert(id) => ClaimInvInsert(s, id);
    case BindRow(id, m) => ClaimInvBindRow(s, id, m);
    case CountBound(id) => ClaimInvCountBound(s, id);
    case Commit(id) => ClaimInvCommit(s, id);
    case Publish(id, lost) => ClaimInvPublish(s, id, lost);
    case Raise(id) => ClaimInvRaise(s, id);
    case Rollback(id) => ClaimInvRollback(s, id);
  }

  lemma ClaimInvStep(s: State, a: Action)
    requires ClaimInv(s) && !a.LoseClaim?
    ensures ClaimInv(Step(s, a))
  {
    if a.Arrive? || a.Probe? || a.Look? || a.Validate? || a.Claim? || a.Release? || a.Crash? {
      ClaimInvClaimStep(s, a);
    } else if a.Insert? || a.BindRow? || a.CountBound? || a.Commit? || a.Publish? || a.Raise? || a.Rollback? {
      ClaimInvTransactionStep(s, a);
    } else {
      SweepStepFrame(s, a);
      ClaimInvFrame(s, Step(s, a));
    }
  }
}
