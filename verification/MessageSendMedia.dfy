/**
  Safety of attachment binding against the orphan sweep: the inductive invariant over attachment
  rows, their locks and their object bytes.
*/
module MessageSendMedia {
  import opened MessageSend

  ghost predicate Distinct(ids: seq<MediaId>) {
    forall i, j | 0 <= i < j < |ids| :: ids[i] != ids[j]
  }

  ghost predicate HasBytes(s: State, m: MediaId) {
    m in s.objects
    || (m in s.locks && s.locks[m].Sweeper? && s.locks[m].sweep in s.sweeps && m in s.sweeps[s.locks[m].sweep].purged)
  }

  ghost predicate BoundOk(s: State, m: MediaId, x: MessageId) {
    && x in s.rows && x in s.requests && m in s.requests[x].media
    && m in s.media && s.media[m].uploader == s.requests[x].key.sender
    && m in s.objects && m !in s.locks
  }

  ghost predicate AttachmentOk(s: State, m: MediaId)
    requires m in s.media
  {
    && HasBytes(s, m)
    && (s.media[m].message.Some? ==> BoundOk(s, m, s.media[m].message.value))
  }

  ghost predicate LockOk(s: State, m: MediaId)
    requires m in s.locks
  {
    && m in s.media && s.media[m].message.None?
    && match s.locks[m] {
         case Sender(r) => r in s.requests && m in s.requests[r].pc.Held()
         case Sweeper(w) => w in s.sweeps && !s.sweeps[w].pc.Ended?
       }
  }

  ghost predicate HeldOk(s: State, r: MessageId, m: MediaId)
    requires r in s.requests
  {
    && m in s.locks && s.locks[m] == Sender(r) && m in s.requests[r].media
    && m in s.media && s.media[m].uploader == s.requests[r].key.sender
  }

  /** A committed message binds every attachment it named, and named none twice. */
  ghost predicate FullyBound(s: State, r: MessageId)
    requires r in s.requests
  {
    && Distinct(s.requests[r].media)
    && (forall m | m in s.requests[r].media :: m in s.media && s.media[m].message == Some(r))
  }

  ghost predicate SendOk(s: State, r: MessageId)
    requires r in s.requests
  {
    && (forall m | m in s.requests[r].pc.Held() :: HeldOk(s, r, m))
    && (s.requests[r].pc.Binding? ==> forall m | m in s.requests[r].pc.todo :: m in s.requests[r].media)
    && (s.requests[r].pc.Committing? ==> |s.requests[r].pc.held| == |s.requests[r].media|)
    && (r in s.rows ==> FullyBound(s, r))
  }

  ghost predicate SweepOk(s: State, w: SweepId)
    requires w in s.sweeps
  {
    var v := s.sweeps[w];
    v.pc.Ended? || (
      && (forall m | m in v.purged :: m in s.locks && s.locks[m] == Sweeper(w) && m !in s.objects)
      && (v.pc.Locked? ==> v.pc.row in s.locks && s.locks[v.pc.row] == Sweeper(w))
      && v.purged == (if v.pc.Purged? then v.gone + {v.pc.row} else v.gone))
  }

  ghost predicate MediaInv(s: State) {
    && (forall m | m in s.media :: AttachmentOk(s, m))
    && (forall m | m in s.locks :: LockOk(s, m))
    && (forall r | r in s.requests :: SendOk(s, r))
    && (forall w | w in s.sweeps :: SweepOk(s, w))
    && s.media.Keys <= s.uploads && s.objects <= s.uploads
  }

  lemma {:induction false} IdSetSize(ids: seq<MediaId>)
    ensures |IdSet(ids)| <= |ids|
    ensures |IdSet(ids)| == |ids| ==> Distinct(ids)
  {
    if ids != [] {
      var front, last := ids[..|ids| - 1], ids[|ids| - 1];
      IdSetSize(front);
      assert ids == front + [last];
      assert IdSet(ids) == IdSet(front) + {last};
    }
  }

  lemma FullHold(held: set<MediaId>, ids: seq<MediaId>)
    requires held <= IdSet(ids) && |held| == |ids|
    ensures held == IdSet(ids) && Distinct(ids)
  {
    IdSetSize(ids);
    assert |IdSet(ids) - held| == |IdSet(ids)| - |held|;
    assert IdSet(ids) == held + (IdSet(ids) - held);
  }

  // ---------------------------------------------------------------- requests

  lemma MediaInvMove(s: State, id: MessageId, pc: Pc)
    requires MediaInv(s) && id in s.requests
    requires pc.Held() == s.requests[id].pc.Held()
    requires pc.Binding? ==> forall m | m in pc.todo :: m in s.requests[id].media
    requires pc.Committing? ==> |pc.held| == |s.requests[id].media|
    ensures MediaInv(SetPc(s, id, pc))
  {
  }

  /** Changes to claims and publications do not concern attachments. */
  lemma MediaInvFrame(s: State, t: State)
    requires MediaInv(s)
    requires t.requests == s.requests && t.rows == s.rows && t.media == s.media && t.locks == s.locks
    requires t.objects == s.objects && t.uploads == s.uploads && t.sweeps == s.sweeps
    ensures MediaInv(t)
  {
  }

  /** Locking one more unbound row for the request that is about to update it. */
  lemma MediaInvHold(s: State, id: MessageId, m: MediaId)
    requires MediaInv(s) && id in s.requests && s.requests[id].pc.Binding? && m in s.requests[id].pc.todo
    requires Bindable(s, s.requests[id].key.sender, m) && m !in s.locks
    ensures MediaInv(DoBindRow(s, id, m))
  {
    var t := DoBindRow(s, id, m);
    assert SendOk(s, id);
    forall x | x in t.media ensures AttachmentOk(t, x) {
      assert AttachmentOk(s, x);
    }
    forall x | x in t.locks ensures LockOk(t, x) {
      assert x != m ==> LockOk(s, x);
    }
    forall r | r in t.requests ensures SendOk(t, r) {
      assert SendOk(s, r);
      forall x | x in t.requests[r].pc.Held() ensures HeldOk(t, r, x) {
        assert x in s.requests[r].pc.Held() ==> HeldOk(s, r, x);
      }
    }
    forall w | w in t.sweeps ensures SweepOk(t, w) {
      assert SweepOk(s, w);
    }
  }

  /** Rolling back, crashing or committing nothing: every row lock of the request goes. */
  lemma MediaInvLetGo(s: State, id: MessageId, pc: Pc)
    requires MediaInv(s) && id in s.requests && pc.Held() == {} && !pc.Binding? && !pc.Committing?
    ensures MediaInv(SetPc(s, id, pc).(locks := Unlock(s.locks, Sender(id))))
  {
    var t := SetPc(s, id, pc).(locks := Unlock(s.locks, Sender(id)));
    forall m | m in t.media ensures AttachmentOk(t, m) {
      assert AttachmentOk(s, m);
    }
    forall m | m in t.locks ensures LockOk(t, m) {
      assert LockOk(s, m);
    }
    forall r | r in t.requests ensures SendOk(t, r) {
      assert SendOk(s, r);
      forall m | m in t.requests[r].pc.Held() ensures HeldOk(t, r, m) {
        assert HeldOk(s, r, m);
      }
    }
    forall w | w in t.sweeps ensures SweepOk(t, w) {
      assert SweepOk(s, w);
    }
  }

  lemma MediaInvCommit(s: State, id: MessageId)
    requires MediaInv(s)
    ensures MediaInv(DoCommit(s, id))
  {
    var t := DoCommit(s, id);
    if id in s.requests && s.requests[id].pc.Committing? {
      var held := s.requests[id].pc.held;
      assert SendOk(s, id);
      forall m | m in held ensures HeldOk(s, id, m) {}
      FullHold(held, s.requests[id].media);
      forall m | m in t.media ensures AttachmentOk(t, m) {
        assert AttachmentOk(s, m);
        if m in held {
          assert HeldOk(s, id, m);
        }
      }
      forall m | m in t.locks ensures LockOk(t, m) {
        assert LockOk(s, m);
      }
      forall r | r in t.requests ensures SendOk(t, r) {
        MediaInvCommitSend(s, id, r);
      }
      forall w | w in t.sweeps ensures SweepOk(t, w) {
        assert SweepOk(s, w);
      }
    }
  }

  lemma MediaInvCommitSend(s: State, id: MessageId, r: MessageId)
    requires MediaInv(s) && id in s.requests && s.requests[id].pc.Committing? && r in s.requests
    requires s.requests[id].pc.held == IdSet(s.requests[id].media) && Distinct(s.requests[id].media)
    ensures SendOk(DoCommit(s, id), r)
  {
    var t := DoCommit(s, id);
    var held := s.requests[id].pc.held;
    assert SendOk(s, r) && SendOk(s, id);
    forall m | m in held ensures HeldOk(s, id, m) {}
    forall m | m in t.requests[r].pc.Held() ensures HeldOk(t, r, m) {
      assert HeldOk(s, r, m);
    }
    if r == id {
      forall m | m in s.requests[r].media ensures m in t.media && t.media[m].message == Some(r) {
        assert HeldOk(s, id, m);
      }
    } else if r in s.rows {
      forall m | m in s.requests[r].media ensures m in t.media && t.media[m].message == Some(r) {
        assert s.media[m].message == Some(r) && AttachmentOk(s, m);
      }
    }
  }

  lemma MediaInvArrive(s: State, id: MessageId, key: ClaimKey, media: seq<MediaId>)
    requires MediaInv(s) && s.rows <= s.requests.Keys
    ensures MediaInv(DoArrive(s, id, key, media))
  {
  }

  // ---------------------------------------------------------------- uploads and sweeps

  /** Uploads and sweeps leave every send's own bookkeeping in place. */
  lemma SendsKept(s: State, t: State)
    requires MediaInv(s) && t.requests == s.requests && t.rows == s.rows
    requires forall m | m in s.locks && s.locks[m].Sender? :: m in t.locks && t.locks[m] == s.locks[m]
    requires forall m | m in s.media && (s.media[m].message.Some? || (m in s.locks && s.locks[m].Sender?)) ::
               m in t.media && t.media[m] == s.media[m]
    ensures forall r | r in t.requests :: SendOk(t, r)
  {
  }

  lemma MediaInvUpload(s: State, m: MediaId, u: UserId)
    requires MediaInv(s)
    ensures MediaInv(DoUpload(s, m, u))
  {
    if m !in s.uploads {
      var t := DoUpload(s, m, u);
      SendsKept(s, t);
      assert forall x | x in s.locks :: LockOk(s, x) && x != m;
      forall x | x in t.media ensures AttachmentOk(t, x) {
        assert x != m ==> AttachmentOk(s, x);
      }
      forall x | x in t.locks ensures LockOk(t, x) {
        assert LockOk(s, x);
      }
      forall w | w in t.sweeps ensures SweepOk(t, w) {
        assert SweepOk(s, w);
      }
    }
  }

  lemma MediaInvStartSweep(s: State, w: SweepId, todo: seq<MediaId>)
    requires MediaInv(s)
    ensures MediaInv(DoStartSweep(s, w, todo))
  {
    if w !in s.sweeps {
      var t := DoStartSweep(s, w, todo);
      SendsKept(s, t);
      forall x | x in t.media ensures AttachmentOk(t, x) {
        assert AttachmentOk(s, x);
      }
      forall x | x in t.locks ensures LockOk(t, x) {
        assert LockOk(s, x);
      }
      forall v | v in t.sweeps ensures SweepOk(t, v) {
        assert v != w ==> SweepOk(s, v);
      }
    }
  }

  /** A sweep that moves to a program point at which it deletes and keeps the same rows. */
  lemma MediaInvSweepMove(s: State, w: SweepId, v: Sweep)
    requires MediaInv(s) && w in s.sweeps && !s.sweeps[w].pc.Ended? && !v.pc.Ended?
    requires v.purged == s.sweeps[w].purged
    requires v.purged == (if v.pc.Purged? then v.gone + {v.pc.row} else v.gone)
    requires v.pc.Locked? ==> v.pc.row in s.locks && s.locks[v.pc.row] == Sweeper(w)
    ensures MediaInv(s.(sweeps := s.sweeps[w := v]))
  {
    var t := s.(sweeps := s.sweeps[w := v]);
    SendsKept(s, t);
    forall x | x in t.media ensures AttachmentOk(t, x) {
      assert AttachmentOk(s, x);
    }
    forall x | x in t.locks ensures LockOk(t, x) {
      assert LockOk(s, x);
    }
    forall u | u in t.sweeps ensures SweepOk(t, u) {
      assert SweepOk(s, u);
    }
  }

  lemma MediaInvTakeLock(s: State, w: SweepId, m: MediaId)
    requires MediaInv(s) && w in s.sweeps && !s.sweeps[w].pc.Ended?
    requires m in s.media && s.media[m].message.None? && (m in s.locks ==> s.locks[m] == Sweeper(w))
    ensures MediaInv(s.(locks := s.locks[m := Sweeper(w)]))
  {
    var t := s.(locks := s.locks[m := Sweeper(w)]);
    SendsKept(s, t);
    forall x | x in t.media ensures AttachmentOk(t, x) {
      assert AttachmentOk(s, x);
    }
    forall x | x in t.locks ensures LockOk(t, x) {
      assert x in s.locks ==> LockOk(s, x);
    }
    forall u | u in t.sweeps ensures SweepOk(t, u) {
      assert SweepOk(s, u);
    }
  }

  lemma MediaInvLockRow(s: State, w: SweepId)
    requires MediaInv(s)
    ensures MediaInv(DoLockRow(s, w))
  {
    if w in s.sweeps && s.sweeps[w].pc.Scanning? && s.sweeps[w].todo != [] {
      assert SweepOk(s, w);
      var m := s.sweeps[w].todo[0];
      var rest := s.sweeps[w].(todo := s.sweeps[w].todo[1..]);
      if m !in s.media || s.media[m].message.Some? || m in s.sweeps[w].gone {
        MediaInvSweepMove(s, w, rest);
      } else if !(m in s.locks && s.locks[m] != Sweeper(w)) {
        MediaInvTakeLock(s, w, m);
        MediaInvSweepMove(s.(locks := s.locks[m := Sweeper(w)]), w, rest.(pc := Locked(m)));
      }
    }
  }

  lemma MediaInvPurge(s: State, w: SweepId, ok: bool)
    requires MediaInv(s)
    ensures MediaInv(DoPurge(s, w, ok))
  {
    var t := DoPurge(s, w, ok);
    if w in s.sweeps && s.sweeps[w].pc.Locked? {
      assert SweepOk(s, w);
      SendsKept(s, t);
      forall x | x in t.media ensures AttachmentOk(t, x) {
        assert AttachmentOk(s, x);
      }
      forall x | x in t.locks ensures LockOk(t, x) {
        assert LockOk(s, x);
      }
      forall v | v in t.sweeps ensures SweepOk(t, v) {
        assert SweepOk(s, v);
      }
    }
  }

  lemma MediaInvDeleteRow(s: State, w: SweepId)
    requires MediaInv(s)
    ensures MediaInv(DoDeleteRow(s, w))
  {
    if w in s.sweeps && s.sweeps[w].pc.Purged? {
      var v := s.sweeps[w];
      assert SweepOk(s, w);
      MediaInvSweepMove(s, w, v.(pc := Scanning, gone := v.gone + {v.pc.row}));
    }
  }

  /** The batch ends: deleted rows go, locks go. Only rows whose bytes are still there remain. */
  lemma MediaInvEndSweep(s: State, w: SweepId, dead: set<MediaId>)
    requires MediaInv(s) && w in s.sweeps && !s.sweeps[w].pc.Ended?
    requires s.sweeps[w].purged <= dead && forall m | m in dead :: m in s.locks && s.locks[m] == Sweeper(w)
    ensures MediaInv(s.(media := s.media - dead, locks := Unlock(s.locks, Sweeper(w)),
                        sweeps := s.sweeps[w := s.sweeps[w].(pc := Ended)]))
  {
    var t := s.(media := s.media - dead, locks := Unlock(s.locks, Sweeper(w)),
                sweeps := s.sweeps[w := s.sweeps[w].(pc := Ended)]);
    forall m | m in s.media && s.media[m].message.Some? ensures m !in dead {
      assert AttachmentOk(s, m);
    }
    SendsKept(s, t);
    forall x | x in t.media ensures AttachmentOk(t, x) {
      assert AttachmentOk(s, x);
    }
    forall x | x in t.locks ensures LockOk(t, x) {
      assert LockOk(s, x);
    }
    forall v | v in t.sweeps ensures SweepOk(t, v) {
      assert SweepOk(s, v);
    }
  }

  lemma MediaInvCommitSweep(s: State, w: SweepId)
    requires MediaInv(s)
    ensures MediaInv(DoCommitSweep(s, w))
  {
    if w in s.sweeps && s.sweeps[w].pc.Scanning? && s.sweeps[w].todo == [] {
      assert SweepOk(s, w);
      MediaInvEndSweep(s, w, s.sweeps[w].gone);
    }
  }

  /** The rows a sweep removes at its commit were unbound and held by no send, and their bytes are gone. */
  lemma SweepRemovesOrphans(s: State, w: SweepId)
    requires MediaInv(s) && w in s.sweeps && s.sweeps[w].pc.Scanning? && s.sweeps[w].todo == []
    ensures DoCommitSweep(s, w).media == s.media - s.sweeps[w].gone
    ensures forall m | m in s.sweeps[w].gone ::
              && m in s.media && s.media[m].message.None? && m !in s.objects
              && (forall r | r in s.requests :: m !in s.requests[r].pc.Held())
  {
    assert SweepOk(s, w);
    forall m | m in s.sweeps[w].gone
      ensures m in s.media && s.media[m].message.None? && m !in s.objects
      ensures forall r | r in s.requests :: m !in s.requests[r].pc.Held()
    {
      assert LockOk(s, m) && s.locks[m] == Sweeper(w);
      forall r | r in s.requests ensures m !in s.requests[r].pc.Held() {
        assert SendOk(s, r);
        assert m in s.requests[r].pc.Held() ==> HeldOk(s, r, m);
      }
    }
  }

  lemma MediaInvKillSweep(s: State, w: SweepId)
    requires MediaInv(s) && (w in s.sweeps ==> s.sweeps[w].purged == {})
    ensures MediaInv(DoKillSweep(s, w))
  {
    if w in s.sweeps && !s.sweeps[w].pc.Ended? {
      MediaInvEndSweep(s, w, {});
      assert s.media - {} == s.media;
    }
  }

  // ---------------------------------------------------------------- every action

  /** A request's move that may also change claims and publications. */
  lemma MediaInvQuiet(s: State, t: State, id: MessageId)
    requires MediaInv(s) && id in s.requests && id in t.requests
    requires t.requests == SetPc(s, id, t.requests[id].pc).requests
    requires t.rows == s.rows && t.media == s.media && t.locks == s.locks
    requires t.objects == s.objects && t.uploads == s.uploads && t.sweeps == s.sweeps
    requires t.requests[id].pc.Held() == s.requests[id].pc.Held()
    requires t.requests[id].pc.Binding? ==> forall m | m in t.requests[id].pc.todo :: m in s.requests[id].media
    requires t.requests[id].pc.Committing? ==> |t.requests[id].pc.held| == |s.requests[id].media|
    ensures MediaInv(t)
  {
    MediaInvMove(s, id, t.requests[id].pc);
    MediaInvFrame(SetPc(s, id, t.requests[id].pc), t);
  }

  lemma MediaInvProbe(s: State, id: MessageId)
    requires MediaInv(s)
    ensures MediaInv(DoProbe(s, id))
  {
    if id in s.requests && s.requests[id].pc.Probing? {
      MediaInvQuiet(s, DoProbe(s, id), id);
    }
  }

  lemma MediaInvLook(s: State, id: MessageId)
    requires MediaInv(s)
    ensures MediaInv(DoLook(s, id))
  {
    if id in s.requests && s.requests[id].pc.Looking? {
      MediaInvQuiet(s, DoLook(s, id), id);
    }
  }

  lemma MediaInvValidate(s: State, id: MessageId)
    requires MediaInv(s)
    ensures MediaInv(DoValidate(s, id))
  {
  }

  lemma MediaInvClaim(s: State, id: MessageId, lost: bool)
    requires MediaInv(s)
    ensures MediaInv(DoClaim(s, id, lost))
  {
    if id in s.requests && s.requests[id].pc.Claiming? {
      MediaInvQuiet(s, DoClaim(s, id, lost), id);
    }
  }

  lemma MediaInvInsert(s: State, id: MessageId)
    requires MediaInv(s)
    ensures MediaInv(DoInsert(s, id))
  {
    if id in s.requests && s.requests[id].pc.Inserting? {
      MediaInvQuiet(s, DoInsert(s, id), id);
    }
  }

  lemma MediaInvCountBound(s: State, id: MessageId)
    requires MediaInv(s)
    ensures MediaInv(DoCountBound(s, id))
  {
    if id in s.requests && s.requests[id].pc.Binding? {
      assert SendOk(s, id);
      MediaInvQuiet(s, DoCountBound(s, id), id);
    }
  }

  lemma MediaInvPublish(s: State, id: MessageId, lost: bool)
    requires MediaInv(s)
    ensures MediaInv(DoPublish(s, id, lost))
  {
    if id in s.requests && s.requests[id].pc.Publishing? {
      MediaInvQuiet(s, DoPublish(s, id, lost), id);
    }
  }

  lemma MediaInvRaise(s: State, id: MessageId)
    requires MediaInv(s)
    ensures MediaInv(DoRaise(s, id))
  {
    if id in s.requests && DoRaise(s, id) != s {
      MediaInvQuiet(s, DoRaise(s, id), id);
    }
  }

  lemma MediaInvRelease(s: State, id: MessageId, lost: bool)
    requires MediaInv(s)
    ensures MediaInv(DoRelease(s, id, lost))
  {
    if id in s.requests && s.requests[id].pc.Releasing? {
      MediaInvQuiet(s, DoRelease(s, id, lost), id);
    }
  }

  lemma MediaInvBindRow(s: State, id: MessageId, m: MediaId)
    requires MediaInv(s)
    ensures MediaInv(DoBindRow(s, id, m))
  {
    if id in s.requests && s.requests[id].pc.Binding? && m in s.requests[id].pc.todo {
      assert SendOk(s, id);
      if !Bindable(s, s.requests[id].key.sender, m) {
        MediaInvMove(s, id, Binding(s.requests[id].pc.todo - {m}, s.requests[id].pc.held));
      } else if m !in s.locks {
        MediaInvHold(s, id, m);
      }
    }
  }

  lemma MediaInvScanStep(s: State, a: Action)
    requires MediaInv(s) && (a.StartSweep? || a.LockRow? || a.Purge? || a.DeleteRow?)
    ensures MediaInv(Step(s, a))
  {
    match a
    case StartSweep(w, todo) => MediaInvStartSweep(s, w, todo);
    case LockRow(w) => MediaInvLockRow(s, w);
    case Purge(w, ok) => MediaInvPurge(s, w, ok);
    case DeleteRow(w) => MediaInvDeleteRow(s, w);
  }

  lemma MediaInvSweepStep(s: State, a: Action)
    requires MediaInv(s) && Tame(s, a) && IsSweepStep(a)
    ensures MediaInv(Step(s, a))
  {
    if a.Upload? {
      MediaInvUpload(s, a.row, a.uploader);
    } else if a.CommitSweep? {
      MediaInvCommitSweep(s, a.sweep);
    } else if a.KillSweep? {
      MediaInvKillSweep(s, a.sweep);
    } else {
      MediaInvScanStep(s, a);
    }
  }

  lemma MediaInvClaimStep(s: State, a: Action)
    requires MediaInv(s) && s.rows <= s.requests.Keys
    requires a.Arrive? || a.Probe? || a.Look? || a.Validate? || a.Claim? || a.Insert? || a.Publish?
    ensures MediaInv(Step(s, a))
  {
    match a
    case Arrive(id, key, media) => MediaInvArrive(s, id, key, media);
    case Probe(id) => MediaInvProbe(s, id);
    case Look(id) => MediaInvLook(s, id);
    case Validate(id) => MediaInvValidate(s, id);
    case Claim(id, lost) => MediaInvClaim(s, id, lost);
    case Insert(id) => MediaInvInsert(s, id);
    case Publish(id, lost) => MediaInvPublish(s, id, lost);
  }

  lemma MediaInvRollback(s: State, id: MessageId)
    requires MediaInv(s)
    ensures MediaInv(DoRollback(s, id))
  {
    if id in s.requests && s.requests[id].pc.RollingBack? {
      MediaInvLetGo(s, id, Releasing);
    }
  }

  lemma MediaInvCrash(s: State, id: MessageId)
    requires MediaInv(s)
    ensures MediaInv(DoCrash(s, id))
  {
    if id in s.requests && !s.requests[id].pc.Finished? {
      MediaInvLetGo(s, id, Crashed);
    }
  }

  lemma MediaInvTransactionStep(s: State, a: Action)
    requires MediaInv(s)
    requires a.BindRow? || a.CountBound? || a.Commit? || a.Rollback? || a.Crash? || a.Raise? || a.Release?
    ensures MediaInv(Step(s, a))
  {
    match a
    case BindRow(id, m) => MediaInvBindRow(s, id, m);
    case CountBound(id) => MediaInvCountBound(s, id);
    case Commit(id) => MediaInvCommit(s, id);
    case Rollback(id) => MediaInvRollback(s, id);
    case Crash(id) => MediaInvCrash(s, id);
    case Raise(id) => MediaInvRaise(s, id);
    case Release(id, lost) => MediaInvRelease(s, id, lost);
  }

  lemma MediaInvStep(s: State, a: Action)
    requires MediaInv(s) && s.rows <= s.requests.Keys && Tame(s, a)
    ensures MediaInv(Step(s, a))
  {
    if a.Arrive? || a.Probe? || a.Look? || a.Validate? || a.Claim? || a.Insert? || a.Publish? {
      MediaInvClaimStep(s, a);
    } else if a.BindRow? || a.CountBound? || a.Commit? || a.Rollback? || a.Crash? || a.Raise? || a.Release? {
      MediaInvTransactionStep(s, a);
    } else {
      MediaInvSweepStep(s, a);
    }
  }
}
