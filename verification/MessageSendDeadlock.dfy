/**
  A send and a sweep can wait for each other: neither the conditional update nor the sweep's
  locking read fixes an order among the attachment rows. Postgres then has to abort one of them,
  and aborting a sweep that has deleted bytes is what must not happen.
*/
module MessageSendDeadlock {
  import opened MessageSend
  import opened MessageSendMedia
  import opened MessageSendTheorems
  import opened MessageSendExactness

  /** Send `id` waits for row `m`, held by sweep `w`, which waits for row `n`, held by the send. */
  ghost predicate Deadlocked(s: State, id: MessageId, m: MediaId, w: SweepId, n: MediaId) {
    && id in s.requests && s.requests[id].pc.Binding? && m in s.requests[id].pc.todo
    && Bindable(s, s.requests[id].key.sender, m) && m in s.locks && s.locks[m] == Sweeper(w)
    && w in s.sweeps && s.sweeps[w].pc.Scanning? && s.sweeps[w].purged != {}
    && s.sweeps[w].todo != [] && s.sweeps[w].todo[0] == n && n !in s.sweeps[w].gone
    && n in s.media && s.media[n].message.None? && n in s.locks && s.locks[n] == Sender(id)
  }

  predicate Aborts(a: Action, id: MessageId) {
    a == Raise(id) || a == Crash(id)
  }

  /** Nothing the deadlock consists of has changed, except that the send may have got past other rows. */
  ghost predicate Unmoved(s: State, t: State, id: MessageId, m: MediaId, w: SweepId, n: MediaId) {
    && id in s.requests && id in t.requests && t.requests[id].key == s.requests[id].key
    && (s.requests[id].pc.Binding? && m in s.requests[id].pc.todo ==> t.requests[id].pc.Binding? && m in t.requests[id].pc.todo)
    && w in s.sweeps && w in t.sweeps && t.sweeps[w] == s.sweeps[w]
    && (forall x | x in {m, n} && x in s.locks && x in s.media ::
          x in t.locks && t.locks[x] == s.locks[x] && x in t.media && t.media[x] == s.media[x])
  }

  lemma UnmovedStaysBlocked(s: State, t: State, id: MessageId, m: MediaId, w: SweepId, n: MediaId)
    requires Deadlocked(s, id, m, w, n) && Unmoved(s, t, id, m, w, n)
    ensures Deadlocked(t, id, m, w, n)
  {
    assert m in {m, n} && n in {m, n};
  }

  lemma BindRowBlocked(s: State, a: Action, id: MessageId, m: MediaId, w: SweepId, n: MediaId)
    requires Deadlocked(s, id, m, w, n) && a.BindRow?
    ensures Unmoved(s, Step(s, a), id, m, w, n)
  {
  }

  lemma SendBlocked(s: State, a: Action, id: MessageId, m: MediaId, w: SweepId, n: MediaId)
    requires Deadlocked(s, id, m, w, n)
    requires a.Arrive? || a.Probe? || a.Look? || a.Validate? || a.Claim? || a.Insert?
    ensures Unmoved(s, Step(s, a), id, m, w, n)
  {
  }

  lemma EndBlocked(s: State, a: Action, id: MessageId, m: MediaId, w: SweepId, n: MediaId)
    requires Deadlocked(s, id, m, w, n) && (a.CountBound? || a.Publish? || a.Release?)
    ensures Unmoved(s, Step(s, a), id, m, w, n)
  {
  }

  lemma AbortBlocked(s: State, a: Action, id: MessageId, m: MediaId, w: SweepId, n: MediaId)
    requires Deadlocked(s, id, m, w, n) && !Aborts(a, id) && (a.Raise? || a.Rollback? || a.Crash?)
    ensures Unmoved(s, Step(s, a), id, m, w, n)
  {
  }

  lemma CommitBlocked(s: State, a: Action, id: MessageId, m: MediaId, w: SweepId, n: MediaId)
    requires MediaInv(s) && Deadlocked(s, id, m, w, n) && a.Commit?
    ensures Unmoved(s, Step(s, a), id, m, w, n)
  {
    var x := a.id;
    if x in s.requests && s.requests[x].pc.Committing? {
      assert SendOk(s, x);
      assert m in s.requests[x].pc.Held() ==> HeldOk(s, x, m);
      assert n in s.requests[x].pc.Held() ==> HeldOk(s, x, n);
    }
  }

  lemma UploadBlocked(s: State, a: Action, id: MessageId, m: MediaId, w: SweepId, n: MediaId)
    requires MediaInv(s) && Deadlocked(s, id, m, w, n) && a.Upload?
    ensures Unmoved(s, Step(s, a), id, m, w, n)
  {
  }

  lemma LockRowBlocked(s: State, a: Action, id: MessageId, m: MediaId, w: SweepId, n: MediaId)
    requires Deadlocked(s, id, m, w, n) && a.LockRow?
    ensures Unmoved(s, Step(s, a), id, m, w, n)
  {
  }

  lemma ScanBlocked(s: State, a: Action, id: MessageId, m: MediaId, w: SweepId, n: MediaId)
    requires Deadlocked(s, id, m, w, n) && (a.StartSweep? || a.Purge? || a.DeleteRow?)
    ensures Unmoved(s, Step(s, a), id, m, w, n)
  {
  }

  lemma CommitSweepBlocked(s: State, a: Action, id: MessageId, m: MediaId, w: SweepId, n: MediaId)
    requires MediaInv(s) && Deadlocked(s, id, m, w, n) && a.CommitSweep?
    ensures Unmoved(s, Step(s, a), id, m, w, n)
  {
    if a.sweep in s.sweeps && a.sweep != w {
      assert SweepOk(s, a.sweep);
    }
  }

  lemma KillSweepBlocked(s: State, a: Action, id: MessageId, m: MediaId, w: SweepId, n: MediaId)
    requires Deadlocked(s, id, m, w, n) && a.KillSweep? && a.sweep != w
    ensures Unmoved(s, Step(s, a), id, m, w, n)
  {
  }

  lemma StaysBlocked(s: State, a: Action, id: MessageId, m: MediaId, w: SweepId, n: MediaId)
    requires MediaInv(s) && Deadlocked(s, id, m, w, n) && Tame(s, a) && !Aborts(a, id)
    ensures Deadlocked(Step(s, a), id, m, w, n)
  {
    if a.BindRow? {
      BindRowBlocked(s, a, id, m, w, n);
    } else if a.Commit? {
      CommitBlocked(s, a, id, m, w, n);
    } else if a.Raise? || a.Rollback? || a.Crash? {
      AbortBlocked(s, a, id, m, w, n);
    } else if a.CountBound? || a.Publish? || a.Release? {
      EndBlocked(s, a, id, m, w, n);
    } else if a.Upload? {
      UploadBlocked(s, a, id, m, w, n);
    } else if a.CommitSweep? {
      CommitSweepBlocked(s, a, id, m, w, n);
    } else if a.KillSweep? {
      KillSweepBlocked(s, a, id, m, w, n);
    } else if a.LockRow? {
      LockRowBlocked(s, a, id, m, w, n);
    } else if IsSweepStep(a) {
      ScanBlocked(s, a, id, m, w, n);
    } else {
      SendBlocked(s, a, id, m, w, n);
    }
    UnmovedStaysBlocked(s, Step(s, a), id, m, w, n);
  }

  /** Whatever everybody does, the two wait until the send is aborted, or the sweep is, against the assumption. */
  lemma {:induction false} DeadlockLasts(s: State, acts: seq<Action>, id: MessageId, m: MediaId, w: SweepId, n: MediaId)
    requires Inv(s) && TameRun(s, acts) && Deadlocked(s, id, m, w, n)
    requires forall i | 0 <= i < |acts| :: !Aborts(acts[i], id)
    ensures Deadlocked(Run(s, acts), id, m, w, n)
    decreases |acts|
  {
    if acts != [] {
      StaysBlocked(s, acts[0], id, m, w, n);
      InvStep(s, acts[0]);
      DeadlockLasts(Step(s, acts[0]), acts[1..], id, m, w, n);
    }
  }

  /** Aborting the sweep is the harmful choice: from any deadlock some message then ends up without bytes. */
  lemma AbortingTheSweepIsFatal(s: State, id: MessageId, m: MediaId, w: SweepId, n: MediaId)
    requires Inv(s) && Deadlocked(s, id, m, w, n)
    ensures !BytesStaySafe(DoKillSweep(s, w))
  {
    KillingASweepIsHarmlessIff(s, w);
  }

  /** Rows 1 and 2 uploaded. */
  lemma TwoUploads() returns (acts: seq<Action>, s: State)
    ensures Leads(INIT, acts, s)
    ensures s == INIT.(media := map[1 := Attachment(0, None), 2 := Attachment(0, None)], objects := {1, 2}, uploads := {1, 2})
  {
    acts, s := [], INIT;
    LeadsOn(INIT, acts, s, Upload(1, 0), DoUpload(s, 1, 0));
    acts, s := acts + [Upload(1, 0)], DoUpload(s, 1, 0);
    LeadsOn(INIT, acts, s, Upload(2, 0), DoUpload(s, 2, 0));
    acts, s := acts + [Upload(2, 0)], DoUpload(s, 2, 0);
  }

  /** A send of both has come to bind them. */
  lemma SendBindsTwo() returns (acts: seq<Action>, t: State)
    ensures Leads(INIT, acts, t)
    ensures 0 in t.requests && t.requests[0].key.sender == 0 && t.requests[0].pc == Binding({1, 2}, {})
    ensures t.media == map[1 := Attachment(0, None), 2 := Attachment(0, None)]
    ensures t.locks == map[] && t.sweeps == map[]
  {
    var s;
    acts, s := TwoUploads();
    var key, media := ClaimKey(0, ""), [1, 2];
    SoloReachesBinding(s, 0, key, media);
    t := With(s.(claims := s.claims[key := 0]), 0, key, media, Binding(IdSet(media), {}));
    RunAppend(INIT, acts, ClaimActs(0, key, media));
    acts := acts + ClaimActs(0, key, media);
    assert media[0] == 1 && media[1] == 2 && IdSet(media) == {1, 2};
  }

  /** It has locked row 2 and goes on to row 1. */
  lemma SendHoldsTwo() returns (acts: seq<Action>, t: State)
    ensures Leads(INIT, acts, t)
    ensures 0 in t.requests && t.requests[0].key.sender == 0 && t.requests[0].pc == Binding({1}, {2})
    ensures t.media == map[1 := Attachment(0, None), 2 := Attachment(0, None)]
    ensures t.locks == map[2 := Sender(0)] && t.sweeps == map[]
  {
    var s;
    acts, s := SendBindsTwo();
    t := DoBindRow(s, 0, 2);
    SecondRow(s, t);
    LeadsOn(INIT, acts, s, BindRow(0, 2), t);
    acts := acts + [BindRow(0, 2)];
  }

  lemma SecondRow(t: State, u: State)
    requires 0 in t.requests && t.requests[0].key.sender == 0 && t.requests[0].pc == Binding({1, 2}, {}) && t.locks == map[]
    requires 2 in t.media && t.media[2] == Attachment(0, None) && u == DoBindRow(t, 0, 2)
    ensures u.locks == map[2 := Sender(0)] && u.media == t.media && u.sweeps == t.sweeps
    ensures 0 in u.requests && u.requests[0].key == t.requests[0].key && u.requests[0].pc == Binding({1}, {2})
  {
    assert {1, 2} - {2} == {1} && {} + {2} == {2};
  }

  lemma LocksFirst(s: State)
    requires 0 in s.sweeps && s.sweeps[0] == Sweep([1, 2], Scanning, {}, {}, 0)
    requires s.locks == map[2 := Sender(0)] && 1 in s.media && s.media[1].message.None?
    ensures var t := DoLockRow(s, 0);
      && 0 in t.sweeps && t.sweeps[0] == Sweep([2], Locked(1), {}, {}, 0)
      && t.locks == s.locks[1 := Sweeper(0)] && t.requests == s.requests && t.media == s.media
  {
    var todo: seq<MediaId> := [1, 2];
    assert todo[0] == 1 && todo[1..] == [2];
  }

  /** A sweep of two rows has deleted the first and goes on to the second. */
  lemma SweepsFirst(s: State, acts: seq<Action>) returns (more: seq<Action>, t: State)
    requires Leads(INIT, acts, s) && s.sweeps == map[] && s.locks == map[2 := Sender(0)]
    requires 1 in s.media && s.media[1].message.None?
    ensures Leads(INIT, more, t) && t.requests == s.requests && t.media == s.media
    ensures t.locks == s.locks[1 := Sweeper(0)]
    ensures 0 in t.sweeps && t.sweeps[0] == Sweep([2], Scanning, {1}, {1}, 0)
  {
    var a: Action := StartSweep(0, [1, 2]);
    var v := DoStartSweep(s, 0, [1, 2]);
    LeadsOn(INIT, acts, s, a, v);
    LocksFirst(v);
    t := DoLockRow(v, 0);
    LeadsOn(INIT, acts + [a], v, LockRow(0), t);
    more, t := PurgesFirst(t, acts + [a] + [LockRow(0)]);
  }

  lemma PurgesFirst(s: State, acts: seq<Action>) returns (more: seq<Action>, t: State)
    requires Leads(INIT, acts, s) && 0 in s.sweeps && s.sweeps[0] == Sweep([2], Locked(1), {}, {}, 0)
    ensures Leads(INIT, more, t) && t.requests == s.requests && t.media == s.media && t.locks == s.locks
    ensures 0 in t.sweeps && t.sweeps[0] == Sweep([2], Scanning, {1}, {1}, 0)
  {
    var v := DoPurge(s, 0, true);
    LeadsOn(INIT, acts, s, Purge(0, true), v);
    more := acts + [Purge(0, true)];
    t := DoDeleteRow(v, 0);
    LeadsOn(INIT, more, v, DeleteRow(0), t);
    more := more + [DeleteRow(0)];
  }

  /** The deadlock is reached from the start without any fault. */
  lemma DeadlockHappens() returns (acts: seq<Action>)
    ensures TameRun(INIT, acts) && Deadlocked(Run(INIT, acts), 0, 1, 0, 2)
  {
    var s;
    acts, s := SendHoldsTwo();
    var more, t := SweepsFirst(s, acts);
    acts := more;
  }
}
