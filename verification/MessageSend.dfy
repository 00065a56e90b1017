/**
  Idempotent send, attachment binding and the orphan sweep, as one state machine.

  Redis is the map `claims` (one atomic command per step); Postgres is the committed rows plus
  attachment row locks; the object store is the set `objects`. A send request, a sweep and the
  object store interleave at every step. `Step` is total: an action whose guard fails (a blocked
  row lock, a request at another program point) leaves the state unchanged.
*/
module MessageSend {

  type UserId = nat
  type MessageId = nat
  type MediaId = nat
  type SweepId = nat

  const RESOLVE_MAX_ATTEMPTS: nat := 8
  const CLAIM_MAX_ROUNDS: nat := 3

  datatype Option<T> = None | Some(value: T)

  /** The Redis key `idem:message_send:{sender}:{token}`. */
  datatype ClaimKey = ClaimKey(sender: UserId, token: string)

  datatype Outcome = Created(id: MessageId) | Replayed(id: MessageId) | TimedOut | Failed

  /**
    Program points of one send. Round 0 is the resolve call made before validation; rounds 1 to
    CLAIM_MAX_ROUNDS are the claim loop. `held` is the set of attachment rows the transaction has
    locked and updated.
  */
  datatype Pc =
    | Probing(round: nat, attempt: nat)
    | Looking(round: nat, attempt: nat, claimed: MessageId)
    | Validating
    | Claiming(round: nat)
    | Inserting
    | Binding(todo: set<MediaId>, held: set<MediaId>)
    | Committing(held: set<MediaId>)
    | Publishing
    | RollingBack(held: set<MediaId>)
    | Releasing
    | Finished(outcome: Outcome)
    | Crashed
  {
    predicate HoldsClaim() {
      Inserting? || Binding? || Committing? || Publishing? || RollingBack? || Releasing?
    }

    function Held(): set<MediaId> {
      if Binding? || Committing? || RollingBack? then held else {}
    }
  }

  /** A request is stored under the message id it drew, so ids are distinct across requests. */
  datatype Request = Request(key: ClaimKey, media: seq<MediaId>, pc: Pc)

  datatype Attachment = Attachment(uploader: UserId, message: Option<MessageId>)

  datatype Holder = Sender(id: MessageId) | Sweeper(sweep: SweepId)

  datatype SweepPc = Scanning | Locked(row: MediaId) | Purged(row: MediaId) | Ended

  /** `purged` are objects already deleted, `gone` the rows deleted but not yet committed. */
  datatype Sweep = Sweep(todo: seq<MediaId>, pc: SweepPc, purged: set<MediaId>, gone: set<MediaId>, failures: nat)

  datatype State = State(
    claims: map<ClaimKey, MessageId>,
    requests: map<MessageId, Request>,
    rows: set<MessageId>,
    media: map<MediaId, Attachment>,
    objects: set<MediaId>,
    uploads: set<MediaId>,
    locks: map<MediaId, Holder>,
    sweeps: map<SweepId, Sweep>,
    published: seq<MessageId>)

  const INIT := State(map[], map[], {}, map[], {}, {}, map[], map[], [])

  datatype Action =
    | Arrive(id: MessageId, key: ClaimKey, media: seq<MediaId>)
    | Probe(id: MessageId)
    | Look(id: MessageId)
    | Validate(id: MessageId)
    | Claim(id: MessageId, replyLost: bool)
    | Insert(id: MessageId)
    | BindRow(id: MessageId, row: MediaId)
    | CountBound(id: MessageId)
    | Commit(id: MessageId)
    | Publish(id: MessageId, lost: bool)
    | Raise(id: MessageId)
    | Rollback(id: MessageId)
    | Release(id: MessageId, replyLost: bool)
    | Crash(id: MessageId)
    | Upload(row: MediaId, uploader: UserId)
    | StartSweep(sweep: SweepId, todo: seq<MediaId>)
    | LockRow(sweep: SweepId)
    | Purge(sweep: SweepId, ok: bool)
    | DeleteRow(sweep: SweepId)
    | CommitSweep(sweep: SweepId)
    | KillSweep(sweep: SweepId)
    | LoseClaim(key: ClaimKey)

  // ---------------------------------------------------------------- send requests

  predicate At(s: State, id: MessageId) {
    id in s.requests
  }

  function SetPc(s: State, id: MessageId, pc: Pc): State
    requires id in s.requests
  {
    s.(requests := s.requests[id := s.requests[id].(pc := pc)])
  }

  function Unlock(locks: map<MediaId, Holder>, h: Holder): map<MediaId, Holder> {
    map m | m in locks && locks[m] != h :: locks[m]
  }

  /**
    The frame of a request's step: one unfinished request moves; committed rows and committed
    attachments stay as they are and publications only grow.
  */
  ghost predicate OnlyMoves(s: State, t: State, id: MessageId) {
    t == s || (
      && id in s.requests && !s.requests[id].pc.Finished? && id in t.requests
      && t.requests == SetPc(s, id, t.requests[id].pc).requests
      && t.rows == s.rows && t.media == s.media && t.objects == s.objects
      && t.uploads == s.uploads && t.sweeps == s.sweeps && s.published <= t.published)
  }

  /** What `_resolve_existing_claim` returning nothing leads to. */
  function NoClaimFound(round: nat): Pc {
    if round == 0 then Validating
    else if round < CLAIM_MAX_ROUNDS then Claiming(round + 1)
    else Finished(TimedOut)
  }

  function DoArrive(s: State, id: MessageId, key: ClaimKey, media: seq<MediaId>): State {
    if id in s.requests then s else s.(requests := s.requests[id := Request(key, media, Probing(0, 0))])
  }

  /** One `GET` of the claim; only the first and the last attempt go on to read the row. */
  function DoProbe(s: State, id: MessageId): (t: State)
    ensures OnlyMoves(s, t, id)
  {
    if id !in s.requests || !s.requests[id].pc.Probing? then s else
      var Probing(round, attempt) := s.requests[id].pc;
      var key := s.requests[id].key;
      if key !in s.claims then SetPc(s, id, NoClaimFound(round))
      else if attempt == 0 || attempt + 1 >= RESOLVE_MAX_ATTEMPTS then
        SetPc(s, id, Looking(round, attempt, s.claims[key]))
      else SetPc(s, id, Probing(round, attempt + 1))
  }

  function DoLook(s: State, id: MessageId): (t: State)
    ensures OnlyMoves(s, t, id)
  {
    if id !in s.requests || !s.requests[id].pc.Looking? then s else
      var Looking(round, attempt, claimed) := s.requests[id].pc;
      if claimed in s.rows then SetPc(s, id, Finished(Replayed(claimed)))
      else if attempt == 0 then SetPc(s, id, Probing(round, 1))
      else SetPc(s, id, Finished(TimedOut))
  }

  function DoValidate(s: State, id: MessageId): (t: State)
    ensures OnlyMoves(s, t, id)
  {
    if id !in s.requests || !s.requests[id].pc.Validating? then s else SetPc(s, id, Claiming(1))
  }

  /** `SET NX`. With the reply lost the key is set but the caller sees an error. */
  function DoClaim(s: State, id: MessageId, replyLost: bool): (t: State)
    ensures OnlyMoves(s, t, id)
  {
    if id !in s.requests || !s.requests[id].pc.Claiming? then s else
      var key := s.requests[id].key;
      if key in s.claims then SetPc(s, id, Probing(s.requests[id].pc.round, 0))
      else
        SetPc(s, id, if replyLost then Finished(Failed) else Inserting).(claims := s.claims[key := id])
  }

  function IdSet(ids: seq<MediaId>): set<MediaId> {
    set m | m in ids
  }

  function DoInsert(s: State, id: MessageId): (t: State)
    ensures OnlyMoves(s, t, id)
  {
    if id !in s.requests || !s.requests[id].pc.Inserting? then s else
      SetPc(s, id, Binding(IdSet(s.requests[id].media), {}))
  }

  /** The `WHERE` clause of the conditional `UPDATE`, on the committed row. */
  predicate Bindable(s: State, sender: UserId, m: MediaId) {
    m in s.media && s.media[m].uploader == sender && s.media[m].message.None?
  }

  /** One row of the `UPDATE`: a matching row blocks while another transaction holds its lock. */
  function DoBindRow(s: State, id: MessageId, m: MediaId): (t: State)
    ensures OnlyMoves(s, t, id)
  {
    if id !in s.requests || !s.requests[id].pc.Binding? || m !in s.requests[id].pc.todo then s else
      var Binding(todo, held) := s.requests[id].pc;
      if !Bindable(s, s.requests[id].key.sender, m) then SetPc(s, id, Binding(todo - {m}, held))
      else if m in s.locks then s
      else SetPc(s, id, Binding(todo - {m}, held + {m})).(locks := s.locks[m := Sender(id)])
  }

  function DoCountBound(s: State, id: MessageId): (t: State)
    ensures OnlyMoves(s, t, id)
  {
    if id !in s.requests || !s.requests[id].pc.Binding? || s.requests[id].pc.todo != {} then s else
      var held := s.requests[id].pc.held;
      SetPc(s, id, if |held| == |s.requests[id].media| then Committing(held) else RollingBack(held))
  }

  function DoCommit(s: State, id: MessageId): State {
    if id !in s.requests || !s.requests[id].pc.Committing? then s else
      var held := s.requests[id].pc.held;
      SetPc(s, id, Publishing).(
        rows := s.rows + {id},
        media := map m | m in s.media :: if m in held then s.media[m].(message := Some(id)) else s.media[m],
        locks := Unlock(s.locks, Sender(id)))
  }

  /** Fan-out fails open: the send succeeds even if the event is lost. */
  function DoPublish(s: State, id: MessageId, lost: bool): (t: State)
    ensures OnlyMoves(s, t, id)
  {
    if id !in s.requests || !s.requests[id].pc.Publishing? then s else
      var t := SetPc(s, id, Finished(Created(id)));
      if lost then t else t.(published := s.published + [id])
  }

  /** An error: outside the guarded block it ends the call, inside it leads to the rollback. */
  function DoRaise(s: State, id: MessageId): (t: State)
    ensures OnlyMoves(s, t, id)
  {
    if id !in s.requests then s else
      match s.requests[id].pc
      case Inserting => SetPc(s, id, RollingBack({}))
      case Binding(_, held) => SetPc(s, id, RollingBack(held))
      case Committing(held) => SetPc(s, id, RollingBack(held))
      case Probing(_, _) => SetPc(s, id, Finished(Failed))
      case Looking(_, _, _) => SetPc(s, id, Finished(Failed))
      case Validating => SetPc(s, id, Finished(Failed))
      case Claiming(_) => SetPc(s, id, Finished(Failed))
      case _ => s
  }

  function DoRollback(s: State, id: MessageId): (t: State)
    ensures OnlyMoves(s, t, id)
  {
    if id !in s.requests || !s.requests[id].pc.RollingBack? then s else
      SetPc(s, id, Releasing).(locks := Unlock(s.locks, Sender(id)))
  }

  /** `DEL` of the claim, whatever its value; with the reply lost the key stays. */
  function DoRelease(s: State, id: MessageId, replyLost: bool): (t: State)
    ensures OnlyMoves(s, t, id)
  {
    if id !in s.requests || !s.requests[id].pc.Releasing? then s else
      var u := SetPc(s, id, Finished(Failed));
      if replyLost then u else u.(claims := s.claims - {s.requests[id].key})
  }

  function DoCrash(s: State, id: MessageId): (t: State)
    ensures OnlyMoves(s, t, id)
  {
    if id !in s.requests || s.requests[id].pc.Finished? then s else
      SetPc(s, id, Crashed).(locks := Unlock(s.locks, Sender(id)))
  }

  // ---------------------------------------------------------------- uploads and sweeps

  /** The frame of an upload or a sweep step: no request, claim, row or publication changes. */
  ghost predicate SendsUntouched(s: State, t: State) {
    t.requests == s.requests && t.claims == s.claims && t.rows == s.rows && t.published == s.published
  }

  function DoUpload(s: State, m: MediaId, uploader: UserId): (t: State)
    ensures SendsUntouched(s, t)
  {
    if m in s.uploads then s else
      s.(media := s.media[m := Attachment(uploader, None)], objects := s.objects + {m}, uploads := s.uploads + {m})
  }

  function DoStartSweep(s: State, w: SweepId, todo: seq<MediaId>): (t: State)
    ensures SendsUntouched(s, t) && t.media == s.media
  {
    if w in s.sweeps then s else s.(sweeps := s.sweeps[w := Sweep(todo, Scanning, {}, {}, 0)])
  }

  /** `SELECT ... FOR UPDATE` on the next candidate, re-checking that it is still unbound. */
  function DoLockRow(s: State, w: SweepId): (t: State)
    ensures SendsUntouched(s, t) && t.media == s.media
  {
    if w !in s.sweeps || !s.sweeps[w].pc.Scanning? || s.sweeps[w].todo == [] then s else
      var m := s.sweeps[w].todo[0];
      var rest := s.sweeps[w].(todo := s.sweeps[w].todo[1..]);
      if m !in s.media || s.media[m].message.Some? || m in s.sweeps[w].gone then
        s.(sweeps := s.sweeps[w := rest])
      else if m in s.locks && s.locks[m] != Sweeper(w) then s
      else s.(sweeps := s.sweeps[w := rest.(pc := Locked(m))], locks := s.locks[m := Sweeper(w)])
  }

  function DoPurge(s: State, w: SweepId, ok: bool): (t: State)
    ensures SendsUntouched(s, t) && t.media == s.media
  {
    if w !in s.sweeps || !s.sweeps[w].pc.Locked? then s else
      var v := s.sweeps[w];
      if ok then
        s.(objects := s.objects - {v.pc.row},
           sweeps := s.sweeps[w := v.(pc := Purged(v.pc.row), purged := v.purged + {v.pc.row})])
      else s.(sweeps := s.sweeps[w := v.(pc := Scanning, failures := v.failures + 1)])
  }

  function DoDeleteRow(s: State, w: SweepId): (t: State)
    ensures SendsUntouched(s, t) && t.media == s.media
  {
    if w !in s.sweeps || !s.sweeps[w].pc.Purged? then s else
      var v := s.sweeps[w];
      s.(sweeps := s.sweeps[w := v.(pc := Scanning, gone := v.gone + {v.pc.row})])
  }

  function DoCommitSweep(s: State, w: SweepId): (t: State)
    ensures SendsUntouched(s, t)
  {
    if w !in s.sweeps || !s.sweeps[w].pc.Scanning? || s.sweeps[w].todo != [] then s else
      s.(media := s.media - s.sweeps[w].gone,
         locks := Unlock(s.locks, Sweeper(w)),
         sweeps := s.sweeps[w := s.sweeps[w].(pc := Ended)])
  }

  /** The sweep's process or connection dies: Postgres rolls back, deleted objects stay deleted. */
  function DoKillSweep(s: State, w: SweepId): (t: State)
    ensures SendsUntouched(s, t) && t.media == s.media
  {
    if w !in s.sweeps || s.sweeps[w].pc.Ended? then s else
      s.(locks := Unlock(s.locks, Sweeper(w)), sweeps := s.sweeps[w := s.sweeps[w].(pc := Ended)])
  }

  function DoLoseClaim(s: State, key: ClaimKey): State {
    s.(claims := s.claims - {key})
  }

  function Step(s: State, a: Action): State {
    match a
    case Arrive(id, key, media) => DoArrive(s, id, key, media)
    case Probe(id) => DoProbe(s, id)
    case Look(id) => DoLook(s, id)
    case Validate(id) => DoValidate(s, id)
    case Claim(id, lost) => DoClaim(s, id, lost)
    case Insert(id) => DoInsert(s, id)
    case BindRow(id, m) => DoBindRow(s, id, m)
    case CountBound(id) => DoCountBound(s, id)
    case Commit(id) => DoCommit(s, id)
    case Publish(id, lost) => DoPublish(s, id, lost)
    case Raise(id) => DoRaise(s, id)
    case Rollback(id) => DoRollback(s, id)
    case Release(id, lost) => DoRelease(s, id, lost)
    case Crash(id) => DoCrash(s, id)
    case Upload(m, u) => DoUpload(s, m, u)
    case StartSweep(w, todo) => DoStartSweep(s, w, todo)
    case LockRow(w) => DoLockRow(s, w)
    case Purge(w, ok) => DoPurge(s, w, ok)
    case DeleteRow(w) => DoDeleteRow(s, w)
    case CommitSweep(w) => DoCommitSweep(s, w)
    case KillSweep(w) => DoKillSweep(s, w)
    case LoseClaim(k) => DoLoseClaim(s, k)
  }

  predicate IsClaimStep(a: Action) {
    a.Probe? || a.Look? || a.Validate? || a.Claim? || a.Insert? || a.BindRow?
  }

  predicate IsEndStep(a: Action) {
    a.CountBound? || a.Publish? || a.Raise? || a.Rollback? || a.Release? || a.Crash?
  }

  predicate IsSweepStep(a: Action) {
    a.Upload? || a.StartSweep? || a.LockRow? || a.Purge? || a.DeleteRow? || a.CommitSweep? || a.KillSweep?
  }

  lemma ClaimStepMovesOne(s: State, a: Action)
    requires IsClaimStep(a)
    ensures OnlyMoves(s, Step(s, a), a.id)
  {
  }

  lemma EndStepMovesOne(s: State, a: Action)
    requires IsEndStep(a)
    ensures OnlyMoves(s, Step(s, a), a.id)
  {
  }

  lemma SweepStepFrame(s: State, a: Action)
    requires IsSweepStep(a)
    ensures SendsUntouched(s, Step(s, a))
    ensures !a.Upload? && !a.CommitSweep? ==> Step(s, a).media == s.media
  {
  }

  function Run(s: State, acts: seq<Action>): State
    decreases |acts|
  {
    if acts == [] then s else Run(Step(s, acts[0]), acts[1..])
  }

  /**
    The two environment assumptions: Redis does not lose a claim, and a sweep that has deleted
    object bytes lives to commit.
  */
  predicate Tame(s: State, a: Action) {
    && !a.LoseClaim?
    && (a.KillSweep? && a.sweep in s.sweeps ==> s.sweeps[a.sweep].purged == {})
  }

  predicate TameRun(s: State, acts: seq<Action>)
    decreases |acts|
  {
    acts == [] || (Tame(s, acts[0]) && TameRun(Step(s, acts[0]), acts[1..]))
  }
}
