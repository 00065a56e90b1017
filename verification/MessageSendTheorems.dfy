/**
  What every run of sends, uploads and sweeps guarantees, and exactly when the two environment
  assumptions behind it are needed.
*/
module MessageSendTheorems {
  import opened MessageSend
  import opened MessageSendSafety
  import opened MessageSendMedia

  ghost predicate Inv(s: State) {
    ClaimInv(s) && MediaInv(s)
  }

  // ---------------------------------------------------------------- the promises

  /** A sender's idempotency key never has two committed rows. */
  ghost predicate OneRowPerKey(s: State) {
    forall a, b | a in s.rows && b in s.rows && SameKey(s, a, b) :: a == b
  }

  /** A successful answer carries the id of the one committed row of its key; a failure wrote none. */
  ghost predicate AnswerIsTrue(s: State, r: MessageId, outcome: Outcome)
    requires r in s.requests
  {
    match outcome
    case Created(x) => x == r && r in s.rows
    case Replayed(x) => x in s.rows && SameKey(s, r, x)
    case TimedOut => r !in s.rows
    case Failed => r !in s.rows
  }

  ghost predicate AnswersAreTrue(s: State) {
    forall r | r in s.requests && s.requests[r].pc.Finished? :: AnswerIsTrue(s, r, s.requests[r].pc.outcome)
  }

  /** Fan-out: only committed rows, each at most once. */
  ghost predicate PublishedOnceAfterCommit(s: State) {
    && (forall i | 0 <= i < |s.published| :: s.published[i] in s.rows)
    && (forall i, j | 0 <= i < j < |s.published| :: s.published[i] != s.published[j])
  }

  ghost predicate BoundHasBytes(s: State) {
    forall m | m in s.media && s.media[m].message.Some? :: m in s.objects
  }

  /** Binding is all or nothing: a row binds exactly the distinct, owned attachments it named. */
  ghost predicate BindsAllOrNothing(s: State) {
    && (forall r | r in s.rows ::
          && r in s.requests && Distinct(s.requests[r].media)
          && (forall m | m in s.requests[r].media :: m in s.media && s.media[m] == Attachment(s.requests[r].key.sender, Some(r))))
    && (forall m | m in s.media && s.media[m].message.Some? ::
          var r := s.media[m].message.value;
          r in s.rows && r in s.requests && m in s.requests[r].media)
  }

  lemma InvPromises(s: State)
    requires Inv(s)
    ensures OneRowPerKey(s) && AnswersAreTrue(s) && PublishedOnceAfterCommit(s)
    ensures BoundHasBytes(s) && BindsAllOrNothing(s)
  {
  }

  lemma InvStep(s: State, a: Action)
    requires Inv(s) && Tame(s, a)
    ensures Inv(Step(s, a))
  {
    ClaimInvStep(s, a);
    MediaInvStep(s, a);
  }

  lemma {:induction false} InvRun(s: State, acts: seq<Action>)
    requires Inv(s) && TameRun(s, acts)
    ensures Inv(Run(s, acts))
    decreases |acts|
  {
    if acts != [] {
      InvStep(s, acts[0]);
      InvRun(Step(s, acts[0]), acts[1..]);
    }
  }

  /** Main theorem: every promise holds after every tame run, hence at every moment of one. */
  lemma EveryRunKeepsThePromises(acts: seq<Action>)
    requires TameRun(INIT, acts)
    ensures var s := Run(INIT, acts);
            && OneRowPerKey(s) && AnswersAreTrue(s) && PublishedOnceAfterCommit(s)
            && BoundHasBytes(s) && BindsAllOrNothing(s)
  {
    InvRun(INIT, acts);
    InvPromises(Run(INIT, acts));
  }

  // ---------------------------------------------------------------- what is never undone

  /** Rows, publications, bindings and answers are final. */
  ghost predicate Extends(s: State, t: State) {
    && s.rows <= t.rows
    && s.published <= t.published
    && (forall m | m in s.media && s.media[m].message.Some? :: m in t.media && t.media[m] == s.media[m])
    && (forall r | r in s.requests :: r in t.requests && t.requests[r].key == s.requests[r].key)
    && (forall r | r in s.requests && s.requests[r].pc.Finished? :: t.requests[r].pc == s.requests[r].pc)
  }

  lemma ExtendsCommit(s: State, id: MessageId)
    requires MediaInv(s)
    ensures Extends(s, DoCommit(s, id))
  {
    if id in s.requests && s.requests[id].pc.Committing? {
      assert SendOk(s, id);
      forall m | m in s.requests[id].pc.Held() ensures m in s.media && s.media[m].message.None? {
        assert HeldOk(s, id, m) && LockOk(s, m);
      }
    }
  }

  lemma ExtendsCommitSweep(s: State, w: SweepId)
    requires MediaInv(s)
    ensures Extends(s, DoCommitSweep(s, w))
  {
  }

  lemma ExtendsMove(s: State, t: State, id: MessageId)
    requires OnlyMoves(s, t, id)
    ensures Extends(s, t)
  {
  }

  lemma ExtendsUntouched(s: State, t: State)
    requires SendsUntouched(s, t)
    requires forall m | m in s.media && s.media[m].message.Some? :: m in t.media && t.media[m] == s.media[m]
    ensures Extends(s, t)
  {
  }

  lemma ExtendsUpload(s: State, m: MediaId, u: UserId)
    requires MediaInv(s)
    ensures Extends(s, DoUpload(s, m, u))
  {
  }

  /** A sweep that has not come to its commit changes no row of its own or others. */
  lemma ExtendsScan(s: State, a: Action)
    requires IsSweepStep(a) && !a.Upload? && !a.CommitSweep?
    ensures Extends(s, Step(s, a))
  {
    SweepStepFrame(s, a);
    ExtendsUntouched(s, Step(s, a));
  }

  lemma ExtendsArrive(s: State, id: MessageId, key: ClaimKey, media: seq<MediaId>)
    ensures Extends(s, DoArrive(s, id, key, media))
  {
  }

  lemma ExtendsStep(s: State, a: Action)
    requires MediaInv(s) && !a.LoseClaim?
    ensures Extends(s, Step(s, a))
  {
    if a.Upload? {
      ExtendsUpload(s, a.row, a.uploader);
    } else if a.CommitSweep? {
      ExtendsCommitSweep(s, a.sweep);
    } else if IsSweepStep(a) {
      ExtendsScan(s, a);
    } else if IsClaimStep(a) {
      ClaimStepMovesOne(s, a);
      ExtendsMove(s, Step(s, a), a.id);
    } else if IsEndStep(a) {
      EndStepMovesOne(s, a);
      ExtendsMove(s, Step(s, a), a.id);
    } else if a.Commit? {
      ExtendsCommit(s, a.id);
    } else {
      ExtendsArrive(s, a.id, a.key, a.media);
    }
  }

  /** A binding, a row, a publication or an answer, once there, is there in every continuation. */
  lemma {:induction false} NothingIsUndone(s: State, more: seq<Action>)
    requires Inv(s) && TameRun(s, more)
    ensures Extends(s, Run(s, more))
    decreases |more|
  {
    if more != [] {
      InvStep(s, more[0]);
      ExtendsStep(s, more[0]);
      NothingIsUndone(Step(s, more[0]), more[1..]);
    }
  }
}
