/**
  The two environment assumptions are exact: losing a claim breaks idempotency precisely when its
  row was committed or a request still holds it, and killing a sweep leaves a message without bytes
  precisely when the sweep had already deleted some.
*/
module MessageSendExactness {
  import opened MessageSend
  import opened MessageSendSafety
  import opened MessageSendMedia
  import opened MessageSendTheorems

  lemma {:induction false} RunAppend(s: State, a: seq<Action>, b: seq<Action>)
    ensures Run(s, a + b) == Run(Run(s, a), b)
    ensures TameRun(s, a) && TameRun(Run(s, a), b) ==> TameRun(s, a + b)
    decreases |a|
  {
    if a == [] {
      assert a + b == b;
    } else {
      assert (a + b)[1..] == a[1..] + b;
      RunAppend(Step(s, a[0]), a[1..], b);
    }
  }

  ghost predicate Leads(s: State, acts: seq<Action>, t: State) {
    TameRun(s, acts) && Run(s, acts) == t
  }

  lemma LeadsOn(s: State, acts: seq<Action>, t: State, a: Action, u: State)
    requires Leads(s, acts, t) && Tame(t, a) && Step(t, a) == u
    ensures Leads(s, acts + [a], u)
  {
    assert Run(Step(t, a), []) == u && TameRun(Step(t, a), []);
    assert [a][1..] == [];
    assert Run(t, [a]) == u && TameRun(t, [a]);
    RunAppend(s, acts, [a]);
  }

  // A send that meets nobody on its way.

  function ClaimActs(id: MessageId, key: ClaimKey, media: seq<MediaId>): seq<Action> {
    [] + [Arrive(id, key, media)] + [Probe(id)] + [Validate(id)] + [Claim(id, false)] + [Insert(id)]
  }

  /** Lock and update the first `n` attachments in turn. */
  function BindActs(id: MessageId, media: seq<MediaId>, n: nat): seq<Action>
    requires n <= |media|
  {
    if n == 0 then [] else BindActs(id, media, n - 1) + [BindRow(id, media[n - 1])]
  }

  function SoloActs(id: MessageId, key: ClaimKey, media: seq<MediaId>): seq<Action> {
    ClaimActs(id, key, media) + BindActs(id, media, |media|) + [CountBound(id)] + [Commit(id)]
  }

  function With(s: State, id: MessageId, key: ClaimKey, media: seq<MediaId>, pc: Pc): State {
    s.(requests := s.requests[id := Request(key, media, pc)])
  }

  lemma SoloProbe(s: State, id: MessageId, key: ClaimKey, media: seq<MediaId>)
    requires key !in s.claims
    ensures DoProbe(With(s, id, key, media, Probing(0, 0)), id) == With(s, id, key, media, Validating)
  {
  }

  lemma SoloValidate(s: State, id: MessageId, key: ClaimKey, media: seq<MediaId>)
    ensures DoValidate(With(s, id, key, media, Validating), id) == With(s, id, key, media, Claiming(1))
  {
  }

  lemma SoloClaim(s: State, id: MessageId, key: ClaimKey, media: seq<MediaId>)
    requires key !in s.claims
    ensures DoClaim(With(s, id, key, media, Claiming(1)), id, false)
         == With(s.(claims := s.claims[key := id]), id, key, media, Inserting)
  {
  }

  lemma SoloInsert(s: State, id: MessageId, key: ClaimKey, media: seq<MediaId>)
    ensures DoInsert(With(s, id, key, media, Inserting), id) == With(s, id, key, media, Binding(IdSet(media), {}))
  {
  }

  lemma SoloReachesBinding(s: State, id: MessageId, key: ClaimKey, media: seq<MediaId>)
    requires id !in s.requests && key !in s.claims
    ensures Leads(s, ClaimActs(id, key, media),
                  With(s.(claims := s.claims[key := id]), id, key, media, Binding(IdSet(media), {})))
  {
    var acts: seq<Action> := [];
    var c := s.(claims := s.claims[key := id]);
    LeadsOn(s, acts, s, Arrive(id, key, media), With(s, id, key, media, Probing(0, 0)));
    acts := acts + [Arrive(id, key, media)];
    SoloProbe(s, id, key, media);
    LeadsOn(s, acts, With(s, id, key, media, Probing(0, 0)), Probe(id), With(s, id, key, media, Validating));
    acts := acts + [Probe(id)];
    SoloValidate(s, id, key, media);
    LeadsOn(s, acts, With(s, id, key, media, Validating), Validate(id), With(s, id, key, media, Claiming(1)));
    acts := acts + [Validate(id)];
    SoloClaim(s, id, key, media);
    LeadsOn(s, acts, With(s, id, key, media, Claiming(1)), Claim(id, false), With(c, id, key, media, Inserting));
    acts := acts + [Claim(id, false)];
    SoloInsert(c, id, key, media);
    LeadsOn(s, acts, With(c, id, key, media, Inserting), Insert(id), With(c, id, key, media, Binding(IdSet(media), {})));
  }

  /** From the binding point, a send that holds all it named commits. */
  lemma BindingCommits(s: State, id: MessageId)
    requires id in s.requests && s.requests[id].pc.Binding? && s.requests[id].pc.todo == {}
    requires |s.requests[id].pc.held| == |s.requests[id].media|
    ensures var t := DoCommit(DoCountBound(s, id), id);
            && t.rows == s.rows + {id} && t.objects == s.objects
            && (forall r | r in s.requests && r != id :: r in t.requests && t.requests[r] == s.requests[r])
            && id in t.requests && t.requests[id] == s.requests[id].(pc := Publishing)
            && (forall m | m in s.requests[id].pc.held && m in s.media :: m in t.media && t.media[m].message == Some(id))
  {
  }

  /** Since `s`, a solo send has come to hold `held` of its attachments; nobody has locked the rest. */
  ghost predicate Holding(s: State, t: State, id: MessageId, key: ClaimKey, media: seq<MediaId>, todo: set<MediaId>, held: set<MediaId>) {
    && t.requests == s.requests[id := Request(key, media, Binding(todo, held))]
    && t.rows == s.rows && t.objects == s.objects && t.media == s.media
    && (forall m | m in todo :: m !in t.locks)
  }

  lemma FirstOne(media: seq<MediaId>, n: nat)
    requires Distinct(media) && n < |media|
    ensures media[n] in IdSet(media) && media[n] !in IdSet(media[..n])
    ensures IdSet(media[..n + 1]) == IdSet(media[..n]) + {media[n]}
    ensures IdSet(media) - IdSet(media[..n + 1]) == IdSet(media) - IdSet(media[..n]) - {media[n]}
  {
    assert media[..n + 1] == media[..n] + [media[n]];
  }

  lemma SoloBinds(s: State, t: State, id: MessageId, key: ClaimKey, media: seq<MediaId>, todo: set<MediaId>, held: set<MediaId>, m: MediaId)
    requires Holding(s, t, id, key, media, todo, held) && m in todo && Bindable(s, key.sender, m)
    ensures Holding(s, DoBindRow(t, id, m), id, key, media, todo - {m}, held + {m})
  {
  }

  lemma {:induction false} SoloHolds(s: State, id: MessageId, key: ClaimKey, media: seq<MediaId>, n: nat) returns (t: State)
    requires id !in s.requests && key !in s.claims && Distinct(media) && n <= |media|
    requires forall m | m in media :: Bindable(s, key.sender, m) && m !in s.locks
    ensures Leads(s, ClaimActs(id, key, media) + BindActs(id, media, n), t)
    ensures Holding(s, t, id, key, media, IdSet(media) - IdSet(media[..n]), IdSet(media[..n]))
  {
    var acts := ClaimActs(id, key, media);
    if n == 0 {
      t := With(s.(claims := s.claims[key := id]), id, key, media, Binding(IdSet(media), {}));
      SoloReachesBinding(s, id, key, media);
      assert acts + BindActs(id, media, 0) == acts;
      assert IdSet(media) - {} == IdSet(media) && IdSet(media[..0]) == {};
    } else {
      var m := media[n - 1];
      var before := SoloHolds(s, id, key, media, n - 1);
      FirstOne(media, n - 1);
      t := DoBindRow(before, id, m);
      SoloBinds(s, before, id, key, media, IdSet(media) - IdSet(media[..n - 1]), IdSet(media[..n - 1]), m);
      LeadsOn(s, acts + BindActs(id, media, n - 1), before, BindRow(id, m), t);
      assert acts + BindActs(id, media, n) == acts + BindActs(id, media, n - 1) + [BindRow(id, m)];
    }
  }

  lemma {:induction false} DistinctSize(ids: seq<MediaId>)
    requires Distinct(ids)
    ensures |IdSet(ids)| == |ids|
  {
    if ids != [] {
      var front, last := ids[..|ids| - 1], ids[|ids| - 1];
      DistinctSize(front);
      assert ids == front + [last];
      assert IdSet(ids) == IdSet(front) + {last} && last !in IdSet(front);
    }
  }

  lemma SoloEnds(s: State, t: State, id: MessageId, key: ClaimKey, media: seq<MediaId>, acts: seq<Action>)
    requires id !in s.requests && Leads(s, acts, t) && Holding(s, t, id, key, media, {}, IdSet(media))
    requires |IdSet(media)| == |media| && forall m | m in media :: m in s.media
    ensures Leads(s, acts + [CountBound(id)] + [Commit(id)], DoCommit(DoCountBound(t, id), id))
    ensures Committed(s, DoCommit(DoCountBound(t, id), id), id, key, media)
  {
    BindingCommits(t, id);
    LeadsOn(s, acts, t, CountBound(id), DoCountBound(t, id));
    LeadsOn(s, acts + [CountBound(id)], DoCountBound(t, id), Commit(id), DoCommit(DoCountBound(t, id), id));
    assert forall m | m in media :: m in IdSet(media);
  }

  /** Since `s`, request `id` has committed its row and bound its attachments; the others have not moved. */
  ghost predicate Committed(s: State, t: State, id: MessageId, key: ClaimKey, media: seq<MediaId>) {
    && t.rows == s.rows + {id} && t.objects == s.objects
    && (forall r | r in s.requests :: r in t.requests && t.requests[r] == s.requests[r])
    && id in t.requests && t.requests[id] == Request(key, media, Publishing)
    && (forall m | m in media :: m in t.media && t.media[m].message == Some(id))
  }

  /** A send without contention on a fresh key commits and binds all it named. */
  lemma SoloCommits(s: State, id: MessageId, key: ClaimKey, media: seq<MediaId>)
    requires id !in s.requests && key !in s.claims && Distinct(media)
    requires forall m | m in media :: Bindable(s, key.sender, m) && m !in s.locks
    ensures TameRun(s, SoloActs(id, key, media))
    ensures Committed(s, Run(s, SoloActs(id, key, media)), id, key, media)
  {
    var acts := ClaimActs(id, key, media) + BindActs(id, media, |media|);
    var t := SoloHolds(s, id, key, media, |media|);
    DistinctSize(media);
    assert media[..|media|] == media && IdSet(media) - IdSet(media) == {};
    SoloEnds(s, t, id, key, media, acts);
  }

  /** And then it publishes the message and answers `created`. */
  lemma SoloPublishes(s: State, id: MessageId, key: ClaimKey, media: seq<MediaId>)
    requires id !in s.requests && key !in s.claims && Distinct(media)
    requires forall m | m in media :: Bindable(s, key.sender, m) && m !in s.locks
    ensures TameRun(s, SoloActs(id, key, media) + [Publish(id, false)])
    ensures var t := Run(s, SoloActs(id, key, media) + [Publish(id, false)]);
            && id in t.rows && id in t.published
            && id in t.requests && t.requests[id].pc == Finished(Created(id))
  {
    var acts := SoloActs(id, key, media);
    SoloCommits(s, id, key, media);
    var t := Run(s, acts);
    LeadsOn(s, acts, t, Publish(id, false), DoPublish(t, id, false));
    assert DoPublish(t, id, false).published[|t.published|] == id;
  }

  lemma {:induction false} FreshId(ids: set<MessageId>) returns (id: MessageId)
    ensures forall x | x in ids :: x < id
  {
    id := 0;
    if ids != {} {
      var x :| x in ids;
      var below := FreshId(ids - {x});
      id := if x < below then below else x + 1;
      assert forall y | y in ids :: y == x || y in ids - {x};
    }
  }

  ghost predicate KeysStayUnique(s: State) {
    forall acts | TameRun(s, acts) :: OneRowPerKey(Run(s, acts))
  }

  lemma UniqueOnwards(s: State, acts: seq<Action>)
    requires KeysStayUnique(s) && TameRun(s, acts)
    ensures KeysStayUnique(Run(s, acts))
  {
    forall more | TameRun(Run(s, acts), more) ensures OneRowPerKey(Run(Run(s, acts), more)) {
      RunAppend(s, acts, more);
    }
  }

  lemma UniqueAfter(s: State, a: Action)
    requires KeysStayUnique(s) && Tame(s, a)
    ensures KeysStayUnique(Step(s, a))
  {
    assert [a][1..] == [] && TameRun(Step(s, a), []) && Run(Step(s, a), []) == Step(s, a);
    UniqueOnwards(s, [a]);
  }

  /** A committed row whose key is unclaimed: the next request with that key commits a second one. */
  lemma UnclaimedRowIsFatal(s: State, r: MessageId)
    requires r in s.rows && r in s.requests && s.requests[r].key !in s.claims
    ensures !KeysStayUnique(s)
  {
    var key := s.requests[r].key;
    var id := FreshId(s.requests.Keys);
    assert id !in s.requests;
    SoloCommits(s, id, key, []);
    var u := Run(s, SoloActs(id, key, []));
    assert SameKey(u, r, id) && r != id && !OneRowPerKey(u);
  }

  /**
    A request about to delete a claim that is no longer its own: a retry commits, the blind delete
    frees its key, and the next request commits a second row.
  */
  lemma StaleReleaseIsFatal(s: State, r: MessageId)
    requires r in s.requests && s.requests[r].pc.Releasing? && s.requests[r].key !in s.claims
    ensures !KeysStayUnique(s)
  {
    var key := s.requests[r].key;
    var id := FreshId(s.requests.Keys);
    assert id !in s.requests;
    if KeysStayUnique(s) {
      SoloCommits(s, id, key, []);
      var t := Run(s, SoloActs(id, key, []));
      UniqueOnwards(s, SoloActs(id, key, []));
      UniqueAfter(t, Release(r, false));
      UnclaimedRowIsFatal(DoRelease(t, r, false), id);
    }
  }

  lemma StaleRollbackIsFatal(s: State, r: MessageId)
    requires r in s.requests && s.requests[r].pc.RollingBack? && s.requests[r].key !in s.claims
    ensures !KeysStayUnique(s)
  {
    if KeysStayUnique(s) {
      UniqueAfter(s, Rollback(r));
      StaleReleaseIsFatal(DoRollback(s, r), r);
    }
  }

  /** A request that fails before its commit comes to delete the claim. */
  lemma StaleHolderIsFatal(s: State, r: MessageId)
    requires r in s.requests && s.requests[r].key !in s.claims && r !in s.rows
    requires s.requests[r].pc.HoldsClaim() && !s.requests[r].pc.Publishing?
    ensures !KeysStayUnique(s)
  {
    if s.requests[r].pc.Releasing? {
      StaleReleaseIsFatal(s, r);
    } else if s.requests[r].pc.RollingBack? {
      StaleRollbackIsFatal(s, r);
    } else if KeysStayUnique(s) {
      UniqueAfter(s, Raise(r));
      StaleRollbackIsFatal(DoRaise(s, r), r);
    }
  }

  /**
    Losing a claim, at any moment: every continuation still has one row per key if and only if no
    message was committed under that key and no request holds it.
  */
  lemma LosingAClaimIsHarmlessIff(s: State, key: ClaimKey)
    requires Inv(s)
    ensures KeysStayUnique(DoLoseClaim(s, key))
            <==> forall r | r in s.requests && s.requests[r].key == key :: r !in s.rows && !s.requests[r].pc.HoldsClaim()
  {
    var t := DoLoseClaim(s, key);
    if r :| r in s.requests && s.requests[r].key == key && (r in s.rows || s.requests[r].pc.HoldsClaim()) {
      assert RequestOk(s, r);
      if r in s.rows {
        UnclaimedRowIsFatal(t, r);
      } else {
        StaleHolderIsFatal(t, r);
      }
    } else {
      forall r | r in t.requests ensures RequestOk(t, r) {
        assert RequestOk(s, r);
      }
      MediaInvFrame(s, t);
      forall acts | TameRun(t, acts) ensures OneRowPerKey(Run(t, acts)) {
        InvRun(t, acts);
        InvPromises(Run(t, acts));
      }
    }
  }

  ghost predicate BytesStaySafe(s: State) {
    forall acts | TameRun(s, acts) :: BoundHasBytes(Run(s, acts))
  }

  /**
    Killing a running sweep: in every continuation bound attachments keep their bytes if and only
    if the sweep had not yet deleted any object.
  */
  lemma KillingASweepIsHarmlessIff(s: State, w: SweepId)
    requires Inv(s) && w in s.sweeps && !s.sweeps[w].pc.Ended?
    ensures BytesStaySafe(DoKillSweep(s, w)) <==> s.sweeps[w].purged == {}
  {
    var t := DoKillSweep(s, w);
    if m :| m in s.sweeps[w].purged {
      assert SweepOk(s, w) && LockOk(s, m);
      var id := FreshId(s.requests.Keys);
      var key := FreshKey(s, s.media[m].uploader);
      SoloCommits(t, id, key, [m]);
      var u := Run(t, SoloActs(id, key, [m]));
      assert m in u.media && u.media[m].message.Some? && m !in u.objects;
      assert !BoundHasBytes(u);
    } else {
      assert ClaimInv(t) by { ClaimInvFrame(s, t); }
      MediaInvKillSweep(s, w);
      forall acts | TameRun(t, acts) ensures BoundHasBytes(Run(t, acts)) {
        InvRun(t, acts);
        InvPromises(Run(t, acts));
      }
    }
  }

  /** Some idempotency key of this sender is unclaimed. */
  lemma FreshKey(s: State, sender: UserId) returns (key: ClaimKey)
    ensures key.sender == sender && key !in s.claims
  {
    var n := LongerThanAll(s.claims.Keys);
    key := ClaimKey(sender, seq(n, _ => 'k'));
  }

  lemma {:induction false} LongerThanAll(keys: set<ClaimKey>) returns (n: nat)
    ensures forall k | k in keys :: |k.token| < n
  {
    n := 0;
    if keys != {} {
      var k :| k in keys;
      var below := LongerThanAll(keys - {k});
      n := if |k.token| < below then below else |k.token| + 1;
      assert forall j | j in keys :: j == k || j in keys - {k};
    }
  }
}
