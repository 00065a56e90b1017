# Chat backend: verified models of its protocols

The backend keeps several small protocols in Redis and Postgres at once. This project models them in
Dafny and proves what they keep over every interleaving or every call sequence. Redis is a map with
atomic commands and scripts; Postgres is committed rows plus row locks; the object store is a set.

- `MessageSend*.dfy`, `MediaSweep.dfy`: idempotent message sends that race on a Redis claim, bind
  attachments under row locks and compete with the orphaned-media sweep. Every send, sweep, crash,
  lost reply and rollback is a step of one machine (`MessageSend.Step`). The machine is total, so a
  run is any sequence of actions. Two environment assumptions (`MessageSend.Tame`) are needed: Redis
  loses no claim, and a sweep that has deleted bytes lives to commit. For each there is a theorem that
  says, for every reachable state, exactly when breaking it does harm. The second is not the
  environment's alone to keep: `MessageSendDeadlock.dfy` shows the locks of a send and a sweep break it.
- `TokenBucket.dfy`: the rate-limit script. Whether a call is allowed is characterised through the
  grants in all windows ending at it.
- `FrameLimiter.dfy`, `WebSocketLoop.dfy`: the frame guard of a connection and the receive loop that uses it.
- `Sessions.dfy`, `SessionRaces.dfy`, `SessionEndings.dfy`: the durable session store, one call at a
  time, and then with the reads and the write of every login, refresh, revocation and deactivation as
  separate steps that others interleave with.
- `RevocationCache.dfy`, `WebSocketRevocation.dfy`: the cache in front of the session rows, whose fills,
  evictions and refreshes each take two steps, and the sockets that consult it.
- `Presence.dfy`: the reference count of a user's connections, with expiry, restarts and crashes.
- `Channels.dfy`, `SystemAdmins.dfy`: membership with admin succession; the last-system-admin guard
  as interleaved transactions under READ COMMITTED.
- `Digits.dfy`, `DmIdentity.dfy`, `CursorCodec.dfy`, `Pagination.dfy`, `HistoryWalk.dfy`: UUID text and
  pub/sub topics, the cursor codec, the keyset query, and a client walking history by `next_cursor`.

Times are exact reals that do not go back. `dafny verify dfyconfig.toml` checks everything.

## Where the code is weaker than its wording

- The cursor regex ends in `$`, which also matches before one final newline, and the base64 decoder
  skips that newline: each position has exactly two accepted spellings (`CursorCodec.SpellingsOf`).
  The comment above the regex says that anything outside the alphabet is rejected.
- Releasing an idempotency claim deletes the key whatever it holds. If Redis loses a claim while its
  request is in flight, a retry can commit, the first request can then fail and delete the retry's claim,
  and a third request commits a second row, though nothing was committed when the claim was lost
  (`MessageSendExactness.LosingAClaimIsHarmlessIff` is the exact condition).
- Refreshing reads the session without a lock and updates it by primary key: two refreshes of one token
  that both read before either writes are both accepted (`SessionRaces.TwoRefreshesRace`).
- Login reads the account and later inserts the session, and a deactivation lists the sessions it will
  revoke before it commits. A login that straddles the commit, or begins and ends between the listing
  and the commit, leaves a deactivated user with a live session (`SessionEndings.LateLogin`,
  `SessionEndings.LoginInside`), which works again after reactivation
  (`SessionEndings.DeactivationEndsSessionIff`). `SessionEndings.DeactivationShutsOutIff` says exactly when.
- Revoking reads whether a session is revoked and later stamps it by primary key: of two revocations that
  both read before either writes, the second moves the first one's time (`SessionEndings.TwoRevocations`).
- Neither the update that binds attachments nor the sweep's locking read fixes an order among rows. A send
  and a sweep can wait for each other with bytes already deleted, and Postgres has to abort one: aborting
  the sweep is the abort that leaves a message without bytes (`MessageSendDeadlock.DeadlockHappens`,
  `MessageSendDeadlock.AbortingTheSweepIsFatal`).
- A session can be asked about before the login that returned its token has committed: the cached answer
  is False and wrong from the commit on (`RevocationCache.AskedTooEarly`).
- A refresh that reads a session before its expiry and writes after it makes an expired session active
  again, so an expired session is inactive for good only when no such refresh is in flight
  (`RevocationCache.InactivityIsPermanentIff`).
- After a Redis restart the first ping recreates the presence key for one connection only
  (`Presence.RestartIsHarmlessIff`, `Presence.RestartLosesAtMost`). A crash or a lost decrement leaves a
  surplus that lasts while any connection keeps pinging, and then one TTL (`Presence.SurplusLasts`).
- For a request larger than the capacity the rate-limit script advises a finite wait, although such a
  request is never allowed (`TokenBucket.OversizeNeverAllowed`). This concerns the script alone: the
  service asks for one token at a time and every capacity is at least five.
- Revoking a session and evicting its cache entry is said to take effect in the same request cycle.
  It does if and only if no reader is holding an active verdict it has not written yet
  (`RevocationCache.InvalidationSettlesIff`; `RevocationCache.FillOvertakesRevocation` reaches that case).

## Model

| member | source | states |
|---|---|---|
| MessageSendTheorems.EveryRunKeepsThePromises | backend/app/services/messages.py:435-626 | After every run from the empty state: at most one committed row per (sender, key); every success names that row and `created` only the request's own; a failure or timeout wrote nothing; `message.created` at most once per row and only for committed rows; bound attachments have their bytes; a row binds exactly its distinct, owned attachments |
| MessageSendTheorems.NothingIsUndone | backend/app/services/messages.py:545-626 | Rows, publications, bindings and given answers survive every continuation: nothing is rebound, retracted or answered twice |
| MessageSendTheorems.InvPromises | backend/app/services/messages.py:435-626 | The inductive invariant implies each promise in any state, not only in reachable ones |
| MessageSendTheorems.InvRun | backend/app/services/messages.py:545-626 | The invariant is kept by every tame run from any state satisfying it |
| MessageSendTheorems.ExtendsStep | backend/app/services/messages.py:380-432 | No step of a send or a sweep removes a row, a publication, a binding or a final answer |
| MessageSendSafety.ClaimInvStep | backend/app/services/messages.py:292-312 | Every step keeps the claim discipline: a key with a committed or in-flight insert points at it, so no second insert can start under that key |
| MessageSendMedia.MediaInvStep | backend/app/services/media_sweep.py:129-190 | Every step keeps the lock discipline between binds and sweeps: a row lock has one holder, a sweep never holds a bound row, bytes are missing only for rows a sweep still holds or has deleted |
| MessageSendMedia.MediaInvCommit | backend/app/services/messages.py:380-432 | Committing a send binds all its attachments at once and leaves every other send and sweep consistent |
| MessageSendMedia.SweepRemovesOrphans | backend/app/services/media_sweep.py:141-190 | The rows a sweep's commit removes are exactly those it deleted; each was unbound, held by no send, and without bytes |
| MessageSendProgress.EveryStepFalls | backend/app/services/messages.py:435-513 | Any step of any participant leaves a request where it is or lowers a rank fixed by the loop bounds and its media count |
| MessageSendProgress.SendIsBounded | backend/app/services/messages.py:545-626 | A send that has arrived moves at most a fixed number of times in every interleaving, so the claim and resolve loops end |
| MessageSendProgress.NextStep | backend/app/services/messages.py:545-626 | A send that has not ended always has a next step of its own that is no failure, unless it waits for row locks |
| MessageSendReplay.UndecidedReplays | backend/app/services/messages.py:435-621 | Once a message is committed under a key, a request of that key that has not got past its claim, in any round and attempt, never inserts and never times out in any continuation: it answers with that message or its own infrastructure fails |
| MessageSendReplay.AnswersAlone | backend/app/services/messages.py:466-513 | Left to itself such a request does answer, with the committed message |
| MessageSendReplay.LateRetryReplays | backend/app/services/messages.py:435-513 | So it is with a retry that arrives after the commit |
| MessageSendReplay.AnsweredAtOnce | backend/app/services/messages.py:470-481 | The first claim read of a round leads straight to the committed message |
| MessageSendReplay.EarlyFailureEnds | backend/app/services/messages.py:470-513 | An error before the claim is won ends the request and changes nothing else |
| MessageSendReplay.FailedSendFreesItsKey | backend/app/services/messages.py:593-598 | An error from the claim to the commit leaves no row, binding or lock, and frees exactly its own key |
| MessageSendReplay.TimeOutIsEarned | backend/app/services/messages.py:466-513 | In every interleaving a request that times out was scheduled for all attempts at one claim or all rounds of claiming |
| MessageSendReplay.PublishedForGood | backend/app/services/messages.py:600-608 | A publication that is not lost is there in every continuation, with the answer `created` |
| MessageSendExactness.LosingAClaimIsHarmlessIff | backend/app/services/messages.py:311-312 | If Redis loses a claim at any moment, one row per key stays guaranteed in every continuation if and only if nothing was committed under that key and no request holds it |
| MessageSendExactness.StaleReleaseIsFatal | backend/app/services/messages.py:593-598 | From a state where a request is about to release a claim it has lost, some continuation commits two rows under the key |
| MessageSendExactness.KillingASweepIsHarmlessIff | backend/app/services/media_sweep.py:129-190 | If a sweep dies, bound attachments are guaranteed their bytes if and only if it had not yet deleted an object |
| MessageSendDeadlock.DeadlockHappens | backend/app/services/media_sweep.py:141-151 | A fault-free run from the start in which a send and a sweep that has deleted bytes each wait for a row the other holds |
| MessageSendDeadlock.DeadlockLasts | backend/app/services/messages.py:380-432 | Whatever everybody else does, neither of the two gets further until the send is aborted, or the sweep is |
| MessageSendDeadlock.AbortingTheSweepIsFatal | backend/app/services/media_sweep.py:158-190 | From any such deadlock, aborting the sweep lets some continuation bind an attachment without bytes |
| MessageSendExactness.SoloCommits | backend/app/services/messages.py:545-608 | A send without contention on a fresh key commits and binds all its attachments, for any distinct list of bindable ones: the machine is not stuck |
| MessageSendExactness.SoloPublishes | backend/app/services/messages.py:600-608 | And then it publishes the message and answers `created` |
| MediaSweep.MediaLibrary.SweepOrphanedMedia | backend/app/services/media_sweep.py:129-196 | One batch without interference removes exactly the batch rows that are unbound and whose object could be deleted, with their objects, changes no other row, and reports the counts scanned, purged and failed |
| MediaSweep.OneMoreRow | backend/app/services/media_sweep.py:140-185 | How one more row changes what a batch deletes and what it fails to purge |
| MediaSweep.DeadAre | backend/app/services/media_sweep.py:146-178 | A batch deletes exactly its unbound rows whose object could be deleted, and is stuck on exactly its unbound rows whose object could not |
| TokenBucket.BucketKey.Consume | backend/app/core/rate_limit.py:79-121 | The script's new hash, expiry and verdict as functions of the bucket Redis sees: what was last written, until it expires |
| TokenBucket.MakeCalls | backend/app/core/rate_limit.py:203-219 | The script called at any non-decreasing times on a new key, which expires as Redis expires it, decides every call as the bucket of the results below does |
| TokenBucket.TokensInRange | backend/app/core/rate_limit.py:95-100 | Tokens lie between zero and the capacity after every call sequence |
| TokenBucket.WindowBound | backend/app/core/rate_limit.py:79-121 | In any window of calls i..j at most capacity + rate * length are allowed |
| TokenBucket.AllowedIffFits | backend/app/core/rate_limit.py:95-115 | A call is allowed if and only if granting it breaks the bound of no window ending at it |
| TokenBucket.ConformingCallerNeverRefused | backend/app/core/rate_limit.py:95-115 | A caller whose calls respect the bound in every window is never refused |
| TokenBucket.RetryAfterIsLeast | backend/app/core/rate_limit.py:104-115 | After a refusal, a call k whole seconds later is allowed if and only if k is at least the advertised wait |
| TokenBucket.OversizeNeverAllowed | backend/app/core/rate_limit.py:104-115 | A request above the capacity is refused whatever the bucket holds |
| TokenBucket.ExpiryIsInvisible | backend/app/core/rate_limit.py:117-118 | With ttl * rate at least the capacity, a key that expires gives the same decisions as one that never does, on every call sequence |
| TokenBucket.GoingBackIsStandingStill | backend/app/core/rate_limit.py:95-98 | With clocks that go back every call is decided as on a clock that stands still meanwhile, so the window results hold of any times when lengths are counted on that clock |
| TokenBucket.PoliciesQualify | backend/app/core/rate_limit.py:137-163 | Every shipped policy satisfies the hypotheses of these theorems |
| TokenBucket.PolicyLimits | backend/app/core/rate_limit.py:137-163 | In any window of L seconds at most 20 + L message sends, 5 + L/60 authentications, 20 + L/3 uploads and 60 + L reads are allowed |
| FrameLimiter.FrameRateLimiter.RecordAndCheck | backend/app/ws/rate_limit.py:26-40 | Over the limit exactly when the frames of the whole history at or after now - window outnumber the maximum; the deque is exactly that suffix |
| FrameLimiter.WindowCounts | backend/app/ws/rate_limit.py:36-40 | A window opening at an index of the history counts exactly the frames from that index on |
| FrameLimiter.CountsThem | backend/app/ws/rate_limit.py:36-40 | The count is the number of recorded frames at or after the cutoff |
| FrameLimiter.OneFrame | backend/app/ws/rate_limit.py:33-38 | Evicting from the kept suffix alone finds the start of the window over the whole history |
| FrameLimiter.EvictOld | backend/app/ws/rate_limit.py:37-38 | The loop drops a prefix of frames that are all too old and stops at one that is not |
| WebSocketLoop.ConnectionLoop | backend/app/ws/router.py:263-350 | The loop's end time, close code and subscriptions, with the frame guard expressed over the whole frame history |
| WebSocketLoop.LoopEndsRight | backend/app/ws/router.py:279-350 | The loop goes on through frames that come before the deadline of the last ping, stay within the limit and pass their checks, and ends at the first that does not, or at the deadline, with the code that says why; subscribed are exactly the own topic and those whose last authorized join or leave was a join |
| WebSocketLoop.OpenMeansCheckedRecently | backend/app/ws/router.py:279-340 | While a socket is open, token, session and user checks passed within the last heartbeat timeout, whatever other frames the client sends |
| WebSocketLoop.ClosesWithinTimeout | backend/app/ws/auth.py:154-187 | If no check passes after time r, the socket closes by r plus the timeout |
| WebSocketRevocation.OpenSocketsAreFresh | backend/app/ws/auth.py:154-187 | In every run an open socket was vouched for by the session check less than one timeout ago, and its token expired and its user was deactivated no longer ago than that |
| WebSocketRevocation.RevokedSessionHasNoSocketAfterTimeout | backend/app/ws/router.py:263-350 | A session revoked and evicted with no fill in progress has no open socket one timeout later, in every run |
| WebSocketRevocation.RevokedSessionHasNoSocketAfterTtlAndTimeout | backend/app/ws/router.py:263-350 | Even if a fill overtook the eviction or none took place: one cache TTL and one timeout after the last fill that was pending, a revoked session has no open socket |
| WebSocketRevocation.ExpiredSessionHasNoSocketAfterTtlAndTimeout | backend/app/ws/auth.py:154-187 | So it is from its expiry on with a session that no refresh is about to extend, though nobody evicts it |
| WebSocketRevocation.ConnectOpensIff | backend/app/ws/auth.py:104-152 | A connect opens a socket, with a full timeout, exactly when token, session check and user pass, and touches no other |
| WebSocketRevocation.PingKeepsIff | backend/app/ws/auth.py:154-187 | A ping keeps its socket, renewed, exactly when token, session check and user all pass; otherwise it closes it, and no other |
| WebSocketRevocation.OnlyPingsRenew | backend/app/ws/router.py:300-350 | No frame but a ping moves a socket's deadline |
| WebSocketRevocation.TickReaps | backend/app/ws/router.py:279-300 | Time closes exactly the sockets whose deadline it reaches |
| WebSocketRevocation.ConsultAnswers | backend/app/services/session_revocation.py:64-106 | A consultation of the session check gives exactly one answer, at once, and it is the verdict the socket acts on |
| RevocationCache.EveryAnswerIsJustified | backend/app/services/session_revocation.py:49-118 | Every answer is what Postgres said when read, through an entry written less than one TTL before; after True any revocation committed later than that read; after False the session is inactive unless a refresh straddling its expiry revived it or its row was committed only after the question |
| RevocationCache.ExpiredIsNeverActive | backend/app/services/session_revocation.py:60-61 | With e the latest expiry a session is ever given: in every run every True answer was read before e, and one at or after e plus the TTL comes from an entry written after e |
| RevocationCache.ActiveUntilExpiry | backend/app/services/session_revocation.py:60-61 | A session neither revoked nor refreshed reads active exactly until it expires |
| RevocationCache.FillServes | backend/app/services/session_revocation.py:98-118 | What a fill has written is what the cache answers for all of its time to live |
| RevocationCache.InactivityIsPermanentIff | backend/app/services/auth.py:178-192 | An inactive session stays inactive in every continuation if and only if it is revoked or no refresh in flight would set an expiry still to come |
| RevocationCache.InvalidationSettlesIff | backend/app/services/session_revocation.py:121-138 | After commit-then-invalidate every later answer is False, in every continuation, if and only if no reader held an unwritten active verdict and the session is over for good, as a revoked one always is |
| RevocationCache.FillOvertakesRevocation | backend/app/services/session_revocation.py:101-106 | A run from the start reaches a revoked session with an active verdict still to be written |
| RevocationCache.AskedTooEarly | backend/app/services/session_revocation.py:49-61 | A run from the start in which a session asked about before its row is committed is answered False and is active afterwards |
| RevocationCache.SettledRun | backend/app/services/session_revocation.py:64-138 | Once no True verdict is cached or pending for an inactive session, none ever is again |
| RevocationCache.InvRun | backend/app/services/session_revocation.py:64-118 | Cache entries, unwritten verdicts and answers stay justified by the durable rows in every run |
| Sessions.SessionService.Login | backend/app/services/auth.py:95-157 | Unknown user or wrong password, then a deactivated account, then a pending password change are refused in this order and change nothing; otherwise exactly one session is inserted, for that user, expiring after the TTL |
| Sessions.SessionService.Refresh | backend/app/services/auth.py:160-207 | Accepted exactly when an unrevoked, unexpired session of an active user holds the token, which is then rotated and the expiry slid |
| Sessions.SessionService.RevokeSession | backend/app/services/sessions.py:199-231 | Idempotent revocation for the owner only; the first revocation time stays |
| Sessions.SessionService.RevokeSessionsForUser | backend/app/services/sessions.py:144-182 | The loop revokes exactly the user's unrevoked sessions but the kept one, and returns them |
| Sessions.SessionService.Deactivate | backend/app/services/admin_users.py:185-212 | The account is inactive and all its sessions are revoked; nothing changes for an inactive account |
| Sessions.SessionService.Reactivate | backend/app/services/admin_users.py:215-229 | Only the flag changes, and the answer says whether it did; no session comes back |
| SessionRaces.TokenAcceptedTwiceIff | backend/app/services/auth.py:178-192 | In every run a refresh token is accepted twice if and only if two requests that complete both read it before its first write |
| SessionRaces.AcceptedAgainIff | backend/app/services/auth.py:178-192 | Once a refresh has written, its token can be accepted again in some continuation if and only if another refresh is in flight with it at that moment |
| SessionRaces.TwoRefreshesRace | backend/app/services/auth.py:178-192 | A run from the start in which one token is accepted twice |
| SessionRaces.EverySessionHadItsPassword | backend/app/services/auth.py:117-142 | In every run the user of each session has presented the right password to a login of that run |
| SessionRaces.LoginReadIff | backend/app/services/auth.py:127-134 | A login gets past its read exactly with an existing, active user, the right password and none to change |
| SessionRaces.RefreshReadIff | backend/app/services/auth.py:178-183 | A refresh gets past its first read exactly with an unrevoked, unexpired session holding the token |
| SessionRaces.CheckUserIff | backend/app/services/auth.py:185-187 | And past its second exactly with an active user |
| SessionRaces.AloneRefreshes | backend/app/services/auth.py:160-207 | With nothing in between, reading the session, reading the user and writing is the whole refresh |
| SessionRaces.AloneLogsIn | backend/app/services/auth.py:95-157 | With nothing in between, reading the user and inserting the session is the whole login |
| SessionEndings.AloneRevokes | backend/app/services/sessions.py:199-231 | With nothing in between, reading and stamping one session is the whole revocation |
| SessionEndings.AloneRevokesAll | backend/app/services/sessions.py:144-182 | With nothing in between, listing and stamping is the whole bulk revocation |
| SessionEndings.AloneDeactivates | backend/app/services/admin_users.py:185-212 | With nothing in between, loading, listing and committing is the whole deactivation |
| SessionEndings.DeactivatedHoldNoSession | backend/app/services/admin_users.py:201-212 | In every run in which no login is in flight when a deactivation of its user commits, and none commits between that listing and that commit, no deactivated user holds an unrevoked session |
| SessionEndings.DeactivationShutsOutIff | backend/app/services/admin_users.py:201-212 | After a deactivation commits its user stays without a live session until reactivated, in every continuation, if and only if no login of theirs was in flight at the commit and every unrevoked session was among those listed |
| SessionEndings.LateLogin | backend/app/services/auth.py:117-142 | A run from the start in which a login straddling the commit leaves a deactivated user with a live session |
| SessionEndings.LoginInside | backend/app/services/sessions.py:164-176 | A run from the start in which a login begun and committed between listing and commit does so, with none in flight at the commit |
| SessionEndings.RevocationIsForever | backend/app/services/sessions.py:144-231 | No run removes a session, changes its owner or clears its revocation |
| SessionEndings.RevocationTimeStaysIff | backend/app/services/sessions.py:216-224 | A revocation's time stays as it is in every continuation if and only if no revocation or deactivation in flight will stamp the session with another |
| SessionEndings.TwoRevocations | backend/app/services/sessions.py:216-224 | A run from the start in which a second revocation moves the time of the first |
| SessionEndings.DeactivationEndsSessionIff | backend/app/services/admin_users.py:201-229 | A session its user holds when a deactivation commits is never refreshable again, whatever was in flight and even after reactivation, if and only if it was revoked already or listed |
| SessionEndings.OneLockEachRun | backend/app/services/admin_users.py:203-204 | In every run at most one deactivation of a user is between its flag update and its commit |
| Presence.PresenceService.HandleConnect | backend/app/services/presence.py:231-263 | The new key, and an online event exactly when the count became 1 |
| Presence.PresenceService.HandleHeartbeat | backend/app/services/presence.py:266-284 | A ping renews the key, or recreates it at 1, and publishes nothing |
| Presence.PresenceService.HandleDisconnect | backend/app/services/presence.py:287-325 | The new key, and an offline event with a durable last-seen exactly when nothing remains or Redis fails |
| Presence.CountNeverExceedsLive | backend/app/services/presence.py:124-167 | With every decrement applied and no process crash, a present key counts at least 1 and at most the live connections, under restarts, expiry and lost increments |
| Presence.CountIsExact | backend/app/services/presence.py:231-325 | Without faults and with the heartbeat timeout below the TTL, a user is online exactly while connections live, the count equals their number, and transitions alternate |
| Presence.OnlineMeansRecentScript | backend/app/services/presence.py:216-228 | Whatever crashes, restarts or fails, online means a connect or ping script ran less than one TTL ago |
| Presence.DeficitNeverGrows | backend/app/services/presence.py:124-167 | Over any orderly run the count never exceeds the live connections, falls short by no more than at the start, and online means more connections than are missed |
| Presence.RestartLosesAtMost | backend/app/services/presence.py:138-151 | With n connections live at a Redis restart, every orderly run after it misses at most n, never reads online without a connection, and reads online with more than n |
| Presence.AlwaysReadsRightIff | backend/app/services/presence.py:216-228 | Every orderly continuation reads online exactly while connections live, if and only if no connection is missed now |
| Presence.RestartIsHarmlessIff | backend/app/services/presence.py:138-151 | A restart is harmless if and only if nothing was connected; after the first healing ping, if and only if that connection was the only one |
| Presence.RestartCanUndercount | backend/app/services/presence.py:138-151 | A witness: one restart, and a live connection reads as offline |
| Presence.SurplusLasts | backend/app/services/presence.py:124-167 | Over any orderly run a surplus stays exactly as it is until the key expires, so as long as some connection is always live; the user reads online exactly while a connection lives or a surplus does |
| Presence.SurplusFades | backend/app/services/presence.py:216-228 | With every connection gone, a surplus reads online for the rest of the TTL since the last connect or ping, and no longer |
| Presence.NoSurplusIff | backend/app/services/presence.py:216-228 | From any over-counted state every orderly continuation reads online exactly while connections live, if and only if the surplus is zero |
| Presence.CrashIsHarmlessIff | backend/app/services/presence.py:154-167 | A crash leaves a surplus of exactly the connections it took, and is harmless if and only if it took none |
| Presence.ExactAndLong | backend/app/services/presence.py:231-325 | Every orderly run from the start ends in a state these results about restarts, crashes and lost decrements start from |
| Presence.LostDecrementLeavesOne | backend/app/services/presence.py:309-320 | A decrement that does not reach Redis leaves a surplus of one, which some continuation shows as online without a connection |
| Channels.ChannelService.CreateChannel | backend/app/services/channels.py:144-166 | The creator is the first member, as admin |
| Channels.ChannelService.RunSoleAdminSuccession | backend/app/services/channels.py:350-419 | In each channel in scope whose sole admin leaves, an earliest-joined other member becomes admin; no other channel or member changes; the promotions are reported exactly |
| Channels.ChannelService.JoinPublicChannel | backend/app/services/channels.py:442-491 | Outcomes in the order of the checks; a plain member row exactly on success |
| Channels.ChannelService.LeaveChannel | backend/app/services/channels.py:501-530 | Succession first when an admin leaves, then the row goes; idempotent otherwise |
| Channels.ChannelService.AddChannelMember | backend/app/services/channels.py:594-658 | The admin gate before the target lookup, then idempotent insertion |
| Channels.ChannelService.ChangeMemberRole | backend/app/services/channels.py:678-720 | The admin gate, then exactly the target's role, with no succession |
| Channels.ChannelService.RemoveChannelMember | backend/app/services/channels.py:734-782 | The admin gate, then succession for an admin target and removal |
| Channels.ChannelService.DeactivateUser | backend/app/services/admin_users.py:201-212 | Succession in every channel the user administers alone; memberships stay |
| Channels.AdminsAfterSuccession | backend/app/services/channels.py:350-419 | Succession keeps members and admins, and leaves an admin besides the leaver whenever someone else is in the channel |
| Channels.StrandedForever | backend/app/services/channels.py:350-530 | Over every run a channel that reaches zero admins never has one again, and a private one only loses members |
| Channels.OnlySelfDemotionStrands | backend/app/services/channels.py:678-720 | A step takes a channel with members left from some admin to none if and only if it is its sole admin's own demotion |
| Channels.RoleChangeStrandsIff | backend/app/services/channels.py:701-720 | A role change empties the admin set if and only if the sole admin demotes itself |
| Channels.GateSaysWhy | backend/app/services/channels.py:627-635 | Admin operations answer: no such channel; no admin, exactly for a stranded channel; caller no admin; each changes nothing |
| Channels.StrandedAnswersZeroAdmin | backend/app/services/channels.py:631-633 | Over every run each admin operation on a channel once stranded answers so and changes nothing |
| Channels.EveryChangeIsAccountedFor | backend/app/services/channels.py:442-782 | In every step a member enters only by creating, by joining a public channel as plain member or by an admin's hand; leaves only by themselves or by an admin's hand; changes role only by an admin's hand or by succession; and never changes their joining time |
| Channels.AnswersAreRight | backend/app/services/channels.py:442-782 | After an operation that passed its gate the member is in, out or in the role asked for; joining succeeds exactly for non-members of a public channel |
| Channels.SoleAdminIsSucceeded | backend/app/services/channels.py:383-419 | A sole admin who leaves, is removed or is deactivated while others are members is succeeded by a member who joined no later than any other |
| SystemAdmins.NeverLockedOut | backend/app/services/admin_users.py:117-138 | In every interleaving of deactivations and reactivations every committed state has a user who is System Admin and active |
| SystemAdminsAlone.LoneDeactivationSucceedsIff | backend/app/services/admin_users.py:192-212 | With no other transaction about, deactivating an active System Admin succeeds and changes that row alone if and only if there is another one; otherwise it answers so and changes nothing |
| SystemAdminsAlone.LoneTransactionEndsRight | backend/app/services/admin_users.py:185-229 | However a lone deactivation or reactivation of any user is scheduled, it ends with the right answer and exactly the right change: plain users are never refused, repeated flips change nothing |
| SystemAdminsAlone.LoneFinishes | backend/app/services/admin_users.py:185-229 | And it does end |
| SystemAdmins.CommitKeeps | backend/app/services/admin_users.py:192-204 | A committing deactivation leaves an active System Admin, and takes none that another transaction has counted |
| SystemAdmins.QuietStart | backend/app/services/admin_users.py:117-138 | The invariant holds initially if and only if there is an active System Admin |
| SystemAdmins.GuardsWaitUpwards | backend/app/services/admin_users.py:117-138 | A guard waiting on a guard that waits itself waits for a smaller row |
| SystemAdmins.GuardsNeverDeadlock | backend/app/services/admin_users.py:117-138 | A chain of waiting guards of any length never comes back to where it started |
| CursorCodec.RoundTrip | backend/app/core/pagination.py:99-148 | decode(encode(k)) == k for every key |
| CursorCodec.AcceptedIffCursor | backend/app/core/pagination.py:113-148 | Over all strings, decoding succeeds exactly on 32 alphabet letters with an in-range timestamp, with or without one final newline; the letters are the encoding of the decoded key; every failure is a cursor error |
| CursorCodec.CanonicalIffNoNewline | backend/app/core/pagination.py:56-63 | An accepted string is the encoding of its decoding if and only if it has no newline |
| CursorCodec.SpellingsOf | backend/app/core/pagination.py:113-148 | A string decodes to a key if and only if it is the key's encoding, or that and a newline |
| CursorCodec.PayloadOf | backend/app/core/pagination.py:132-139 | Of all strings of letters followed by padding and newlines, the lenient decoder gives 24 bytes exactly for 32 letters, namely the bytes they spell four to three |
| CursorCodec.Base64Reads | backend/app/core/pagination.py:107-110 | The base64url letters of whole byte triples read back as those bytes |
| CursorCodec.BytesSpell | backend/app/core/pagination.py:132-136 | Any whole groups of letters are the base64url spelling of the bytes they read as |
| CursorCodec.PayloadRoundTrip | backend/app/core/pagination.py:141-148 | Every 24-byte payload with an in-range timestamp is the payload of exactly the key read from it |
| CursorCodec.PackRoundTrip | backend/app/core/pagination.py:57-57 | Signed 64-bit big-endian packing reads back |
| CursorCodec.AlphabetInOrder | backend/app/core/pagination.py:58-63 | The letters are those of base64url, in its order |
| CursorCodec.TimestampRange | backend/app/core/pagination.py:141-146 | The accepted timestamps are those of the years 1 to 9999 |
| Pagination.ResolveLimit | backend/app/core/pagination.py:151-165 | No limit means 50, 1 to 100 stay, more means 100, less than 1 is a limit error |
| Pagination.SelectsByTopic | backend/app/services/messages.py:838-849 | A history query selects exactly the undeleted messages whose pub/sub topic is the conversation's |
| Pagination.SortedHolds | backend/app/core/pagination.py:183-189 | The sorted history is strictly descending and holds exactly the visible keys |
| Pagination.DescendingIsUnique | backend/app/core/pagination.py:168-189 | A strictly descending sequence is determined by its elements, so the ordering leaves no choice |
| Pagination.FetchIsBlock | backend/app/core/pagination.py:192-227 | A page is the greatest rows past the cursor; if there are more it is full and every other remaining row lies below its last one; if not it holds them all |
| HistoryWalk.WalkFollowsKeys | backend/app/core/pagination.py:230-262 | Walking by cursor strings through the endpoint is walking by key positions: every cursor handed out decodes to the last row's key and no later request fails |
| HistoryWalk.WalkIsSound | backend/app/services/messages.py:866-903 | With any inserts and deletes between requests: newest first and, within an instant, greatest id first, strictly, so nothing comes twice; all past the start; each visible when some page was fetched; pages full until the last |
| HistoryWalk.WalkMissesNothing | backend/app/services/messages.py:866-903 | A finished walk returned every row past its start that stayed visible throughout |
| HistoryWalk.EveryWalkEnds | backend/app/core/pagination.py:214-248 | However the table changes, a walk over finitely many messages ends |
| HistoryWalk.WalkOfFixedTable | backend/app/core/pagination.py:192-262 | On a fixed table the pages concatenate to the sorted history as far as they have room, and the walk has ended exactly when all of it fits |
| HistoryWalk.RefusedIff | backend/app/api/messages.py:148-169 | A walk is refused exactly for a limit below 1 or a string that is no cursor |
| DmIdentity.TextOrderIsValueOrder | backend/app/core/redis_keys.py:53-54 | UUID text order is 128-bit value order, and texts are distinct |
| DmIdentity.TopicSpellsThePair | backend/app/services/messages.py:806-815 | The DM topic spells exactly the (least, greatest) pair the history is keyed by |
| DmIdentity.OneTopicPerPair | backend/app/core/redis_keys.py:41-55 | Two DM topics are equal if and only if the unordered pairs are |
| DmIdentity.HistoryIsTheTopic | backend/app/services/messages.py:838-849 | A row is in a DM's history if and only if it was published on that DM's topic, whichever side asks |
| DmIdentity.TopicsNeverCollide | backend/app/core/redis_keys.py:32-109 | Channel, DM, user and presence topics are equal only for the same subject |

## Left out

- HTTP and WebSocket routes, schemas, problem documents, logging, metrics and redaction: plumbing with one branch each.
- SMTP, the S3 client, image handling, bcrypt, JWT signing and SHA-256: foreign calls. Fresh tokens are distinct and hashing is injective by assumption; password and token validity are inputs.
- The pub/sub transport and relay: a published message is an appended event, and a lost publish is a step; a presence event is the attempt to publish it.
- Sends and sweeps are one state machine on values, because the point is their interleaving; `MediaSweep.MediaLibrary.SweepOrphanedMedia` is the sweep loop in its own imperative form, with nothing interfering.
- Content rules, channel membership and recipient checks of a send: they precede the claim and end the request without effect.
- Which rows a sweep scans: the age cutoff and batch size pick an arbitrary batch.
- A raised commit is taken to have committed nothing, and a failed object delete to have left the bytes.
- Expiry of an idempotency claim after its time to live: counted as losing the claim.
- Channel operations are atomic transactions: the concurrency of a plain member's leave, which takes no lock, with a succession is not modelled, nor are duplicate inserts caught by the primary key.
- Password changes and their effect on a login in flight; a bulk revocation's sessions are modelled, the password is not.
- The last-admin guard against account deactivation is in `SystemAdmins` and the revocation of sessions in `Sessions`; the two halves of `deactivate_user` are not composed. Deadlocks between a guard and the write of a target row out of id order end in an abort step, as does a failed transaction.
- The session check's Postgres read is one step with its row; the read of the user row in revalidation is taken at the same instant. A socket's own check is one instant; one that straddles an eviction counts as a fill in progress at it.
- Clock skew and float rounding: times, tokens and rates are exact reals; the script's stored decimal text is not modelled.
- Handling a WebSocket frame takes no time, and subscriptions are a set of topics.
- Base64 text longer than a payload and the standard alphabet's two extra characters are decoded as Python does, though the regex lets neither succeed; time zones are not modelled, a key's time is its microseconds.
- Message rows other than key, conversation and deletion; `list_*` pagination by offset; user search.
- Time-ordered id generation (`core/ids.py`): its library is not part of this model, and strict increase needs a no-carry hypothesis.
- Invites, password resets, profiles, bootstrap, media type sniffing and file names: easy members beside these.
- The frontend.
