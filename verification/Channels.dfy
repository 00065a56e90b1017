/**
  Channel membership, roles and sole-admin succession. Each operation is one transaction; the
  choice between members who joined at the same instant is left to the database.
*/
module Channels {

  type UserId = nat
  type ChannelId = nat

  datatype Option<T> = None | Some(value: T)

  datatype Role = Plain | Admin

  datatype Member = Member(role: Role, joinedAt: int)

  type Roster = map<UserId, Member>

  datatype Channel = Channel(isPrivate: bool, members: Roster)

  type Directory = map<ChannelId, Channel>

  function Admins(r: Roster): set<UserId> {
    set u | u in r && r[u].role == Admin
  }

  // ---------------------------------------------------------------- succession

  ghost predicate EarliestOther(r: Roster, leaver: UserId, heir: UserId) {
    && heir in r && heir != leaver
    && (forall u | u in r && u != leaver :: r[heir].joinedAt <= r[u].joinedAt)
  }

  /** What succession may make of a roster: a sole admin's earliest-joined other becomes admin. */
  ghost predicate Succeeds(r: Roster, leaver: UserId, t: Roster) {
    if Admins(r) == {leaver} && r.Keys != {leaver} then
      exists heir :: EarliestOther(r, leaver, heir) && t == r[heir := r[heir].(role := Admin)]
    else t == r
  }

  /** The succession of one user in every channel, as account deactivation runs it. */
  ghost predicate SucceedsEverywhere(d: Directory, leaver: UserId, e: Directory) {
    && e.Keys == d.Keys
    && (forall c | c in d :: e[c].isPrivate == d[c].isPrivate && Succeeds(d[c].members, leaver, e[c].members))
  }

  lemma {:induction false} EarliestExists(r: Roster, candidates: set<UserId>) returns (heir: UserId)
    requires candidates != {} && candidates <= r.Keys
    ensures heir in candidates && forall u | u in candidates :: r[heir].joinedAt <= r[u].joinedAt
  {
    var u :| u in candidates;
    heir := u;
    if candidates != {u} {
      assert candidates == (candidates - {u}) + {u};
      var h := EarliestExists(r, candidates - {u});
      heir := if r[h].joinedAt <= r[u].joinedAt then h else u;
    }
  }

  lemma AdminsAfterSuccession(r: Roster, leaver: UserId, t: Roster)
    requires Succeeds(r, leaver, t)
    ensures t.Keys == r.Keys && Admins(r) <= Admins(t)
    ensures leaver in Admins(r) && r.Keys != {leaver} ==> Admins(t) - {leaver} != {}
    ensures Admins(r) == {} ==> t == r
  {
    if Admins(r) == {leaver} && r.Keys != {leaver} {
      var heir :| EarliestOther(r, leaver, heir) && t == r[heir := r[heir].(role := Admin)];
      assert heir in Admins(t) - {leaver};
    } else if leaver in Admins(r) && Admins(r) != {leaver} {
      assert exists u :: u in Admins(r) && u != leaver;
    }
  }

  lemma HeirSucceeds(r: Roster, leaver: UserId, heir: UserId)
    requires Admins(r) == {leaver} && EarliestOther(r, leaver, heir)
    ensures Succeeds(r, leaver, r[heir := r[heir].(role := Admin)])
    ensures r[heir := r[heir].(role := Admin)] != r
  {
    assert heir !in Admins(r);
    assert r[heir := r[heir].(role := Admin)][heir] != r[heir];
  }

  lemma NobodySucceeds(r: Roster, leaver: UserId)
    requires Admins(r) != {leaver} || r.Keys - {leaver} == {}
    ensures Succeeds(r, leaver, r)
  {
    if Admins(r) == {leaver} {
      assert leaver in Admins(r);
      assert r.Keys == {leaver};
    }
  }

  // ---------------------------------------------------------------- operations

  datatype Op =
    | Create(channel: ChannelId, isPrivate: bool, creator: UserId, now: int)
    | Join(channel: ChannelId, user: UserId, now: int)
    | Leave(channel: ChannelId, user: UserId)
    | AddMember(channel: ChannelId, caller: UserId, target: UserId, role: Role, targetExists: bool, now: int)
    | ChangeRole(channel: ChannelId, caller: UserId, target: UserId, role: Role)
    | Remove(channel: ChannelId, caller: UserId, target: UserId, targetExists: bool)
    | Deactivate(user: UserId)

  datatype Outcome =
    | Created | Joined | AlreadyMember | IsPrivate | ChannelNotFound
    | Left | NotMember
    | Added | UserNotFound | CallerNotAdmin | ZeroAdmin
    | Updated | NoChange | TargetNotMember
    | Removed
    | Deactivated

  /** The admin gate shared by the three admin operations, on the locked admin set. */
  function Gate(d: Directory, channel: ChannelId, caller: UserId): Option<Outcome> {
    if channel !in d then Some(ChannelNotFound)
    else if Admins(d[channel].members) == {} then Some(ZeroAdmin)
    else if caller !in Admins(d[channel].members) then Some(CallerNotAdmin)
    else None
  }

  function Reroster(d: Directory, c: ChannelId, r: Roster): Directory
    requires c in d
  {
    d[c := d[c].(members := r)]
  }

  /** Departure: succession first if the departing member is an admin, then the row goes. */
  ghost predicate Departs(d: Directory, c: ChannelId, u: UserId, e: Directory)
    requires c in d && u in d[c].members
  {
    exists r :: Succeeds(d[c].members, u, r) && e == Reroster(d, c, r - {u})
  }

  /** What each operation may do and must answer. */
  ghost predicate Next(d: Directory, op: Op, e: Directory, out: Outcome) {
    match op
    case Create(c, private, u, now) =>
      c !in d ==> out == Created && e == d[c := Channel(private, map[u := Member(Admin, now)])]
    case Join(c, u, now) =>
      if c !in d then out == ChannelNotFound && e == d
      else if u in d[c].members then out == AlreadyMember && e == d
      else if d[c].isPrivate then out == IsPrivate && e == d
      else out == Joined && e == Reroster(d, c, d[c].members[u := Member(Plain, now)])
    case Leave(c, u) =>
      if c !in d || u !in d[c].members then out == NotMember && e == d
      else out == Left && Departs(d, c, u, e)
    case AddMember(c, caller, u, role, exists_, now) =>
      if Gate(d, c, caller).Some? then out == Gate(d, c, caller).value && e == d
      else if !exists_ then out == UserNotFound && e == d
      else if u in d[c].members then out == AlreadyMember && e == d
      else out == Added && e == Reroster(d, c, d[c].members[u := Member(role, now)])
    case ChangeRole(c, caller, u, role) =>
      if Gate(d, c, caller).Some? then out == Gate(d, c, caller).value && e == d
      else if u !in d[c].members then out == TargetNotMember && e == d
      else if d[c].members[u].role == role then out == NoChange && e == d
      else out == Updated && e == Reroster(d, c, d[c].members[u := d[c].members[u].(role := role)])
    case Remove(c, caller, u, exists_) =>
      if Gate(d, c, caller).Some? then out == Gate(d, c, caller).value && e == d
      else if !exists_ then out == UserNotFound && e == d
      else if u !in d[c].members then out == NotMember && e == d
      else out == Removed && Departs(d, c, u, e)
    case Deactivate(u) =>
      out == Deactivated && SucceedsEverywhere(d, u, e)
  }

  /** Succession has run in the channels of `done` and in no other. */
  ghost predicate SucceededIn(d: Directory, done: set<ChannelId>, leaver: UserId, e: Directory) {
    && e.Keys == d.Keys
    && (forall c | c in d :: e[c].isPrivate == d[c].isPrivate)
    && (forall c | c in d && c in done :: Succeeds(d[c].members, leaver, e[c].members))
    && (forall c | c in d && c !in done :: e[c] == d[c])
  }

  function Changed(d: Directory, e: Directory): set<ChannelId> {
    set c | c in e && c in d && e[c] != d[c]
  }

  lemma OneMoreSucceeded(d: Directory, done: set<ChannelId>, leaver: UserId, e: Directory, c: ChannelId, r: Roster)
    requires SucceededIn(d, done, leaver, e) && c in d && c !in done && Succeeds(d[c].members, leaver, r)
    ensures SucceededIn(d, done + {c}, leaver, Reroster(e, c, r))
    ensures r == d[c].members ==> Reroster(e, c, r) == e
    ensures r != d[c].members ==> Changed(d, Reroster(e, c, r)) == Changed(d, e) + {c}
  {
  }

  /** The service, mutating membership rows in place. */
  class ChannelService {
    var channels: Directory

    constructor ()
      ensures channels == map[]
    {
      channels := map[];
    }

    method CreateChannel(c: ChannelId, isPrivate: bool, creator: UserId, now: int) returns (out: Outcome)
      requires c !in channels
      modifies this
      ensures Next(old(channels), Create(c, isPrivate, creator, now), channels, out)
    {
      channels := channels[c := Channel(isPrivate, map[creator := Member(Admin, now)])];
      out := Created;
    }

    /** Succession in the given channels, one after the other; `promoted` lists where it happened. */
    method RunSoleAdminSuccession(leaver: UserId, scope: set<ChannelId>) returns (promoted: set<ChannelId>)
      requires scope <= channels.Keys
      modifies this
      ensures SucceededIn(old(channels), scope, leaver, channels)
      ensures promoted == Changed(old(channels), channels)
    {
      var todo := scope;
      promoted := {};
      while todo != {}
        invariant todo <= scope && SucceededIn(old(channels), scope - todo, leaver, channels)
        invariant promoted == Changed(old(channels), channels)
        decreases todo
      {
        var c :| c in todo;
        var r := channels[c].members;
        var others := r.Keys - {leaver};
        if Admins(r) == {leaver} && others != {} {
          ghost var h := EarliestExists(r, others);
          var heir :| heir in others && forall u | u in others :: r[heir].joinedAt <= r[u].joinedAt;
          HeirSucceeds(r, leaver, heir);
          OneMoreSucceeded(old(channels), scope - todo, leaver, channels, c, r[heir := r[heir].(role := Admin)]);
          channels := Reroster(channels, c, r[heir := r[heir].(role := Admin)]);
          promoted := promoted + {c};
        } else {
          NobodySucceeds(r, leaver);
          OneMoreSucceeded(old(channels), scope - todo, leaver, channels, c, r);
        }
        assert scope - (todo - {c}) == scope - todo + {c};
        todo := todo - {c};
      }
    }

    method DepartFrom(c: ChannelId, u: UserId)
      requires c in channels && u in channels[c].members
      modifies this
      ensures Departs(old(channels), c, u, channels)
    {
      if channels[c].members[u].role == Admin {
        var _ := RunSoleAdminSuccession(u, {c});
      }
      var r := channels[c].members;
      assert Succeeds(old(channels)[c].members, u, r);
      channels := Reroster(channels, c, r - {u});
      assert channels == Reroster(old(channels), c, r - {u});
    }

    method JoinPublicChannel(c: ChannelId, u: UserId, now: int) returns (out: Outcome)
      modifies this
      ensures Next(old(channels), Join(c, u, now), channels, out)
    {
      if c !in channels {
        return ChannelNotFound;
      }
      if u in channels[c].members {
        return AlreadyMember;
      }
      if channels[c].isPrivate {
        return IsPrivate;
      }
      channels := Reroster(channels, c, channels[c].members[u := Member(Plain, now)]);
      out := Joined;
    }

    method LeaveChannel(c: ChannelId, u: UserId) returns (out: Outcome)
      modifies this
      ensures Next(old(channels), Leave(c, u), channels, out)
    {
      if c !in channels || u !in channels[c].members {
        return NotMember;
      }
      DepartFrom(c, u);
      out := Left;
    }

    method AddChannelMember(c: ChannelId, caller: UserId, u: UserId, role: Role, targetExists: bool, now: int)
      returns (out: Outcome)
      modifies this
      ensures Next(old(channels), AddMember(c, caller, u, role, targetExists, now), channels, out)
    {
      var gate := Gate(channels, c, caller);
      if gate.Some? {
        return gate.value;
      }
      if !targetExists {
        return UserNotFound;
      }
      if u in channels[c].members {
        return AlreadyMember;
      }
      channels := Reroster(channels, c, channels[c].members[u := Member(role, now)]);
      out := Added;
    }

    method ChangeMemberRole(c: ChannelId, caller: UserId, u: UserId, role: Role) returns (out: Outcome)
      modifies this
      ensures Next(old(channels), ChangeRole(c, caller, u, role), channels, out)
    {
      var gate := Gate(channels, c, caller);
      if gate.Some? {
        return gate.value;
      }
      if u !in channels[c].members {
        return TargetNotMember;
      }
      if channels[c].members[u].role == role {
        return NoChange;
      }
      channels := Reroster(channels, c, channels[c].members[u := channels[c].members[u].(role := role)]);
      out := Updated;
    }

    method RemoveChannelMember(c: ChannelId, caller: UserId, u: UserId, targetExists: bool) returns (out: Outcome)
      modifies this
      ensures Next(old(channels), Remove(c, caller, u, targetExists), channels, out)
    {
      var gate := Gate(channels, c, caller);
      if gate.Some? {
        return gate.value;
      }
      if !targetExists {
        return UserNotFound;
      }
      if u !in channels[c].members {
        return NotMember;
      }
      DepartFrom(c, u);
      out := Removed;
    }

    /** The channel part of an account deactivation; memberships stay. */
    method DeactivateUser(u: UserId) returns (out: Outcome, promoted: set<ChannelId>)
      modifies this
      ensures Next(old(channels), Deactivate(u), channels, out)
      ensures promoted == Changed(old(channels), channels)
    {
      var scope := set c | c in channels && u in Admins(channels[c].members);
      promoted := RunSoleAdminSuccession(u, scope);
      out := Deactivated;
    }
  }

  // ---------------------------------------------------------------- runs

  datatype Event = Event(op: Op, out: Outcome)

  ghost predicate IsRun(ds: seq<Directory>, es: seq<Event>) {
    && |ds| == |es| + 1
    && (forall i | 0 <= i < |es| :: NewChannelsOnly(ds[i], es[i].op) && Next(ds[i], es[i].op, ds[i + 1], es[i].out))
  }

  /** Channel ids are fresh. */
  predicate NewChannelsOnly(d: Directory, op: Op) {
    op.Create? ==> op.channel !in d
  }

  /** A channel that nobody administers. */
  ghost predicate Stranded(d: Directory, c: ChannelId) {
    c in d && Admins(d[c].members) == {}
  }

  lemma StrandedStays(d: Directory, op: Op, e: Directory, out: Outcome, c: ChannelId)
    requires NewChannelsOnly(d, op) && Next(d, op, e, out) && Stranded(d, c)
    ensures Stranded(e, c) && e[c].isPrivate == d[c].isPrivate
    ensures d[c].isPrivate ==> e[c].members.Keys <= d[c].members.Keys
  {
  }

  /** Stranded in `d`, still so in `e`, with its privacy; if private, with no new member. */
  ghost predicate StrandedOn(d: Directory, e: Directory, c: ChannelId)
    requires c in d
  {
    Stranded(e, c) && e[c].isPrivate == d[c].isPrivate && (d[c].isPrivate ==> e[c].members.Keys <= d[c].members.Keys)
  }

  lemma StrandedAt(ds: seq<Directory>, es: seq<Event>, j: nat, c: ChannelId)
    requires IsRun(ds, es) && j < |es| && Stranded(ds[j], c)
    ensures StrandedOn(ds[j], ds[j + 1], c)
  {
    StrandedStays(ds[j], es[j].op, ds[j + 1], es[j].out, c);
  }

  /** Every step of the sequence keeps the channel stranded once it is. */
  ghost predicate StaysStranded(ds: seq<Directory>, c: ChannelId) {
    forall k | 0 <= k < |ds| - 1 && Stranded(ds[k], c) :: StrandedOn(ds[k], ds[k + 1], c)
  }

  lemma {:induction false} StrandedOnwards(ds: seq<Directory>, i: nat, j: nat, c: ChannelId)
    requires StaysStranded(ds, c) && i <= j < |ds| && Stranded(ds[i], c)
    ensures StrandedOn(ds[i], ds[j], c)
  {
    if i < j {
      StrandedOnwards(ds, i, j - 1, c);
      assert StrandedOn(ds[j - 1], ds[j - 1 + 1], c);
    }
  }

  /** Once without an admin, a channel never has one again; a private one only loses members. */
  lemma StrandedForever(ds: seq<Directory>, es: seq<Event>, i: nat, j: nat, c: ChannelId)
    requires IsRun(ds, es) && i <= j < |ds| && Stranded(ds[i], c)
    ensures StrandedOn(ds[i], ds[j], c)
  {
    forall k | 0 <= k < |ds| - 1 && Stranded(ds[k], c) ensures StrandedOn(ds[k], ds[k + 1], c) {
      StrandedAt(ds, es, k, c);
    }
    StrandedOnwards(ds, i, j, c);
  }

  lemma DepartureKeepsAnAdmin(d: Directory, x: ChannelId, u: UserId, e: Directory)
    requires x in d && u in d[x].members && Departs(d, x, u, e)
    requires Admins(d[x].members) != {}
    ensures x in e && (e[x].members == map[] || Admins(e[x].members) != {})
  {
    var r :| Succeeds(d[x].members, u, r) && e == Reroster(d, x, r - {u});
    AdminsAfterSuccession(d[x].members, u, r);
    assert Admins(r - {u}) == Admins(r) - {u};
    if u in Admins(d[x].members) && d[x].members.Keys == {u} {
      assert (r - {u}).Keys == {};
    } else if u !in Admins(d[x].members) {
      var v :| v in Admins(d[x].members);
      assert v in Admins(r) - {u};
    }
  }

  /**
    A channel with admins and with members left after the step loses its last admin exactly when
    the step is its sole admin's own demotion to plain member.
  */
  lemma OnlySelfDemotionStrands(d: Directory, op: Op, e: Directory, out: Outcome, c: ChannelId)
    requires NewChannelsOnly(d, op) && Next(d, op, e, out)
    requires c in d && Admins(d[c].members) != {} && c in e && e[c].members != map[]
    ensures Stranded(e, c) <==>
            op.ChangeRole? && op.channel == c && op.caller == op.target && op.role == Plain
            && Admins(d[c].members) == {op.caller}
  {
    match op
    case Create(x, private, u, now) =>
    case Join(x, u, now) =>
      if e != d && x == c { StillAdmin(d[c].members, u, e[c].members); }
    case Leave(x, u) =>
      if out == Left {
        if x == c { DepartureKeepsAnAdmin(d, x, u, e); }
      }
    case AddMember(x, caller, u, role, known, now) =>
      if e != d && x == c { StillAdmin(d[c].members, u, e[c].members); }
    case ChangeRole(x, caller, u, role) =>
      if e != d && x == c { RoleChangeStrandsIff(d[c].members, caller, u, role); }
    case Remove(x, caller, u, known) =>
      if out == Removed {
        if x == c { DepartureKeepsAnAdmin(d, x, u, e); }
      }
    case Deactivate(u) =>
      AdminsAfterSuccession(d[c].members, u, e[c].members);
  }

  lemma StillAdmin(r: Roster, u: UserId, t: Roster)
    requires u !in r && Admins(r) != {} && u in t && t == r[u := t[u]]
    ensures Admins(t) != {}
  {
  }

  lemma RoleChangeStrandsIff(r: Roster, caller: UserId, u: UserId, role: Role)
    requires caller in Admins(r) && u in r && r[u].role != role
    ensures Admins(r[u := r[u].(role := role)]) == {} <==> caller == u && role == Plain && Admins(r) == {caller}
  {
    var t := r[u := r[u].(role := role)];
    assert Admins(t) == if role == Admin then Admins(r) + {u} else Admins(r) - {u};
    assert Admins(r) - {u} == {} ==> Admins(r) == {u};
  }

  // ---------------------------------------------------------------- who may do what

  predicate IsAdminOp(op: Op) {
    op.AddMember? || op.ChangeRole? || op.Remove?
  }

  /** The gate: a missing channel, a channel without admins, a caller who is none of them, in this order. */
  lemma GateSaysWhy(d: Directory, op: Op, e: Directory, out: Outcome)
    requires IsAdminOp(op) && Next(d, op, e, out)
    ensures out == ChannelNotFound <==> op.channel !in d
    ensures out == ZeroAdmin <==> Stranded(d, op.channel)
    ensures out == CallerNotAdmin <==> op.channel in d && !Stranded(d, op.channel) && !IsAdmin(d, op.channel, op.caller)
    ensures out in {ChannelNotFound, ZeroAdmin, CallerNotAdmin} ==> e == d
  {
  }

  predicate IsAdmin(d: Directory, c: ChannelId, u: UserId) {
    c in d && u in d[c].members && d[c].members[u].role == Admin
  }

  /** Once a channel is stranded every admin operation on it answers so, for ever. */
  lemma StrandedAnswersZeroAdmin(ds: seq<Directory>, es: seq<Event>, i: nat, j: nat)
    requires IsRun(ds, es) && i <= j < |es| && IsAdminOp(es[j].op) && Stranded(ds[i], es[j].op.channel)
    ensures es[j].out == ZeroAdmin && ds[j + 1] == ds[j]
  {
    StrandedForever(ds, es, i, j, es[j].op.channel);
    GateSaysWhy(ds[j], es[j].op, ds[j + 1], es[j].out);
  }

  /** How `u` comes to be a member of `c` where they were none. */
  ghost predicate Enters(d: Directory, op: Op, e: Directory, c: ChannelId, u: UserId)
    requires c in e && u in e[c].members
  {
    var m := e[c].members[u];
    || (op.Create? && op.channel == c && op.creator == u && m == Member(Admin, op.now))
    || (op.Join? && op.channel == c && op.user == u && c in d && !d[c].isPrivate && m == Member(Plain, op.now))
    || (op.AddMember? && op.channel == c && op.target == u && op.targetExists && IsAdmin(d, c, op.caller) && m == Member(op.role, op.now))
  }

  /** Why `u`, still a member, has another role than before: an admin changed it, or they succeeded a sole admin. */
  ghost predicate RoleMoves(d: Directory, op: Op, e: Directory, c: ChannelId, u: UserId)
    requires c in e && u in e[c].members
  {
    var role := e[c].members[u].role;
    || (op.ChangeRole? && op.channel == c && op.target == u && op.role == role && IsAdmin(d, c, op.caller))
    || (role == Admin && exists v :: Succeeded(d, op, c, v, u))
  }

  /** `u` succeeds `v`, the sole admin, who departs or whose account is deactivated. */
  ghost predicate Succeeded(d: Directory, op: Op, c: ChannelId, v: UserId, u: UserId) {
    && c in d && Admins(d[c].members) == {v} && EarliestOther(d[c].members, v, u)
    && (op == Leave(c, v) || (op.Remove? && op.channel == c && op.target == v && IsAdmin(d, c, op.caller)) || op == Deactivate(v))
  }

  /** Why `u` is a member of `c` no more: they left, or an admin removed them. */
  ghost predicate Exits(d: Directory, op: Op, c: ChannelId, u: UserId) {
    op == Leave(c, u) || (op.Remove? && op.channel == c && op.target == u && op.targetExists && IsAdmin(d, c, op.caller))
  }

  /** All a step may do to one member of one channel; nobody's joining time moves. */
  ghost predicate Accounted(d: Directory, op: Op, e: Directory, c: ChannelId, u: UserId) {
    var before, after := c in d && u in d[c].members, c in e && u in e[c].members;
    && (!before && after ==> Enters(d, op, e, c, u))
    && (before && !after ==> Exits(d, op, c, u))
    && (before && after ==>
          && e[c].members[u].joinedAt == d[c].members[u].joinedAt
          && (e[c].members[u].role != d[c].members[u].role ==> RoleMoves(d, op, e, c, u)))
    && (c in d ==> c in e && e[c].isPrivate == d[c].isPrivate)
  }

  lemma DepartureAccounted(d: Directory, op: Op, x: ChannelId, v: UserId, e: Directory, c: ChannelId, u: UserId)
    requires x in d && v in d[x].members && Departs(d, x, v, e)
    requires op == Leave(x, v) || (op.Remove? && op.channel == x && op.target == v && op.targetExists && IsAdmin(d, x, op.caller))
    ensures Accounted(d, op, e, c, u)
  {
    var r :| Succeeds(d[x].members, v, r) && e == Reroster(d, x, r - {v});
    if c == x && u in d[x].members && u in e[x].members && e[x].members[u].role != d[x].members[u].role {
      assert Succeeded(d, op, x, v, u);
    }
  }

  /** In every step memberships and roles change only so: by the member, by an admin of the channel, or by succession. */
  lemma EveryChangeIsAccountedFor(d: Directory, op: Op, e: Directory, out: Outcome, c: ChannelId, u: UserId)
    requires NewChannelsOnly(d, op) && Next(d, op, e, out)
    ensures Accounted(d, op, e, c, u)
  {
    match op
    case Create(x, private, v, now) =>
    case Join(x, v, now) =>
    case Leave(x, v) =>
      if out == Left { DepartureAccounted(d, op, x, v, e, c, u); }
    case AddMember(x, caller, v, role, known, now) =>
      if out == Added { assert IsAdmin(d, x, caller); }
    case ChangeRole(x, caller, v, role) =>
      if out == Updated { assert IsAdmin(d, x, caller); }
    case Remove(x, caller, v, known) =>
      if out == Removed {
        assert IsAdmin(d, x, caller);
        DepartureAccounted(d, op, x, v, e, c, u);
      }
    case Deactivate(v) =>
      if c in d && u in d[c].members && e[c].members[u].role != d[c].members[u].role {
        assert Succeeded(d, op, c, v, u);
      }
  }

  /** What an answer means for the membership it is about, besides the gate. */
  lemma AnswersAreRight(d: Directory, op: Op, e: Directory, out: Outcome)
    requires NewChannelsOnly(d, op) && Next(d, op, e, out)
    ensures op.Join? ==> (out == Joined <==> op.channel in d && !d[op.channel].isPrivate && op.user !in d[op.channel].members)
    ensures op.Join? && out in {Joined, AlreadyMember} ==> op.channel in e && op.user in e[op.channel].members
    ensures op.Leave? ==> op.channel in e ==> op.user !in e[op.channel].members
    ensures op.AddMember? && IsAdmin(d, op.channel, op.caller) && op.targetExists ==> op.target in e[op.channel].members
    ensures op.ChangeRole? && IsAdmin(d, op.channel, op.caller) && op.target in d[op.channel].members ==>
              op.target in e[op.channel].members && e[op.channel].members[op.target].role == op.role
    ensures op.Remove? && IsAdmin(d, op.channel, op.caller) && op.targetExists ==> op.target !in e[op.channel].members
  {
    if IsAdminOp(op) && IsAdmin(d, op.channel, op.caller) {
      assert op.caller in Admins(d[op.channel].members);
    }
    if (op.Leave? && out == Left) || (op.Remove? && out == Removed) {
      var v := if op.Leave? then op.user else op.target;
      var r :| Succeeds(d[op.channel].members, v, r) && e == Reroster(d, op.channel, r - {v});
    }
  }

  /** A sole admin who departs, or whose account is deactivated, is succeeded by a member who joined no later than any other. */
  lemma SoleAdminIsSucceeded(d: Directory, op: Op, e: Directory, out: Outcome, c: ChannelId, v: UserId) returns (heir: UserId)
    requires NewChannelsOnly(d, op) && Next(d, op, e, out) && c in d
    requires op == Deactivate(v) || (op == Leave(c, v) && out == Left) || (op.Remove? && op.channel == c && op.target == v && out == Removed)
    requires Admins(d[c].members) == {v} && d[c].members.Keys != {v}
    ensures heir in d[c].members && heir != v && c in e && heir in e[c].members && e[c].members[heir].role == Admin
    ensures forall u | u in d[c].members && u != v :: d[c].members[heir].joinedAt <= d[c].members[u].joinedAt
  {
    if op == Deactivate(v) {
      heir :| EarliestOther(d[c].members, v, heir) && e[c].members == d[c].members[heir := d[c].members[heir].(role := Admin)];
    } else {
      assert v in Admins(d[c].members);
      var r :| Succeeds(d[c].members, v, r) && e == Reroster(d, c, r - {v});
      heir :| EarliestOther(d[c].members, v, heir) && r == d[c].members[heir := d[c].members[heir].(role := Admin)];
    }
  }
}
