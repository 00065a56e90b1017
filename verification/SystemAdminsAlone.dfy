/**
  What one deactivation or reactivation answers when no other transaction is about: the guard
  refuses exactly the last active System Admin.
*/
module SystemAdminsAlone {
  import opened SystemAdmins

  predicate IsOwn(a: Action, t: TxId) {
    a == Decide(t) || a == LockNext(t) || a == Count(t) || a == Write(t) || a == Commit(t)
  }

  function Flipped(users: map<UserId, User>, target: UserId, active: bool): map<UserId, User>
    requires target in users
  {
    users[target := users[target].(isActive := active)]
  }

  /** The answer and the users a lone transaction must leave. */
  ghost predicate RightlyEnded(users: map<UserId, User>, target: UserId, deactivate: bool, outcome: Outcome, after: map<UserId, User>)
    requires target in users
  {
    var user := users[target];
    if !deactivate then
      if user.isActive then outcome == Unchanged && after == users
      else outcome == Reactivated && after == Flipped(users, target, true)
    else if !user.isActive then outcome == AlreadyInactive && after == users
    else if user.isSystemAdmin && |ActiveAdmins(users)| < 2 then outcome == LastActiveSystemAdmin && after == users
    else outcome == Deactivated && after == Flipped(users, target, false)
  }

  function Locks(held: set<UserId>, t: TxId): map<UserId, TxId> {
    map u | u in held :: t
  }

  /** Where a lone transaction can stand that began with these users and no row locked. */
  ghost predicate Lone(users: map<UserId, User>, target: UserId, deactivate: bool, s: State, t: TxId) {
    && target in users && t in s.txs && s.txs[t].target == target && s.txs[t].deactivate == deactivate
    && var user, admins := users[target], ActiveAdmins(users);
       match s.txs[t].pc
       case Loaded(loaded) => loaded == user && s.users == users && s.locks == map[]
       case Locking(todo, held) =>
         && deactivate && user.isActive && user.isSystemAdmin
         && todo + held == admins && todo !! held && s.users == users && s.locks == Locks(held, t)
       case Flipping(held) =>
         && deactivate && user.isActive && (user.isSystemAdmin ==> |admins| >= 2)
         && held <= admins && s.users == users && s.locks == Locks(held, t)
       case Activating => !deactivate && !user.isActive && s.users == users && s.locks == map[]
       case Ready(_, active) =>
         && active == !deactivate && user.isActive == deactivate && (deactivate && user.isSystemAdmin ==> |admins| >= 2)
         && s.users == users
       case Done(outcome) => RightlyEnded(users, target, deactivate, outcome, s.users)
  }

  lemma LoneDecides(users: map<UserId, User>, target: UserId, deactivate: bool, s: State, t: TxId)
    requires Lone(users, target, deactivate, s, t)
    ensures Lone(users, target, deactivate, DoDecide(s, t), t)
  {
    assert Locks({}, t) == map[];
  }

  lemma LoneLocks(users: map<UserId, User>, target: UserId, deactivate: bool, s: State, t: TxId)
    requires Lone(users, target, deactivate, s, t)
    ensures Lone(users, target, deactivate, DoLockNext(s, t), t)
  {
    if s.txs[t].pc.Locking? && s.txs[t].pc.todo != {} {
      var Locking(todo, held) := s.txs[t].pc;
      var u := Least(todo);
      assert u in todo + held;
      assert (todo - {u}) + (held + {u}) == todo + held;
      assert Locks(held, t)[u := t] == Locks(held + {u}, t);
    }
  }

  lemma LoneCounts(users: map<UserId, User>, target: UserId, deactivate: bool, s: State, t: TxId)
    requires Lone(users, target, deactivate, s, t)
    ensures Lone(users, target, deactivate, DoCount(s, t), t)
  {
    if s.txs[t].pc.Locking? && s.txs[t].pc.todo == {} {
      assert {} + s.txs[t].pc.held == s.txs[t].pc.held;
    }
  }

  lemma LoneWrites(users: map<UserId, User>, target: UserId, deactivate: bool, s: State, t: TxId)
    requires Lone(users, target, deactivate, s, t)
    ensures Lone(users, target, deactivate, DoWrite(s, t), t)
  {
  }

  lemma LoneCommits(users: map<UserId, User>, target: UserId, deactivate: bool, s: State, t: TxId)
    requires Lone(users, target, deactivate, s, t)
    ensures Lone(users, target, deactivate, DoCommit(s, t), t)
  {
  }

  lemma LoneStep(users: map<UserId, User>, target: UserId, deactivate: bool, s: State, t: TxId, a: Action)
    requires Lone(users, target, deactivate, s, t) && IsOwn(a, t)
    ensures Lone(users, target, deactivate, Step(s, a), t)
  {
    match a
    case Decide(_) => LoneDecides(users, target, deactivate, s, t);
    case LockNext(_) => LoneLocks(users, target, deactivate, s, t);
    case Count(_) => LoneCounts(users, target, deactivate, s, t);
    case Write(_) => LoneWrites(users, target, deactivate, s, t);
    case Commit(_) => LoneCommits(users, target, deactivate, s, t);
  }

  lemma {:induction false} LoneRun(users: map<UserId, User>, target: UserId, deactivate: bool, s: State, t: TxId, acts: seq<Action>)
    requires Lone(users, target, deactivate, s, t) && forall i | 0 <= i < |acts| :: IsOwn(acts[i], t)
    ensures Lone(users, target, deactivate, Run(s, acts), t)
    decreases |acts|
  {
    if acts != [] {
      LoneStep(users, target, deactivate, s, t, acts[0]);
      LoneRun(users, target, deactivate, Step(s, acts[0]), t, acts[1..]);
    }
  }

  lemma LoneBegins(s: State, t: TxId, target: UserId, deactivate: bool)
    requires t !in s.txs && target in s.users && s.locks == map[]
    ensures Lone(s.users, target, deactivate, Step(s, Begin(t, target, deactivate)), t)
  {
  }

  /** However its steps are scheduled, a lone transaction that ends has answered and changed what it must. */
  lemma LoneTransactionEndsRight(s: State, t: TxId, target: UserId, deactivate: bool, acts: seq<Action>)
    requires t !in s.txs && target in s.users && s.locks == map[]
    requires forall i | 0 <= i < |acts| :: IsOwn(acts[i], t)
    ensures var e := Run(Step(s, Begin(t, target, deactivate)), acts);
      && t in e.txs
      && (e.txs[t].pc.Done? ==> RightlyEnded(s.users, target, deactivate, e.txs[t].pc.outcome, e.users))
      && (!e.txs[t].pc.Done? ==> e.users == s.users)
  {
    LoneBegins(s, t, target, deactivate);
    LoneRun(s.users, target, deactivate, Step(s, Begin(t, target, deactivate)), t, acts);
  }

  /** A bound on the steps left. */
  function Left(pc: Pc, admins: nat): nat {
    match pc
    case Loaded(_) => admins + 5
    case Locking(todo, _) => |todo| + 4
    case Flipping(_) => 2
    case Activating => 2
    case Ready(_, _) => 1
    case Done(_) => 0
  }

  function OwnNext(pc: Pc, t: TxId): Action {
    match pc
    case Loaded(_) => Decide(t)
    case Locking(todo, _) => if todo == {} then Count(t) else LockNext(t)
    case Flipping(_) => Write(t)
    case Activating => Write(t)
    case _ => Commit(t)
  }

  ghost predicate Advances(users: map<UserId, User>, s: State, e: State, t: TxId) {
    t in s.txs && t in e.txs && Left(e.txs[t].pc, |ActiveAdmins(users)|) < Left(s.txs[t].pc, |ActiveAdmins(users)|)
  }

  lemma DecideAdvances(users: map<UserId, User>, target: UserId, deactivate: bool, s: State, t: TxId)
    requires Lone(users, target, deactivate, s, t) && s.txs[t].pc.Loaded?
    ensures Advances(users, s, DoDecide(s, t), t)
  {
  }

  lemma LockAdvances(users: map<UserId, User>, target: UserId, deactivate: bool, s: State, t: TxId)
    requires Lone(users, target, deactivate, s, t) && s.txs[t].pc.Locking? && s.txs[t].pc.todo != {}
    ensures Advances(users, s, DoLockNext(s, t), t)
  {
    var u := Least(s.txs[t].pc.todo);
    assert u in s.txs[t].pc.todo + s.txs[t].pc.held;
    assert DoLockNext(s, t).txs[t].pc.todo == s.txs[t].pc.todo - {u};
  }

  lemma CountAdvances(users: map<UserId, User>, target: UserId, deactivate: bool, s: State, t: TxId)
    requires Lone(users, target, deactivate, s, t) && s.txs[t].pc.Locking? && s.txs[t].pc.todo == {}
    ensures Advances(users, s, DoCount(s, t), t)
  {
  }

  lemma WriteAdvances(users: map<UserId, User>, target: UserId, deactivate: bool, s: State, t: TxId)
    requires Lone(users, target, deactivate, s, t) && (s.txs[t].pc.Flipping? || s.txs[t].pc.Activating?)
    ensures Advances(users, s, DoWrite(s, t), t)
  {
  }

  lemma LoneAdvances(users: map<UserId, User>, target: UserId, deactivate: bool, s: State, t: TxId)
    requires Lone(users, target, deactivate, s, t) && !s.txs[t].pc.Done?
    ensures Advances(users, s, Step(s, OwnNext(s.txs[t].pc, t)), t)
  {
    var pc := s.txs[t].pc;
    if pc.Loaded? {
      DecideAdvances(users, target, deactivate, s, t);
    } else if pc.Locking? && pc.todo == {} {
      CountAdvances(users, target, deactivate, s, t);
    } else if pc.Locking? {
      LockAdvances(users, target, deactivate, s, t);
    } else if pc.Flipping? || pc.Activating? {
      WriteAdvances(users, target, deactivate, s, t);
    }
  }

  /** And it does end. */
  lemma {:induction false} LoneFinishes(users: map<UserId, User>, target: UserId, deactivate: bool, s: State, t: TxId) returns (acts: seq<Action>)
    requires Lone(users, target, deactivate, s, t)
    ensures forall i | 0 <= i < |acts| :: IsOwn(acts[i], t)
    ensures t in Run(s, acts).txs && Run(s, acts).txs[t].pc.Done?
    decreases Left(s.txs[t].pc, |ActiveAdmins(users)|)
  {
    acts := [];
    if !s.txs[t].pc.Done? {
      var a := OwnNext(s.txs[t].pc, t);
      LoneStep(users, target, deactivate, s, t, a);
      LoneAdvances(users, target, deactivate, s, t);
      var rest := LoneFinishes(users, target, deactivate, Step(s, a), t);
      acts := [a] + rest;
      assert acts[1..] == rest;
    }
  }

  /** Of the active System Admins one can be deactivated, alone, if and only if there is another. */
  lemma LoneDeactivationSucceedsIff(s: State, t: TxId, target: UserId) returns (acts: seq<Action>)
    requires t !in s.txs && target in ActiveAdmins(s.users) && s.locks == map[]
    ensures forall i | 0 <= i < |acts| :: IsOwn(acts[i], t)
    ensures var e := Run(Step(s, Begin(t, target, true)), acts);
      && t in e.txs
      && (e.txs[t].pc == Done(Deactivated) <==> ActiveAdmins(s.users) != {target})
      && (e.txs[t].pc == Done(LastActiveSystemAdmin) <==> ActiveAdmins(s.users) == {target})
      && e.users == if ActiveAdmins(s.users) == {target} then s.users else Flipped(s.users, target, false)
  {
    LoneBegins(s, t, target, true);
    acts := LoneFinishes(s.users, target, true, Step(s, Begin(t, target, true)), t);
    LoneTransactionEndsRight(s, t, target, true, acts);
    OnlyOne(ActiveAdmins(s.users), target);
  }

  lemma OnlyOne(us: set<UserId>, u: UserId)
    requires u in us
    ensures |us| < 2 <==> us == {u}
  {
    assert us == {u} + (us - {u});
  }
}
