/**
  The last-active-System-Admin guard: deactivations and reactivations as interleaved transactions
  over user rows with row locks, under READ COMMITTED.
*/
module SystemAdmins {

  type UserId = nat
  type TxId = nat

  datatype User = User(isSystemAdmin: bool, isActive: bool)

  /**
    `Locking` is the `SELECT ... FOR UPDATE`: `todo` are the matching rows of its snapshot still to
    be locked, in id order, `held` those locked and still matching. `Flipping` and `Activating` are
    the `UPDATE` of the target row, `Ready` a transaction that has written and will commit.
  */
  datatype Pc =
    | Loaded(user: User)
    | Locking(todo: set<UserId>, held: set<UserId>)
    | Flipping(held: set<UserId>)
    | Activating
    | Ready(held: set<UserId>, active: bool)
    | Done(outcome: Outcome)

  datatype Outcome = Deactivated | AlreadyInactive | LastActiveSystemAdmin | Reactivated | Unchanged | Aborted

  datatype Tx = Tx(target: UserId, deactivate: bool, pc: Pc)

  datatype State = State(users: map<UserId, User>, locks: map<UserId, TxId>, txs: map<TxId, Tx>)

  datatype Action =
    | Register(user: UserId)
    | Begin(tx: TxId, target: UserId, deactivate: bool)
    | Decide(tx: TxId)
    | LockNext(tx: TxId)
    | Count(tx: TxId)
    | Write(tx: TxId)
    | Commit(tx: TxId)
    | Abort(tx: TxId)

  function ActiveAdmins(users: map<UserId, User>): set<UserId> {
    set u | u in users && users[u].isSystemAdmin && users[u].isActive
  }

  function Goto(s: State, t: TxId, pc: Pc): State
    requires t in s.txs
  {
    s.(txs := s.txs[t := s.txs[t].(pc := pc)])
  }

  /** The transaction ends and its row locks go. */
  function End(s: State, t: TxId, outcome: Outcome): State
    requires t in s.txs
  {
    Goto(s, t, Done(outcome)).(locks := map u | u in s.locks && s.locks[u] != t :: s.locks[u])
  }

  predicate IsLeast(u: UserId, us: set<UserId>) {
    u in us && forall v | v in us :: u <= v
  }

  lemma {:induction false} LeastExists(us: set<UserId>)
    requires us != {}
    ensures exists u :: IsLeast(u, us)
  {
    var u :| u in us;
    if us == {u} {
      assert IsLeast(u, us);
    } else {
      assert us == (us - {u}) + {u};
      LeastExists(us - {u});
      var v :| IsLeast(v, us - {u});
      assert IsLeast(if u < v then u else v, us);
    }
  }

  function Least(us: set<UserId>): (u: UserId)
    requires us != {}
    ensures IsLeast(u, us)
  {
    LeastExists(us);
    var u :| IsLeast(u, us);
    u
  }

  /** Load the target row: `db.get`, no lock. */
  function DoBegin(s: State, t: TxId, target: UserId, deactivate: bool): State {
    if t in s.txs || target !in s.users then s
    else s.(txs := s.txs[t := Tx(target, deactivate, Loaded(s.users[target]))])
  }

  /** What the loaded row leads to; the guard's `SELECT` takes its snapshot here. */
  function DoDecide(s: State, t: TxId): State {
    if t !in s.txs || !s.txs[t].pc.Loaded? then s else
      var user := s.txs[t].pc.user;
      if !s.txs[t].deactivate then
        if user.isActive then End(s, t, Unchanged) else Goto(s, t, Activating)
      else if !user.isActive then End(s, t, AlreadyInactive)
      else if user.isSystemAdmin then Goto(s, t, Locking(ActiveAdmins(s.users), {}))
      else Goto(s, t, Flipping({}))
  }

  /** Lock the next row in id order, waiting for it if need be, and re-check that it still matches. */
  function DoLockNext(s: State, t: TxId): State {
    if t !in s.txs || !s.txs[t].pc.Locking? || s.txs[t].pc.todo == {} then s else
      var Locking(todo, held) := s.txs[t].pc;
      var u := Least(todo);
      if u in s.locks && s.locks[u] != t then s
      else if u in ActiveAdmins(s.users) then
        Goto(s, t, Locking(todo - {u}, held + {u})).(locks := s.locks[u := t])
      else Goto(s, t, Locking(todo - {u}, held))
  }

  /** The compare of the guard: refuse when at most one active admin was locked. */
  function DoCount(s: State, t: TxId): State {
    if t !in s.txs || !s.txs[t].pc.Locking? || s.txs[t].pc.todo != {} then s else
      var held := s.txs[t].pc.held;
      if |held| <= 1 then End(s, t, LastActiveSystemAdmin) else Goto(s, t, Flipping(held))
  }

  /** The `UPDATE` of the target row, which waits for its lock. */
  function DoWrite(s: State, t: TxId): State {
    if t !in s.txs || !(s.txs[t].pc.Flipping? || s.txs[t].pc.Activating?) then s else
      var target := s.txs[t].target;
      if target in s.locks && s.locks[target] != t then s
      else
        var pc := s.txs[t].pc;
        Goto(s, t, Ready(if pc.Flipping? then pc.held else {}, pc.Activating?)).(locks := s.locks[target := t])
  }

  function DoCommit(s: State, t: TxId): State {
    if t !in s.txs || !s.txs[t].pc.Ready? then s else
      var target, active := s.txs[t].target, s.txs[t].pc.active;
      var u := End(s, t, if active then Reactivated else Deactivated);
      if target in s.users then u.(users := s.users[target := s.users[target].(isActive := active)]) else u
  }

  function DoAbort(s: State, t: TxId): State {
    if t !in s.txs || s.txs[t].pc.Done? then s else End(s, t, Aborted)
  }

  /** Registration only ever adds plain active users. */
  function DoRegister(s: State, u: UserId): State {
    if u in s.users then s else s.(users := s.users[u := User(false, true)])
  }

  function Step(s: State, a: Action): State {
    match a
    case Register(u) => DoRegister(s, u)
    case Begin(t, target, deactivate) => DoBegin(s, t, target, deactivate)
    case Decide(t) => DoDecide(s, t)
    case LockNext(t) => DoLockNext(s, t)
    case Count(t) => DoCount(s, t)
    case Write(t) => DoWrite(s, t)
    case Commit(t) => DoCommit(s, t)
    case Abort(t) => DoAbort(s, t)
  }

  function Run(s: State, acts: seq<Action>): State
    decreases |acts|
  {
    if acts == [] then s else Run(Step(s, acts[0]), acts[1..])
  }

  // ---------------------------------------------------------------- the invariant

  function Held(pc: Pc): set<UserId> {
    if pc.Locking? || pc.Flipping? || pc.Ready? then pc.held else {}
  }

  /** Rows are locked in id order. */
  ghost predicate Ascending(held: set<UserId>, todo: set<UserId>) {
    forall h, u | h in held && u in todo :: h < u
  }

  lemma AscendingOn(held: set<UserId>, todo: set<UserId>, u: UserId)
    requires Ascending(held, todo) && IsLeast(u, todo)
    ensures Ascending(held + {u}, todo - {u}) && Ascending(held, todo - {u})
  {
  }

  /**
    What a transaction knows: the rows it counted are locked by it and still active admins, and a
    pending deactivation of an admin has counted at least two.
  */
  ghost predicate TxOk(s: State, t: TxId)
    requires t in s.txs
  {
    var x := s.txs[t];
    && x.target in s.users
    && (forall u | u in Held(x.pc) :: u in s.locks && s.locks[u] == t && u in ActiveAdmins(s.users))
    && (x.pc.Loaded? ==> x.pc.user.isSystemAdmin == s.users[x.target].isSystemAdmin)
    && (x.pc.Flipping? || (x.pc.Ready? && !x.pc.active) ==>
          s.users[x.target].isSystemAdmin ==> |Held(x.pc)| >= 2)
    && (x.pc.Ready? ==> x.target in s.locks && s.locks[x.target] == t)
    && (x.pc.Locking? ==> Ascending(x.pc.held, x.pc.todo))
  }

  /** Every lock is held by a transaction that counted the row or is writing it. */
  ghost predicate LockOk(s: State, u: UserId)
    requires u in s.locks
  {
    var t := s.locks[u];
    t in s.txs && (u in Held(s.txs[t].pc) || (s.txs[t].pc.Ready? && u == s.txs[t].target))
  }

  ghost predicate Inv(s: State) {
    && ActiveAdmins(s.users) != {}
    && (forall t | t in s.txs :: TxOk(s, t))
    && (forall u | u in s.locks :: LockOk(s, u))
  }

  lemma EndKeeps(s: State, t: TxId, outcome: Outcome)
    requires Inv(s) && t in s.txs
    ensures Inv(End(s, t, outcome))
  {
  }

  lemma GotoKeeps(s: State, t: TxId, pc: Pc)
    requires Inv(s) && t in s.txs && TxOk(Goto(s, t, pc), t)
    requires Held(pc) == Held(s.txs[t].pc) && !s.txs[t].pc.Ready?
    ensures Inv(Goto(s, t, pc))
  {
  }

  lemma DecideKeeps(s: State, t: TxId)
    requires Inv(s)
    ensures Inv(DoDecide(s, t))
  {
    if t in s.txs && s.txs[t].pc.Loaded? {
      assert TxOk(s, t);
      var u := DoDecide(s, t);
      if u.txs[t].pc.Done? {
        EndKeeps(s, t, u.txs[t].pc.outcome);
      } else {
        GotoKeeps(s, t, u.txs[t].pc);
      }
    }
  }

  function TakeLock(s: State, t: TxId, u: UserId): State
    requires t in s.txs && s.txs[t].pc.Locking?
  {
    Goto(s, t, Locking(s.txs[t].pc.todo - {u}, s.txs[t].pc.held + {u})).(locks := s.locks[u := t])
  }

  lemma TakeLockTxs(s: State, t: TxId, u: UserId, x: TxId)
    requires Inv(s) && t in s.txs && s.txs[t].pc.Locking? && IsLeast(u, s.txs[t].pc.todo)
    requires u in ActiveAdmins(s.users) && (u in s.locks ==> s.locks[u] == t) && x in s.txs
    ensures TxOk(TakeLock(s, t, u), x)
  {
    assert TxOk(s, x);
    if x == t {
      AscendingOn(s.txs[t].pc.held, s.txs[t].pc.todo, u);
    }
  }

  lemma TakeLockLocks(s: State, t: TxId, u: UserId, v: UserId)
    requires Inv(s) && t in s.txs && s.txs[t].pc.Locking? && (v in s.locks || v == u)
    ensures LockOk(TakeLock(s, t, u), v)
  {
  }

  lemma TakeLockKeeps(s: State, t: TxId, u: UserId)
    requires Inv(s) && t in s.txs && s.txs[t].pc.Locking? && IsLeast(u, s.txs[t].pc.todo)
    requires u in ActiveAdmins(s.users) && (u in s.locks ==> s.locks[u] == t)
    ensures Inv(TakeLock(s, t, u))
  {
    forall x | x in s.txs ensures TxOk(TakeLock(s, t, u), x) {
      TakeLockTxs(s, t, u, x);
    }
    forall v | v in s.locks || v == u ensures LockOk(TakeLock(s, t, u), v) {
      TakeLockLocks(s, t, u, v);
    }
  }

  lemma LockNextKeeps(s: State, t: TxId)
    requires Inv(s)
    ensures Inv(DoLockNext(s, t))
  {
    if DoLockNext(s, t) != s {
      var Locking(todo, held) := s.txs[t].pc;
      var u := Least(todo);
      assert TxOk(s, t);
      if u in ActiveAdmins(s.users) {
        TakeLockKeeps(s, t, u);
      } else {
        AscendingOn(held, todo, u);
        GotoKeeps(s, t, Locking(todo - {u}, held));
      }
    }
  }

  lemma CountKeeps(s: State, t: TxId)
    requires Inv(s)
    ensures Inv(DoCount(s, t))
  {
    if t in s.txs && s.txs[t].pc.Locking? && s.txs[t].pc.todo == {} {
      assert TxOk(s, t);
      if |s.txs[t].pc.held| <= 1 {
        EndKeeps(s, t, LastActiveSystemAdmin);
      } else {
        GotoKeeps(s, t, Flipping(s.txs[t].pc.held));
      }
    }
  }

  lemma WriteKeeps(s: State, t: TxId)
    requires Inv(s)
    ensures Inv(DoWrite(s, t))
  {
    if DoWrite(s, t) != s {
      forall x | x in s.txs ensures TxOk(DoWrite(s, t), x) {
        assert TxOk(s, x);
      }
      forall u | u in DoWrite(s, t).locks ensures LockOk(DoWrite(s, t), u) {
        assert u in s.locks ==> LockOk(s, u);
      }
    }
  }

  /** A commit flips one row; whoever counted that row held its lock, so nobody else had. */
  lemma CommitTxs(s: State, t: TxId, x: TxId)
    requires Inv(s) && t in s.txs && s.txs[t].pc.Ready? && x in s.txs
    ensures TxOk(DoCommit(s, t), x)
  {
    var e, target := DoCommit(s, t), s.txs[t].target;
    assert TxOk(s, t) && TxOk(s, x);
    forall u | u in Held(e.txs[x].pc) ensures u in e.locks && e.locks[u] == x && u in ActiveAdmins(e.users) {
      assert u in Held(s.txs[x].pc) && x != t && u != target;
    }
  }

  lemma CommitLeavesAnAdmin(s: State, t: TxId)
    requires Inv(s) && t in s.txs && s.txs[t].pc.Ready?
    ensures ActiveAdmins(DoCommit(s, t).users) != {}
  {
    var e, target := DoCommit(s, t), s.txs[t].target;
    assert TxOk(s, t);
    if !s.txs[t].pc.active && s.users[target].isSystemAdmin {
      var u := Another(s.txs[t].pc.held, target);
      assert u in ActiveAdmins(s.users) && u in ActiveAdmins(e.users);
    } else {
      var u :| u in ActiveAdmins(s.users);
      assert u in ActiveAdmins(e.users);
    }
  }

  lemma CommitKeeps(s: State, t: TxId)
    requires Inv(s)
    ensures Inv(DoCommit(s, t))
  {
    if t in s.txs && s.txs[t].pc.Ready? {
      var e := DoCommit(s, t);
      forall x | x in e.txs ensures TxOk(e, x) {
        CommitTxs(s, t, x);
      }
      forall u | u in e.locks ensures LockOk(e, u) {
        assert LockOk(s, u);
      }
      CommitLeavesAnAdmin(s, t);
    }
  }

  lemma Another(us: set<UserId>, target: UserId) returns (u: UserId)
    requires |us| >= 2
    ensures u in us && u != target
  {
    if us - {target} == {} {
      assert us <= {target};
      assert |us| <= |{target}| by { SubsetSize(us, {target}); }
      assert false;
    }
    u :| u in us - {target};
  }

  lemma SubsetSize(a: set<UserId>, b: set<UserId>)
    requires a <= b
    ensures |a| <= |b|
  {
    assert |b - a| == |b| - |a|;
  }

  lemma StepKeeps(s: State, a: Action)
    requires Inv(s)
    ensures Inv(Step(s, a))
  {
    match a
    case Register(u) => RegisterKeeps(s, u);
    case Begin(t, target, deactivate) =>
      BeginKeeps(s, t, target, deactivate);
    case Decide(t) => DecideKeeps(s, t);
    case LockNext(t) => LockNextKeeps(s, t);
    case Count(t) => CountKeeps(s, t);
    case Write(t) => WriteKeeps(s, t);
    case Commit(t) => CommitKeeps(s, t);
    case Abort(t) => if t in s.txs { EndKeeps(s, t, Aborted); }
  }

  lemma BeginKeeps(s: State, t: TxId, target: UserId, deactivate: bool)
    requires Inv(s)
    ensures Inv(DoBegin(s, t, target, deactivate))
  {
  }

  lemma RegisterKeeps(s: State, u: UserId)
    requires Inv(s)
    ensures Inv(DoRegister(s, u))
  {
    if u !in s.users {
      assert ActiveAdmins(DoRegister(s, u).users) == ActiveAdmins(s.users);
      forall x | x in s.txs ensures TxOk(DoRegister(s, u), x) {
        assert TxOk(s, x);
      }
      forall v | v in s.locks ensures LockOk(DoRegister(s, u), v) {
        assert LockOk(s, v);
      }
    }
  }

  /**
    From any committed state with an active System Admin, every interleaving of any number of
    deactivations and reactivations keeps at least one in every committed state.
  */
  lemma {:induction false} NeverLockedOut(s: State, acts: seq<Action>)
    requires Inv(s)
    ensures ActiveAdmins(Run(s, acts).users) != {} && Inv(Run(s, acts))
    ensures var users := Run(s, acts).users; exists u :: u in users && users[u].isSystemAdmin && users[u].isActive
    decreases |acts|
  {
    if acts != [] {
      StepKeeps(s, acts[0]);
      NeverLockedOut(Step(s, acts[0]), acts[1..]);
    }
  }

  lemma QuietStart(users: map<UserId, User>)
    ensures Inv(State(users, map[], map[])) <==> ActiveAdmins(users) != {}
  {
  }

  /** The row a guard's `SELECT ... FOR UPDATE` is waiting for, and the transaction holding it. */
  ghost predicate WaitsFor(s: State, t: TxId, u: UserId, holder: TxId) {
    && t in s.txs && s.txs[t].pc.Locking? && s.txs[t].pc.todo != {} && u == Least(s.txs[t].pc.todo)
    && u in s.locks && s.locks[u] == holder && holder != t
  }

  /**
    The id order of the guard: along any chain of waiting guards the awaited rows strictly
    increase, so no set of guards can wait for one another in a cycle.
  */
  lemma GuardsWaitUpwards(s: State, t: TxId, u: UserId, holder: TxId, v: UserId, next: TxId)
    requires Inv(s) && WaitsFor(s, t, u, holder) && WaitsFor(s, holder, v, next)
    ensures u < v
  {
  }

  /** Guards `ts[0]`, `ts[1]`, ... each waiting, for row `us[i]`, on the next one. */
  ghost predicate WaitChain(s: State, ts: seq<TxId>, us: seq<UserId>) {
    |ts| == |us| + 1 && forall i | 0 <= i < |us| :: WaitsFor(s, ts[i], us[i], ts[i + 1])
  }

  lemma {:induction false} ChainClimbs(s: State, ts: seq<TxId>, us: seq<UserId>, i: nat, j: nat)
    requires Inv(s) && WaitChain(s, ts, us) && i < j < |us|
    ensures us[i] < us[j]
  {
    GuardsWaitUpwards(s, ts[j - 1], us[j - 1], ts[j], us[j], ts[j + 1]);
    if i < j - 1 {
      ChainClimbs(s, ts, us, i, j - 1);
    }
  }

  /** No chain of waiting guards, however long, comes back to where it started: guards alone never deadlock. */
  lemma GuardsNeverDeadlock(s: State, ts: seq<TxId>, us: seq<UserId>)
    requires Inv(s) && WaitChain(s, ts, us) && us != []
    ensures ts[0] != ts[|us|]
  {
    var n := |us|;
    assert WaitsFor(s, ts[0], us[0], ts[1]) && WaitsFor(s, ts[n - 1], us[n - 1], ts[n]);
    if n > 1 {
      ChainClimbs(s, ts, us, 0, n - 1);
      if ts[0] == ts[n] {
        GuardsWaitUpwards(s, ts[n - 1], us[n - 1], ts[n], us[0], ts[1]);
      }
    }
  }
}
