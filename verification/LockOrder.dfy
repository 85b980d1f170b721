/**
 Fix B cannot deadlock: keys are claimed before any account is locked, and accounts are
 locked in ascending order, so waits always point upwards.
 */
module LockOrder {
  import opened Types
  import opened AtomicLedger
  import opened Statements
  import opened Protocol
  import opened ProtocolInvariant
  import opened ProtocolSteps
  import opened Refinement
  import opened ExactlyOnce

  // ------------------------------------------------------------- who waits

  /** The lock the next statement of a call needs. */
  function Wants(s: State, w: WorkerId): Option<Resource>
    requires w in s.workers
  {
    var worker := s.workers[w];
    var v := View(s.db, worker.tx);
    var r := worker.req;
    match worker.pc
    case ClaimInsert => Some(LockedKey(r.key))
    case ClaimSteal => if Stealable(v, worker.tx, r.key) then Some(LockedKey(r.key)) else None
    case LockRows(todo) => if todo != [] then Some(LockedAccount(todo[0])) else None
    case DebitConditional => if Covers(v, r.from, r.amount) then Some(LockedAccount(r.from)) else None
    case DebitRead => if r.from in v.accounts then Some(LockedAccount(r.from)) else None
    case DebitWrite => Some(LockedAccount(r.from))
    case OptDebit(version) => if HasVersion(v, r.from, version) then Some(LockedAccount(r.from)) else None
    case Credit => if r.to in v.accounts then Some(LockedAccount(r.to)) else None
    case _ => None
  }

  predicate Unfinished(s: State, w: WorkerId) {
    w in s.workers && !Over(s.workers[w].pc)
  }

  /** One edge of the wait-for graph. */
  predicate WaitsFor(s: State, w: WorkerId, u: WorkerId) {
    Unfinished(s, w) && u != w && Wants(s, w).Some? && Wants(s, w).value in s.locks && s.locks[Wants(s, w).value] == u
  }

  predicate Blocked(s: State, w: WorkerId) {
    Unfinished(s, w) && Wants(s, w).Some? && !CanLock(s, w, Wants(s, w).value)
  }

  lemma BlockedDebit(s: State, w: WorkerId)
    requires w in s.workers && IsDebit(s.workers[w].pc)
    ensures DebitEffect(s, w).Wait? <==> Blocked(s, w)
  {
  }

  lemma BlockedClaim(s: State, w: WorkerId, appClock: int)
    requires w in s.workers && InClaim(s.workers[w].pc)
    ensures ClaimEffect(s, w, appClock).Wait? <==> Blocked(s, w)
  {
  }

  lemma BlockedOther(s: State, w: WorkerId, appClock: int)
    requires Unfinished(s, w) && !IsDebit(s.workers[w].pc) && !InClaim(s.workers[w].pc)
    requires s.workers[w].pc.AddTransfer? ==> !UniqueRace(s, w)
    ensures Stmt(s, w, appClock).Wait? <==> Blocked(s, w)
  {
  }

  lemma BlockedStmt(s: State, w: WorkerId, appClock: int)
    requires Unfinished(s, w)
    requires s.workers[w].pc.AddTransfer? ==> !UniqueRace(s, w)
    ensures Stmt(s, w, appClock).Wait? <==> Blocked(s, w)
  {
    if IsDebit(s.workers[w].pc) {
      BlockedDebit(s, w);
    } else if InClaim(s.workers[w].pc) {
      BlockedClaim(s, w, appClock);
    } else {
      BlockedOther(s, w, appClock);
    }
  }

  /** A statement waits exactly when another transaction holds the lock it needs. */
  lemma WaitIffBlocked(s: State, w: WorkerId, appClock: int)
    requires Inv(s) && Unfinished(s, w)
    ensures Stmt(s, w, appClock).Wait? <==> Blocked(s, w)
  {
    if s.workers[w].pc.AddTransfer? {
      UniqueNeverFires(s, w);
    }
    BlockedStmt(s, w, appClock);
  }

  // ----------------------------------------------------- locks held per phase

  predicate Ascending(todo: seq<AccountId>) {
    forall i, j | 0 <= i < j < |todo| :: todo[i] < todo[j]
  }

  ghost predicate BothLocked(pc: Pc) {
    HasTx(pc) && !InClaim(pc) && !pc.PreLock? && !pc.LockRows?
  }

  /** What a call of Fix B holds at each point of its lock order. */
  ghost predicate OrderOk(db: Db, locks: map<Resource, WorkerId>, w: WorkerId, worker: Worker) {
    var r := worker.req;
    && worker.strategy.ForUpdate?
    && r.from in db.accounts && r.to in db.accounts
    && (InClaim(worker.pc) ==> forall x :: !Held(locks, x, w))
    && (worker.pc.PreLock? ==> forall x | Held(locks, x, w) :: x == LockedKey(r.key))
    && (worker.pc.LockRows? ==>
      var todo := worker.pc.todo;
      && todo != [] && Ascending(todo)
      && (forall x | Held(locks, x, w) :: x.LockedKey? || x.id < todo[0])
      && (r.from in todo || Held(locks, LockedAccount(r.from), w))
      && (r.to in todo || Held(locks, LockedAccount(r.to), w)))
    && (BothLocked(worker.pc) ==>
      Held(locks, LockedAccount(r.from), w) && Held(locks, LockedAccount(r.to), w))
  }

  ghost predicate OrderInv(s: State) {
    forall w | w in s.workers :: OrderOk(s.db, s.locks, w, s.workers[w])
  }

  /** Before the first call. */
  lemma InitOrder(s: State)
    requires Init(s)
    ensures Inv(s) && OrderInv(s)
  {
    InitInv(s);
  }

  /** Which lock a wait may be for, and that whoever holds it is further along. */
  lemma WaitKind(s: State, w: WorkerId, u: WorkerId)
    requires LocksOk(s) && OrderInv(s) && WaitsFor(s, w, u)
    ensures Unfinished(s, u)
    ensures s.workers[w].pc.LockRows? || InClaim(s.workers[w].pc)
    ensures InClaim(s.workers[w].pc) ==> !InClaim(s.workers[u].pc)
    ensures s.workers[w].pc.LockRows? ==>
      && s.workers[w].pc.todo != []
      && !InClaim(s.workers[u].pc)
      && (s.workers[u].pc.LockRows? ==>
        s.workers[u].pc.todo != [] && s.workers[w].pc.todo[0] < s.workers[u].pc.todo[0])
  {
    assert OrderOk(s.db, s.locks, w, s.workers[w]);
    var x := Wants(s, w).value;
    assert u in s.workers && HasTx(s.workers[u].pc);
    assert OrderOk(s.db, s.locks, u, s.workers[u]);
    assert Held(s.locks, x, u);
  }

  /** Claiming a key, waiting for an account by its id, and not waiting, in this order. */
  datatype Rank = Claiming | Locking(id: AccountId) | Running

  predicate Below(a: Rank, b: Rank) {
    match a
    case Claiming => !b.Claiming?
    case Locking(id) => b.Running? || (b.Locking? && id < b.id)
    case Running => false
  }

  function RankOf(s: State, w: WorkerId): Rank
    requires w in s.workers
  {
    if !Blocked(s, w) then Running
    else match Wants(s, w).value
         case LockedKey(_) => Claiming
         case LockedAccount(a) => Locking(a)
  }

  lemma WaitsGoUp(s: State, w: WorkerId, u: WorkerId)
    requires LocksOk(s) && OrderInv(s) && WaitsFor(s, w, u)
    ensures Unfinished(s, u) && Below(RankOf(s, w), RankOf(s, u))
  {
    WaitKind(s, w, u);
    if Blocked(s, u) {
      assert WaitsFor(s, u, s.locks[Wants(s, u).value]);
      WaitKind(s, u, s.locks[Wants(s, u).value]);
    }
  }

  ghost predicate WaitPath(s: State, path: seq<WorkerId>) {
    forall i | 0 <= i < |path| - 1 :: WaitsFor(s, path[i], path[i + 1])
  }

  lemma {:induction false} PathGoesUp(s: State, path: seq<WorkerId>)
    requires LocksOk(s) && OrderInv(s) && |path| >= 2 && WaitPath(s, path)
    ensures Unfinished(s, path[0]) && Unfinished(s, path[|path| - 1])
    ensures Below(RankOf(s, path[0]), RankOf(s, path[|path| - 1]))
    decreases |path|
  {
    assert WaitsFor(s, path[0], path[1]);
    WaitsGoUp(s, path[0], path[1]);
    if |path| > 2 {
      var rest := path[1..];
      forall i | 0 <= i < |rest| - 1 ensures WaitsFor(s, rest[i], rest[i + 1]) {
        var j := i + 1;
        assert WaitsFor(s, path[j], path[j + 1]);
      }
      PathGoesUp(s, rest);
    }
  }

  /** The wait-for graph has no cycle. */
  lemma NoDeadlock(s: State, path: seq<WorkerId>)
    requires LocksOk(s) && OrderInv(s) && |path| >= 2 && WaitPath(s, path)
    ensures path[0] != path[|path| - 1]
  {
    PathGoesUp(s, path);
  }

  // --------------------------------------------------- the order is kept

  /** Calls of Fix B on accounts that exist when they start. */
  predicate StartsInOrder(s: State, l: Label) {
    l.Spawn? ==> l.strategy.ForUpdate? && l.req.from in s.db.accounts && l.req.to in s.db.accounts
  }

  ghost predicate AllInOrder(s: State, ls: seq<Label>)
    decreases |ls|
  {
    ls != [] ==> StartsInOrder(s, ls[0]) && AllInOrder(Step(s, ls[0]), ls[1..])
  }

  lemma LockListCovers(v: Db, from: AccountId, to: AccountId)
    requires from in v.accounts && to in v.accounts
    ensures var todo := LockList(v, from, to);
      todo != [] && Ascending(todo) && from in todo && to in todo
  {
    var lo := if from > to then to else from;
    var todo := LockList(v, from, to);
    assert todo[0] == lo;
    if from != to {
      assert todo[1] == if from > to then from else to;
    }
  }

  lemma OrderStable(db: Db, next: Db, locks: map<Resource, WorkerId>, nextLocks: map<Resource, WorkerId>,
                    w: WorkerId, worker: Worker)
    requires OrderOk(db, locks, w, worker)
    requires forall a | a in db.accounts :: a in next.accounts
    requires forall x :: Held(locks, x, w) <==> Held(nextLocks, x, w)
    ensures OrderOk(next, nextLocks, w, worker)
  {
  }

  ghost predicate NextInOrder(s: State, w: WorkerId, e: Effect)
    requires w in s.workers
  {
    e.Next? ==> OrderOk(s.db, LocksAfter(s, w, e.lock), w, s.workers[w].(pc := e.pc, tx := e.tx))
  }

  lemma ClaimInOrder(s: State, w: WorkerId, appClock: int)
    requires w in s.workers && InClaim(s.workers[w].pc)
    requires OrderOk(s.db, s.locks, w, s.workers[w])
    ensures NextInOrder(s, w, ClaimEffect(s, w, appClock))
  {
    var key := LockedKey(s.workers[w].req.key);
    var locks := s.locks[key := w];
    forall x | Held(locks, x, w) ensures x == key {
      assert x != key ==> Held(s.locks, x, w);
    }
  }

  lemma PreLockInOrder(s: State, w: WorkerId, appClock: int)
    requires w in s.workers && s.workers[w].pc.PreLock?
    requires OrderOk(s.db, s.locks, w, s.workers[w])
    ensures NextInOrder(s, w, Stmt(s, w, appClock))
  {
    var worker := s.workers[w];
    LockListCovers(View(s.db, worker.tx), worker.req.from, worker.req.to);
  }

  /** Taking the lowest lock of the list keeps the order. */
  lemma LockLowest(db: Db, locks: map<Resource, WorkerId>, next: map<Resource, WorkerId>, w: WorkerId, worker: Worker)
    requires OrderOk(db, locks, w, worker) && worker.pc.LockRows?
    requires next == locks[LockedAccount(worker.pc.todo[0]) := w]
    ensures var todo, r := worker.pc.todo, worker.req;
      && (forall x | Held(next, x, w) :: x.LockedKey? || x.id <= todo[0])
      && (r.from in todo[1..] || Held(next, LockedAccount(r.from), w))
      && (r.to in todo[1..] || Held(next, LockedAccount(r.to), w))
  {
    var todo, r := worker.pc.todo, worker.req;
    assert forall a | a in todo :: a == todo[0] || a in todo[1..];
    forall x | Held(next, x, w) ensures x.LockedKey? || x.id <= todo[0] {
      assert x != LockedAccount(todo[0]) ==> Held(locks, x, w);
    }
  }

  lemma LockRowsInOrder(s: State, w: WorkerId, appClock: int)
    requires w in s.workers && s.workers[w].pc.LockRows?
    requires OrderOk(s.db, s.locks, w, s.workers[w])
    ensures NextInOrder(s, w, Stmt(s, w, appClock))
  {
    var worker := s.workers[w];
    var todo := worker.pc.todo;
    var locks := s.locks[LockedAccount(todo[0]) := w];
    LockLowest(s.db, s.locks, locks, w, worker);
    assert forall i | 0 <= i < |todo[1..]| :: todo[1..][i] == todo[i + 1] && todo[0] < todo[i + 1];
  }

  lemma BothLockedInOrder(s: State, w: WorkerId, appClock: int)
    requires w in s.workers && BothLocked(s.workers[w].pc)
    requires OrderOk(s.db, s.locks, w, s.workers[w])
    ensures NextInOrder(s, w, Stmt(s, w, appClock))
  {
  }

  lemma MoveInOrder(s: State, l: Label)
    requires IsMove(s, l) && OrderOk(s.db, s.locks, l.w, s.workers[l.w])
    requires s.workers[l.w].pc.Guard? || s.workers[l.w].pc.Begin? ==> forall x :: !Held(s.locks, x, l.w)
    ensures NextInOrder(s, l.w, Move(s, l))
  {
    var pc := s.workers[l.w].pc;
    if l.Statement? {
      if InClaim(pc) {
        ClaimInOrder(s, l.w, l.appClock);
      } else if pc.PreLock? {
        PreLockInOrder(s, l.w, l.appClock);
      } else if pc.LockRows? {
        LockRowsInOrder(s, l.w, l.appClock);
      } else if BothLocked(pc) {
        BothLockedInOrder(s, l.w, l.appClock);
      }
    }
  }

  lemma OwnOrderAfter(s: State, w: WorkerId, e: Effect)
    requires w in s.workers && OrderOk(s.db, s.locks, w, s.workers[w])
    requires forall a | a in s.db.accounts :: a in Perform(s, w, e).db.accounts
    requires NextInOrder(s, w, e)
    requires s.workers[w].pc.Begin? ==> forall x :: !Held(s.locks, x, w)
    requires e.Open? ==> s.workers[w].pc.Begin?
    requires e.Halt? ==> Over(e.pc)
    ensures var next := Perform(s, w, e); OrderOk(next.db, next.locks, w, next.workers[w])
  {
  }

  lemma OthersHoldsSame(s: State, w: WorkerId, e: Effect, u: WorkerId)
    requires w in s.workers && u != w
    requires e.Next? && e.lock.Some? ==> CanLock(s, w, e.lock.value)
    ensures forall x :: Held(s.locks, x, u) <==> Held(Perform(s, w, e).locks, x, u)
    ensures u in Perform(s, w, e).workers <==> u in s.workers
    ensures u in s.workers ==> Perform(s, w, e).workers[u] == s.workers[u]
  {
  }

  lemma AccountsStay(s: State, l: Label)
    requires Inv(s)
    ensures forall a | a in s.db.accounts :: a in Step(s, l).db.accounts
  {
    StepRefines(s, l);
    if Committed(s, l) != [] {
      FoldOne(s.db, Committed(s, l)[0]);
      assert Committed(s, l) == [Committed(s, l)[0]];
    }
  }

  lemma NoTxNoLocks(s: State, w: WorkerId)
    requires LocksOk(s) && w in s.workers && !HasTx(s.workers[w].pc)
    ensures forall x :: !Held(s.locks, x, w)
  {
  }

  lemma MoveKeepsOrder(s: State, l: Label)
    requires Inv(s) && OrderInv(s) && IsMove(s, l)
    ensures OrderInv(Step(s, l))
  {
    var w := l.w;
    var e := Move(s, l);
    var next := Step(s, l);
    MoveOk(s, l);
    AccountsStay(s, l);
    if !HasTx(s.workers[w].pc) {
      NoTxNoLocks(s, w);
    }
    assert OrderOk(s.db, s.locks, w, s.workers[w]);
    MoveInOrder(s, l);
    OwnOrderAfter(s, w, e);
    forall u | u in next.workers && u != w ensures OrderOk(next.db, next.locks, u, next.workers[u]) {
      OthersHoldsSame(s, w, e, u);
      OrderStable(s.db, next.db, s.locks, next.locks, u, s.workers[u]);
    }
  }

  lemma OutsideKeepsOrder(s: State, l: Label)
    requires OrderInv(s) && StartsInOrder(s, l) && !IsMove(s, l)
    requires forall a | a in s.db.accounts :: a in Step(s, l).db.accounts
    ensures OrderInv(Step(s, l))
  {
    var next := Step(s, l);
    forall u | u in s.workers ensures OrderOk(next.db, next.locks, u, s.workers[u]) {
      OrderStable(s.db, next.db, s.locks, next.locks, u, s.workers[u]);
    }
  }

  lemma StepKeepsOrder(s: State, l: Label)
    requires Inv(s) && OrderInv(s) && StartsInOrder(s, l)
    ensures OrderInv(Step(s, l))
  {
    if IsMove(s, l) {
      MoveKeepsOrder(s, l);
    } else {
      AccountsStay(s, l);
      OutsideKeepsOrder(s, l);
    }
  }

  lemma {:induction false} RunKeepsOrder(s: State, ls: seq<Label>)
    requires Inv(s) && OrderInv(s) && AllInOrder(s, ls)
    ensures Inv(Run(s, ls)) && OrderInv(Run(s, ls))
    decreases |ls|
  {
    if ls != [] {
      StepKeepsInv(s, ls[0]);
      StepKeepsOrder(s, ls[0]);
      RunKeepsOrder(Step(s, ls[0]), ls[1..]);
    }
  }

  // -------------------------------------------------------------- progress

  lemma {:induction false} Topmost(s: State, ws: set<WorkerId>) returns (top: WorkerId)
    requires ws != {} && ws <= s.workers.Keys
    ensures top in ws && forall w | w in ws :: !Below(RankOf(s, top), RankOf(s, w))
    decreases |ws|
  {
    var some := (var w :| w in ws; w);
    var rest := ws - {some};
    assert forall w | w in ws :: w == some || w in rest;
    if rest == {} {
      top := some;
    } else {
      top := Topmost(s, rest);
      if Below(RankOf(s, top), RankOf(s, some)) {
        top := some;
      }
    }
  }

  /** While a call is unfinished, the next statement of some unfinished call does not wait. */
  lemma SomeoneCanStep(s: State)
    requires Inv(s) && OrderInv(s) && exists w :: Unfinished(s, w)
    ensures exists w :: Unfinished(s, w) && forall appClock :: !Stmt(s, w, appClock).Wait?
  {
    var ws := set w | w in s.workers && Unfinished(s, w);
    var some :| Unfinished(s, some);
    assert some in ws;
    var top := Topmost(s, ws);
    if Blocked(s, top) {
      var u := s.locks[Wants(s, top).value];
      WaitsGoUp(s, top, u);
    }
    forall appClock ensures !Stmt(s, top, appClock).Wait? {
      WaitIffBlocked(s, top, appClock);
    }
  }
}
