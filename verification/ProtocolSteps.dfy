/** Every statement, fault, crash, commit and outside change keeps the protocol invariant. */
module ProtocolSteps {
  import opened Types
  import opened AtomicLedger
  import opened Statements
  import opened Protocol
  import opened ProtocolInvariant

  function LocksAfter(s: State, w: WorkerId, lock: Option<Resource>): map<Resource, WorkerId> {
    if lock.Some? then s.locks[lock.value := w] else s.locks
  }

  /** An effect leaves the worker that performs it in order. */
  ghost predicate EffectOk(s: State, w: WorkerId, e: Effect)
    requires w in s.workers
  {
    var worker := s.workers[w];
    match e
    case Wait => true
    case Open => worker.pc.Begin?
    case Next(pc, tx, lock) =>
      && !Over(pc)
      && (HasTx(pc) <==> HasTx(worker.pc))
      && tx.stamp == worker.tx.stamp
      && (lock.Some? ==> CanLock(s, w, lock.value) && HasTx(pc))
      && WorkerOk(s.db, LocksAfter(s, w, lock), w, worker.(pc := pc, tx := tx))
    case Again => HasTx(worker.pc) || worker.pc.Begin?
    case Halt(pc) => Over(pc) && (pc.Finished? ==> AnswerOk(s.db, worker.req, pc.outcome) && !pc.outcome.Success?)
    case Install(outcome) =>
      && worker.pc.Commit?
      && (outcome.Success? ==> outcome.transfer == TransferRow(worker.req, worker.tx.stamp, worker.tx.start))
      && !outcome.Replay?
  }

  lemma ClaimInsertOk(s: State, w: WorkerId, appClock: int)
    requires w in s.workers && s.workers[w].pc.ClaimInsert?
    requires WorkerOk(s.db, s.locks, w, s.workers[w])
    ensures EffectOk(s, w, ClaimEffect(s, w, appClock))
  {
    assert View(s.db, s.workers[w].tx).keys == s.db.keys;
  }

  lemma ClaimReadOk(s: State, w: WorkerId, appClock: int)
    requires w in s.workers && s.workers[w].pc.ClaimRead?
    requires KeysOk(s.db) && WorkerOk(s.db, s.locks, w, s.workers[w])
    ensures EffectOk(s, w, ClaimEffect(s, w, appClock))
  {
    assert View(s.db, s.workers[w].tx).keys == s.db.keys;
  }

  lemma ClaimStealOk(s: State, w: WorkerId, appClock: int)
    requires w in s.workers && s.workers[w].pc.ClaimSteal?
    requires WorkerOk(s.db, s.locks, w, s.workers[w])
    ensures EffectOk(s, w, ClaimEffect(s, w, appClock))
  {
    assert View(s.db, s.workers[w].tx).keys == s.db.keys;
  }

  lemma ReadBalanceOk(s: State, w: WorkerId)
    requires w in s.workers && IsDebit(s.workers[w].pc)
    requires var pc := s.workers[w].pc; pc.DebitMissed? || pc.DebitRead? || pc.OptRead?
    requires WorkerOk(s.db, s.locks, w, s.workers[w])
    ensures EffectOk(s, w, DebitEffect(s, w))
  {
  }

  lemma DebitConditionalOk(s: State, w: WorkerId)
    requires w in s.workers && s.workers[w].pc.DebitConditional?
    requires WorkerOk(s.db, s.locks, w, s.workers[w])
    ensures EffectOk(s, w, DebitEffect(s, w))
  {
    assert View(s.db, s.workers[w].tx).accounts == s.db.accounts;
  }

  lemma DebitWriteOk(s: State, w: WorkerId)
    requires w in s.workers && s.workers[w].pc.DebitWrite?
    requires WorkerOk(s.db, s.locks, w, s.workers[w])
    ensures EffectOk(s, w, DebitEffect(s, w))
  {
    assert View(s.db, s.workers[w].tx).accounts == s.db.accounts;
  }

  lemma OptDebitOk(s: State, w: WorkerId)
    requires w in s.workers && s.workers[w].pc.OptDebit?
    requires WorkerOk(s.db, s.locks, w, s.workers[w])
    ensures EffectOk(s, w, DebitEffect(s, w))
  {
    assert View(s.db, s.workers[w].tx).accounts == s.db.accounts;
  }

  lemma CreditKeepsOk(db: Db, locks: map<Resource, WorkerId>, w: WorkerId, worker: Worker)
    requires WorkerOk(db, locks, w, worker) && worker.pc.Credit?
    requires worker.req.to in db.accounts && CreditedRow(db, worker).balance <= MAX_INT64
    ensures
      var tx := worker.tx.(rows := worker.tx.rows[worker.req.to := CreditedRow(db, worker)]);
      WorkerOk(db, locks[LockedAccount(worker.req.to) := w], w, worker.(pc := AddTransfer, tx := tx))
  {
  }

  lemma CreditEffectOk(s: State, w: WorkerId, appClock: int)
    requires w in s.workers && s.workers[w].pc.Credit?
    requires WorkerOk(s.db, s.locks, w, s.workers[w])
    ensures EffectOk(s, w, Stmt(s, w, appClock))
  {
    var worker := s.workers[w];
    var r := worker.req;
    var v := View(s.db, worker.tx);
    if r.to in v.accounts && CreditedRow(s.db, worker).balance <= MAX_INT64 {
      CreditKeepsOk(s.db, s.locks, w, worker);
    }
  }

  lemma AddTransferKeepsOk(db: Db, locks: map<Resource, WorkerId>, w: WorkerId, worker: Worker)
    requires WorkerOk(db, locks, w, worker) && worker.pc.AddTransfer?
    requires var r := worker.req; FitsChar3(r.currency) && r.amount > 0 && r.from != r.to
    ensures
      var row := TransferRow(worker.req, worker.tx.stamp, worker.tx.start);
      var tx := worker.tx.(transfers := worker.tx.transfers + [row]);
      WorkerOk(db, locks, w, worker.(pc := AddPostings, tx := tx))
  {
  }

  lemma AddTransferOk(s: State, w: WorkerId, appClock: int)
    requires w in s.workers && WorkerOk(s.db, s.locks, w, s.workers[w])
    requires s.workers[w].pc.AddTransfer?
    ensures EffectOk(s, w, Stmt(s, w, appClock))
  {
    var worker := s.workers[w];
    var r := worker.req;
    if FitsChar3(r.currency) && r.amount > 0 && r.from != r.to {
      AddTransferKeepsOk(s.db, s.locks, w, worker);
    }
  }

  lemma AddPostingsOk(s: State, w: WorkerId, appClock: int)
    requires w in s.workers && WorkerOk(s.db, s.locks, w, s.workers[w])
    requires s.workers[w].pc.AddPostings?
    ensures EffectOk(s, w, Stmt(s, w, appClock))
  {
  }

  lemma ReadUrlOk(s: State, w: WorkerId, appClock: int)
    requires w in s.workers && WorkerOk(s.db, s.locks, w, s.workers[w])
    requires s.workers[w].pc.ReadUrl?
    ensures EffectOk(s, w, Stmt(s, w, appClock))
  {
    var worker := s.workers[w];
    assert WebhookOf(View(s.db, worker.tx), worker.req.to) == WebhookOf(s.db, worker.req.to);
  }

  lemma AddEventOk(s: State, w: WorkerId, appClock: int)
    requires w in s.workers && WorkerOk(s.db, s.locks, w, s.workers[w])
    requires s.workers[w].pc.AddEvent?
    ensures EffectOk(s, w, Stmt(s, w, appClock))
  {
  }

  lemma CompleteClaimOk(s: State, w: WorkerId, appClock: int)
    requires w in s.workers && WorkerOk(s.db, s.locks, w, s.workers[w])
    requires s.workers[w].pc.CompleteClaim?
    ensures EffectOk(s, w, Stmt(s, w, appClock))
  {
    var worker := s.workers[w];
    assert worker.tx.keys == map[worker.req.key := ClaimedKey(s.db, worker.req.key, worker.req.hash, worker.tx.start)];
  }

  lemma LockNextOk(db: Db, locks: map<Resource, WorkerId>, w: WorkerId, worker: Worker, todo: seq<AccountId>)
    requires WorkerOk(db, locks, w, worker) && |todo| <= 2
    requires worker.pc.PreLock? || worker.pc.LockRows?
    ensures WorkerOk(db, locks, w, worker.(pc := NextLock(todo)))
  {
  }

  lemma PreLockOk(s: State, w: WorkerId, appClock: int)
    requires w in s.workers && WorkerOk(s.db, s.locks, w, s.workers[w])
    requires s.workers[w].pc.PreLock?
    ensures EffectOk(s, w, Stmt(s, w, appClock))
  {
    var worker := s.workers[w];
    LockNextOk(s.db, s.locks, w, worker, LockList(View(s.db, worker.tx), worker.req.from, worker.req.to));
  }

  lemma LockRowsOk(s: State, w: WorkerId, appClock: int)
    requires w in s.workers && WorkerOk(s.db, s.locks, w, s.workers[w])
    requires s.workers[w].pc.LockRows?
    ensures EffectOk(s, w, Stmt(s, w, appClock))
  {
    var worker := s.workers[w];
    var todo := worker.pc.todo;
    if todo == [] {
      LockNextOk(s.db, s.locks, w, worker, todo);
    } else if CanLock(s, w, LockedAccount(todo[0])) {
      var locks := s.locks[LockedAccount(todo[0]) := w];
      WorkerStable(s.db, s.db, s.locks, locks, w, worker);
      LockNextOk(s.db, locks, w, worker, todo[1..]);
    }
  }

  lemma CheckCurrencyOk(s: State, w: WorkerId, appClock: int)
    requires w in s.workers && WorkerOk(s.db, s.locks, w, s.workers[w])
    requires s.workers[w].pc.CheckCurrency?
    ensures EffectOk(s, w, Stmt(s, w, appClock))
  {
    var worker := s.workers[w];
    assert View(s.db, worker.tx).accounts == s.db.accounts;
  }

  lemma OuterOk(s: State, w: WorkerId, appClock: int)
    requires w in s.workers && WorkerOk(s.db, s.locks, w, s.workers[w])
    requires var pc := s.workers[w].pc; Over(pc) || pc.Guard? || pc.Begin? || pc.Commit?
    ensures EffectOk(s, w, Stmt(s, w, appClock))
  {
  }

  lemma StmtOk(s: State, w: WorkerId, appClock: int)
    requires w in s.workers && KeysOk(s.db) && WorkerOk(s.db, s.locks, w, s.workers[w])
    ensures EffectOk(s, w, Stmt(s, w, appClock))
  {
    var worker := s.workers[w];
    if worker.pc.ClaimInsert? {
      ClaimInsertOk(s, w, appClock);
    } else if worker.pc.ClaimRead? {
      ClaimReadOk(s, w, appClock);
    } else if worker.pc.ClaimSteal? {
      ClaimStealOk(s, w, appClock);
    } else if worker.pc.DebitMissed? || worker.pc.DebitRead? || worker.pc.OptRead? {
      ReadBalanceOk(s, w);
    } else if worker.pc.DebitConditional? {
      DebitConditionalOk(s, w);
    } else if worker.pc.DebitWrite? {
      DebitWriteOk(s, w);
    } else if worker.pc.OptDebit? {
      OptDebitOk(s, w);
    } else if worker.pc.Credit? {
      CreditEffectOk(s, w, appClock);
    } else if worker.pc.AddTransfer? {
      AddTransferOk(s, w, appClock);
    } else if worker.pc.AddPostings? {
      AddPostingsOk(s, w, appClock);
    } else if worker.pc.ReadUrl? {
      ReadUrlOk(s, w, appClock);
    } else if worker.pc.AddEvent? {
      AddEventOk(s, w, appClock);
    } else if worker.pc.CompleteClaim? {
      CompleteClaimOk(s, w, appClock);
    } else if worker.pc.CheckCurrency? {
      CheckCurrencyOk(s, w, appClock);
    } else if worker.pc.PreLock? {
      PreLockOk(s, w, appClock);
    } else if worker.pc.LockRows? {
      LockRowsOk(s, w, appClock);
    } else {
      OuterOk(s, w, appClock);
    }
  }

  lemma MoveOk(s: State, l: Label)
    requires Inv(s) && IsMove(s, l)
    ensures EffectOk(s, l.w, Move(s, l))
  {
    if l.Statement? {
      StmtOk(s, l.w, l.appClock);
    }
  }

  // ------------------------------------------------------- the whole system

  ghost predicate OthersRely(s: State, next: Db, w: WorkerId) {
    forall u | u in s.workers && u != w :: Rely(s.db, next, s.locks, u)
  }

  /** A change by one worker that the others can rely on keeps every worker in order. */
  lemma WorkersKept(s: State, next: State, w: WorkerId)
    requires WorkersOk(s) && OthersRely(s, next.db, w)
    requires w in s.workers && w in next.workers && next.workers == s.workers[w := next.workers[w]]
    requires forall u | u in s.workers && u != w :: KeepsHolds(s.locks, next.locks, u)
    requires WorkerOk(next.db, next.locks, w, next.workers[w])
    ensures WorkersOk(next)
  {
    forall u | u in next.workers
      ensures WorkerOk(next.db, next.locks, u, next.workers[u])
    {
      if u != w {
        WorkerStable(s.db, next.db, s.locks, next.locks, u, s.workers[u]);
      }
    }
  }

  lemma SameDbRely(s: State, w: WorkerId)
    ensures OthersRely(s, s.db, w)
  {
  }

  lemma OpenWorkerOk(db: Db, locks: map<Resource, WorkerId>, w: WorkerId, worker: Worker, start: int, stamp: Id)
    requires WorkerOk(db, locks, w, worker) && worker.pc.Begin?
    ensures WorkerOk(db, locks, w, worker.(pc := AfterBegin(worker), tx := OpenTx(start, stamp)))
  {
  }

  lemma OpenKeepsInv(s: State, w: WorkerId)
    requires Inv(s) && w in s.workers && s.workers[w].pc.Begin?
    ensures Inv(Perform(s, w, Open))
  {
    var next := Perform(s, w, Open);
    OpenWorkerOk(s.db, s.locks, w, s.workers[w], s.clock, s.nextStamp);
    SameDbRely(s, w);
    WorkersKept(s, next, w);
  }

  lemma NextKeepsLocks(s: State, w: WorkerId, pc: Pc, tx: Tx, lock: Option<Resource>)
    requires LocksOk(s) && w in s.workers && (HasTx(pc) <==> HasTx(s.workers[w].pc)) && (lock.Some? ==> HasTx(pc))
    ensures LocksOk(Perform(s, w, Next(pc, tx, lock)))
  {
  }

  lemma NextKeepsStamps(s: State, w: WorkerId, pc: Pc, tx: Tx, lock: Option<Resource>)
    requires StampsOk(s) && w in s.workers
    requires (HasTx(pc) <==> HasTx(s.workers[w].pc)) && tx.stamp == s.workers[w].tx.stamp
    ensures StampsOk(Perform(s, w, Next(pc, tx, lock)))
  {
  }

  lemma NextKeepsInv(s: State, w: WorkerId, e: Effect)
    requires Inv(s) && w in s.workers && EffectOk(s, w, e) && e.Next?
    ensures Inv(Perform(s, w, e))
  {
    var next := Perform(s, w, e);
    SameDbRely(s, w);
    assert next.locks == LocksAfter(s, w, e.lock);
    NextKeepsLocks(s, w, e.pc, e.tx, e.lock);
    NextKeepsStamps(s, w, e.pc, e.tx, e.lock);
    WorkersKept(s, next, w);
  }

  lemma EndWorkerOk(db: Db, locks: map<Resource, WorkerId>, next: Db, nextLocks: map<Resource, WorkerId>,
                    w: WorkerId, worker: Worker, pc: Pc, attempt: nat)
    requires WorkerOk(db, locks, w, worker) && attempt < MAX_RETRIES
    requires Over(pc) || (pc.Begin? && HasTx(worker.pc)) || (pc.Begin? && worker.pc.Begin?)
    requires pc.Finished? ==> AnswerOk(next, worker.req, pc.outcome)
    ensures WorkerOk(next, nextLocks, w, worker.(pc := pc, attempt := attempt, tx := NO_TX))
  {
  }

  lemma EndKeepsBooks(s: State, w: WorkerId, pc: Pc, attempt: nat)
    requires LocksOk(s) && StampsOk(s) && w in s.workers
    requires Over(pc) || pc.Begin?
    ensures LocksOk(EndTx(s, w, pc, attempt)) && StampsOk(EndTx(s, w, pc, attempt))
  {
  }

  lemma EndKeepsInv(s: State, w: WorkerId, pc: Pc, attempt: nat)
    requires Inv(s) && w in s.workers && attempt < MAX_RETRIES
    requires Over(pc) || (pc.Begin? && (HasTx(s.workers[w].pc) || s.workers[w].pc.Begin?))
    requires pc.Finished? ==> AnswerOk(s.db, s.workers[w].req, pc.outcome)
    ensures Inv(EndTx(s, w, pc, attempt))
  {
    var next := EndTx(s, w, pc, attempt);
    EndKeepsBooks(s, w, pc, attempt);
    EndWorkerOk(s.db, s.locks, s.db, next.locks, w, s.workers[w], pc, attempt);
    SameDbRely(s, w);
    WorkersKept(s, next, w);
  }

  // ---------------------------------------------------------- commits

  /** The rows an operation changes. */
  ghost predicate Touches(op: Op, r: Resource) {
    match op
    case TransferOp(_, _, req, _, _) =>
      || r == LockedAccount(req.from) || r == LockedAccount(req.to)
      || (req.key != "" && r == LockedKey(req.key))
    case OpenOp(_, _, _) => false
    case WebhookOp(id, _) => r == LockedAccount(id)
  }

  /** An operation on rows a worker has not locked is one it can rely on. */
  lemma ApplyRely(db: Db, op: Op, locks: map<Resource, WorkerId>, u: WorkerId)
    requires CanApply(db, op)
    requires forall r | Touches(op, r) :: !Held(locks, r, u)
    ensures Rely(db, Apply(db, op), locks, u)
  {
    if op.TransferOp? {
      assert Touches(op, LockedAccount(op.req.from)) && Touches(op, LockedAccount(op.req.to));
      assert op.req.key != "" ==> Touches(op, LockedKey(op.req.key));
    } else if op.WebhookOp? {
      assert Touches(op, LockedAccount(op.id));
    }
  }

  /** What COMMIT installs is exactly one atomic transfer, allowed on the tables of that moment. */
  lemma InstallIsApply(db: Db, locks: map<Resource, WorkerId>, w: WorkerId, worker: Worker)
    requires WorkerOk(db, locks, w, worker) && worker.pc.Commit?
    requires FreshStamp(db, worker.tx.stamp)
    ensures CanTransfer(db, worker.strategy, worker.req, worker.tx.stamp)
    ensures View(db, worker.tx)
         == ApplyTransfer(db, worker.strategy, worker.req, worker.tx.stamp, worker.tx.start)
  {
    var r := worker.req;
    var v := View(db, worker.tx);
    var next := ApplyTransfer(db, worker.strategy, r, worker.tx.stamp, worker.tx.start);
    assert v.accounts == next.accounts;
    assert v.keys == next.keys;
  }

  lemma ApplyKeepsFresh(db: Db, op: Op, n: Id)
    requires CanApply(db, op) && FreshStamp(db, n)
    requires op.TransferOp? ==> op.stamp != n
    ensures FreshStamp(Apply(db, op), n)
  {
  }

  function CommitOp(w: WorkerId, worker: Worker): Op {
    TransferOp(w, worker.strategy, worker.req, worker.tx.stamp, worker.tx.start)
  }

  lemma InstallKeepsBooks(s: State, w: WorkerId, outcome: Outcome)
    requires LocksOk(s) && StampsOk(s) && w in s.workers
    requires HasTx(s.workers[w].pc) && CanApply(s.db, CommitOp(w, s.workers[w]))
    requires View(s.db, s.workers[w].tx) == Apply(s.db, CommitOp(w, s.workers[w]))
    ensures var next := Perform(s, w, Install(outcome)); LocksOk(next) && StampsOk(next)
  {
    var op := CommitOp(w, s.workers[w]);
    var next := Perform(s, w, Install(outcome));
    forall n: Id | FreshStamp(s.db, n) && n != op.stamp ensures FreshStamp(next.db, n) {
      ApplyKeepsFresh(s.db, op, n);
    }
  }

  /** The locks a transaction holds when it commits cover all the rows it changes. */
  lemma CommitRely(s: State, w: WorkerId)
    requires w in s.workers && s.workers[w].pc.Commit?
    requires WorkerOk(s.db, s.locks, w, s.workers[w])
    requires CanApply(s.db, CommitOp(w, s.workers[w]))
    ensures OthersRely(s, Apply(s.db, CommitOp(w, s.workers[w])), w)
  {
    var op := CommitOp(w, s.workers[w]);
    forall r | Touches(op, r) ensures Held(s.locks, r, w) {
    }
    forall u | u in s.workers && u != w ensures Rely(s.db, Apply(s.db, op), s.locks, u) {
      ApplyRely(s.db, op, s.locks, u);
    }
  }

  lemma CommitAnswerOk(db: Db, w: WorkerId, worker: Worker, outcome: Outcome)
    requires CanApply(db, CommitOp(w, worker)) && !outcome.Replay?
    requires outcome.Success? ==> outcome.transfer == TransferRow(worker.req, worker.tx.stamp, worker.tx.start)
    ensures AnswerOk(Apply(db, CommitOp(w, worker)), worker.req, outcome)
  {
    var op := CommitOp(w, worker);
    var next := Apply(db, op);
    assert next.transfers[|db.transfers|] == TransferRow(worker.req, worker.tx.stamp, worker.tx.start);
  }

  lemma InstallKeepsWorkers(s: State, w: WorkerId, e: Effect)
    requires WorkersOk(s) && w in s.workers && EffectOk(s, w, e) && e.Install?
    requires CanApply(s.db, CommitOp(w, s.workers[w]))
    requires View(s.db, s.workers[w].tx) == Apply(s.db, CommitOp(w, s.workers[w]))
    ensures WorkersOk(Perform(s, w, e))
  {
    var worker := s.workers[w];
    var next := Perform(s, w, e);
    CommitAnswerOk(s.db, w, worker, e.outcome);
    EndWorkerOk(s.db, s.locks, next.db, next.locks, w, worker, Finished(e.outcome), worker.attempt);
    CommitRely(s, w);
    WorkersKept(s, next, w);
  }

  /** A commit is one atomic transfer and keeps the invariant. */
  lemma InstallKeepsInv(s: State, w: WorkerId, e: Effect)
    requires Inv(s) && w in s.workers && EffectOk(s, w, e) && e.Install?
    ensures CanApply(s.db, CommitOp(w, s.workers[w]))
    ensures Perform(s, w, e).db == Apply(s.db, CommitOp(w, s.workers[w]))
    ensures Inv(Perform(s, w, e))
  {
    var op := CommitOp(w, s.workers[w]);
    InstallIsApply(s.db, s.locks, w, s.workers[w]);
    ApplyKeepsDbInv(s.db, op);
    InstallKeepsBooks(s, w, e.outcome);
    InstallKeepsWorkers(s, w, e);
  }

  lemma AttemptOk(s: State, w: WorkerId)
    requires WorkersOk(s) && w in s.workers
    ensures s.workers[w].attempt < MAX_RETRIES
  {
    assert WorkerOk(s.db, s.locks, w, s.workers[w]);
  }

  /** Where an attempt that is to be tried again goes, and as which attempt. */
  function AgainAt(attempt: nat): (Pc, nat) {
    if attempt + 1 < MAX_RETRIES then (Begin, attempt + 1) else (Finished(Failed(TooManyRetries)), attempt)
  }

  lemma PerformAgain(s: State, w: WorkerId)
    requires w in s.workers
    ensures Perform(s, w, Again) == EndTx(s, w, AgainAt(s.workers[w].attempt).0, AgainAt(s.workers[w].attempt).1)
  {
  }

  lemma AgainKeepsInv(s: State, w: WorkerId)
    requires Inv(s) && w in s.workers && s.workers[w].attempt < MAX_RETRIES
    requires HasTx(s.workers[w].pc) || s.workers[w].pc.Begin?
    ensures Inv(Perform(s, w, Again))
  {
    var (pc, attempt) := AgainAt(s.workers[w].attempt);
    PerformAgain(s, w);
    EndKeepsInv(s, w, pc, attempt);
  }

  // ---------------------------------------------------- steps and runs

  lemma PerformKeepsInv(s: State, w: WorkerId, e: Effect)
    requires Inv(s) && w in s.workers && EffectOk(s, w, e)
    ensures Inv(Perform(s, w, e))
  {
    AttemptOk(s, w);
    match e
    case Wait =>
    case Open => OpenKeepsInv(s, w);
    case Next(pc, tx, lock) => NextKeepsInv(s, w, e);
    case Again => AgainKeepsInv(s, w);
    case Halt(pc) => EndKeepsInv(s, w, pc, s.workers[w].attempt);
    case Install(outcome) => InstallKeepsInv(s, w, e);
  }

  lemma SpawnWorkerOk(db: Db, locks: map<Resource, WorkerId>, w: WorkerId, strategy: Strategy, req: Request)
    ensures WorkerOk(db, locks, w, Worker(strategy, req, Guard, 0, NO_TX))
  {
  }

  lemma SpawnKeepsWorkers(s: State, w: WorkerId, strategy: Strategy, req: Request)
    requires WorkersOk(s) && w !in s.workers
    ensures WorkersOk(Step(s, Spawn(w, strategy, req)))
  {
    SpawnWorkerOk(s.db, s.locks, w, strategy, req);
  }

  lemma SpawnKeepsBooks(s: State, w: WorkerId, strategy: Strategy, req: Request)
    requires LocksOk(s) && StampsOk(s) && w !in s.workers
    ensures var next := Step(s, Spawn(w, strategy, req)); LocksOk(next) && StampsOk(next)
  {
  }

  lemma OutsideKeepsInv(s: State, op: Op)
    requires Inv(s) && CanApply(s.db, op) && !op.TransferOp?
    requires op.WebhookOp? ==> LockedAccount(op.id) !in s.locks
    ensures Inv(s.(db := Apply(s.db, op)))
  {
    var next := s.(db := Apply(s.db, op));
    ApplyKeepsDbInv(s.db, op);
    forall n: Id | FreshStamp(s.db, n) ensures FreshStamp(next.db, n) {
      ApplyKeepsFresh(s.db, op, n);
    }
    forall u | u in s.workers ensures WorkerOk(next.db, next.locks, u, next.workers[u]) {
      ApplyRely(s.db, op, s.locks, u);
      WorkerStable(s.db, next.db, s.locks, s.locks, u, s.workers[u]);
    }
  }

  lemma StepKeepsInv(s: State, l: Label)
    requires Inv(s)
    ensures Inv(Step(s, l))
  {
    match l
    case Spawn(w, strategy, req) =>
      if w !in s.workers {
        SpawnKeepsWorkers(s, w, strategy, req);
        SpawnKeepsBooks(s, w, strategy, req);
      }
    case OpenAccount(id, currency, webhook) =>
      if CanApply(s.db, OpenOp(id, currency, webhook)) {
        OutsideKeepsInv(s, OpenOp(id, currency, webhook));
      }
    case SetWebhook(id, url) =>
      if CanApply(s.db, WebhookOp(id, url)) && LockedAccount(id) !in s.locks {
        OutsideKeepsInv(s, WebhookOp(id, url));
      }
    case Tick(elapsed) =>
      assert forall w | w in s.workers :: WorkerOk(s.db, s.locks, w, s.workers[w]);
    case _ =>
      if l.w in s.workers {
        MoveOk(s, l);
        PerformKeepsInv(s, l.w, Move(s, l));
      }
  }

  lemma {:induction false} RunKeepsInv(s: State, ls: seq<Label>)
    requires Inv(s)
    ensures Inv(Run(s, ls))
    decreases |ls|
  {
    if ls != [] {
      StepKeepsInv(s, ls[0]);
      RunKeepsInv(Step(s, ls[0]), ls[1..]);
    }
  }

  lemma {:induction false} RunConcat(s: State, a: seq<Label>, b: seq<Label>)
    ensures Run(s, a + b) == Run(Run(s, a), b)
    decreases |a|
  {
    if a == [] {
      assert a + b == b;
    } else {
      assert (a + b)[0] == a[0] && (a + b)[1..] == a[1..] + b;
      RunConcat(Step(s, a[0]), a[1..], b);
    }
  }
}
