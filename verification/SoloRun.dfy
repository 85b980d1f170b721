/**
 A call that meets nobody: statement by statement, the protocol does exactly what the
 one-call specification says, for every strategy, request and table contents.
 */
module SoloRun {
  import opened Types
  import opened AtomicLedger
  import opened Statements
  import opened Protocol
  import opened ProtocolInvariant
  import opened ProtocolSteps
  import opened LedgerSpec
  import opened StepBound
  import ExactlyOnce

  /** Nobody else holds a lock or has a transfer to commit; others may have transactions open. */
  ghost predicate Alone(s: State, w: WorkerId) {
    && w in s.workers
    && (forall r | r in s.locks :: s.locks[r] == w)
    && forall u | u in s.workers && u != w :: s.workers[u].tx.transfers == []
  }

  /** The checks behind a call, and what its next statement takes for granted. */
  ghost predicate Passed(db: Db, worker: Worker, appClock: int) {
    var r := worker.req;
    var pc := worker.pc;
    && GuardError(worker.strategy, r).None?
    && (InClaim(pc) ==> r.key != "")
    && (pc.ClaimRead? || pc.ClaimSteal? ==> r.key in db.keys)
    && (pc.ClaimSteal? ==>
      && db.keys[r.key].status == InProgress && db.keys[r.key].hash == r.hash
      && appClock - db.keys[r.key].claimedAt > STALE_CLAIM)
    && (!InClaim(pc) ==> ClaimAnswer(db, r, worker.tx.start, appClock).None?)
    && (PastCheck(worker) ==> AccountsError(db, r).None?)
    && (pc.DebitMissed? ==> !Covers(db, r.from, r.amount))
    && (pc.DebitWrite? ==> Covers(db, r.from, r.amount))
    && (pc.OptDebit? ==> Covers(db, r.from, r.amount) && HasVersion(db, r.from, pc.version))
    && (PastDebit(pc) ==> DebitError(db, r.from, r.amount).None?)
    && (PastCredit(pc) ==> CreditError(db, r).None?)
    && (PastTransfer(pc) ==> RowError(r).None?)
  }

  ghost function CallOf(s: State, w: WorkerId, appClock: int): (Db, Outcome)
    requires w in s.workers && AccountsOk(s.db) && FreshStamp(s.db, s.workers[w].tx.stamp)
  {
    var worker := s.workers[w];
    Call(s.db, worker.strategy, worker.req, worker.tx.stamp, worker.tx.start, appClock)
  }

  /** The call goes on, with the check of this statement passed. */
  ghost predicate GoesOn(db: Db, worker: Worker, appClock: int, e: Effect) {
    && e.Next? && HasTx(e.pc) && e.tx.stamp == worker.tx.stamp && e.tx.start == worker.tx.start
    && Passed(db, worker.(pc := e.pc, tx := e.tx), appClock)
  }

  /** A statement lets the call go on, or ends it as the specification says. */
  ghost predicate SoloEffect(s: State, w: WorkerId, appClock: int, e: Effect)
    requires w in s.workers && AccountsOk(s.db) && FreshStamp(s.db, s.workers[w].tx.stamp)
  {
    match e
    case Next(_, _, _) => GoesOn(s.db, s.workers[w], appClock, e)
    case Halt(pc) => pc.Finished? && CallOf(s, w, appClock) == (s.db, pc.outcome)
    case Install(outcome) => CallOf(s, w, appClock) == (View(s.db, s.workers[w].tx), outcome)
    case _ => false
  }

  /** The same for a statement of the work proper, which can only refuse for its first error. */
  ghost predicate WorkEffect(db: Db, worker: Worker, appClock: int, e: Effect) {
    var error := WorkError(db, worker.strategy, worker.req);
    GoesOn(db, worker, appClock, e) || (error.Some? && e == Halt(Finished(Failed(error.value))))
  }

  /** What every statement of the work starts from. */
  ghost predicate Working(s: State, w: WorkerId, appClock: int) {
    Alone(s, w) && HasTx(s.workers[w].pc) && Passed(s.db, s.workers[w], appClock)
  }

  ghost predicate Proceeding(s: State, w: WorkerId, appClock: int) {
    && Working(s, w, appClock)
    && AccountsOk(s.db) && KeysOk(s.db) && FreshStamp(s.db, s.workers[w].tx.stamp)
  }

  ghost predicate Ready(s: State, w: WorkerId, appClock: int) {
    Proceeding(s, w, appClock) && WorkerOk(s.db, s.locks, w, s.workers[w])
  }

  lemma Phase(db: Db, locks: map<Resource, WorkerId>, w: WorkerId, worker: Worker)
    requires WorkerOk(db, locks, w, worker) && HasTx(worker.pc)
    ensures InClaim(worker.pc) ==> worker.tx.keys == map[]
    ensures !PastDebit(worker.pc) ==> worker.tx.rows == map[]
    ensures RowsOk(db, locks, w, worker)
  {
  }

  lemma SoloClaimInsert(s: State, w: WorkerId, appClock: int)
    requires Proceeding(s, w, appClock) && s.workers[w].tx.keys == map[]
    requires s.workers[w].pc.ClaimInsert?
    ensures SoloEffect(s, w, appClock, ClaimEffect(s, w, appClock))
  {
    assert View(s.db, s.workers[w].tx).keys == s.db.keys;
  }

  lemma SoloClaimRead(s: State, w: WorkerId, appClock: int)
    requires Proceeding(s, w, appClock) && s.workers[w].tx.keys == map[]
    requires s.workers[w].pc.ClaimRead?
    ensures SoloEffect(s, w, appClock, ClaimEffect(s, w, appClock))
  {
    assert View(s.db, s.workers[w].tx).keys == s.db.keys;
  }

  lemma SoloClaimSteal(s: State, w: WorkerId, appClock: int)
    requires Proceeding(s, w, appClock) && s.workers[w].tx.keys == map[]
    requires s.workers[w].pc.ClaimSteal?
    ensures SoloEffect(s, w, appClock, ClaimEffect(s, w, appClock))
  {
    assert View(s.db, s.workers[w].tx).keys == s.db.keys;
  }

  lemma SoloPreLock(s: State, w: WorkerId, appClock: int)
    requires Working(s, w, appClock)
    requires s.workers[w].pc.PreLock?
    ensures WorkEffect(s.db, s.workers[w], appClock, Stmt(s, w, appClock))
  {
  }

  lemma SoloLockRows(s: State, w: WorkerId, appClock: int)
    requires Working(s, w, appClock)
    requires s.workers[w].pc.LockRows?
    ensures WorkEffect(s.db, s.workers[w], appClock, Stmt(s, w, appClock))
  {
  }

  lemma SoloCheck(s: State, w: WorkerId, appClock: int)
    requires Working(s, w, appClock) && s.workers[w].tx.rows == map[] && PcFits(s.workers[w])
    requires s.workers[w].pc.CheckCurrency?
    ensures WorkEffect(s.db, s.workers[w], appClock, Stmt(s, w, appClock))
  {
    assert View(s.db, s.workers[w].tx).accounts == s.db.accounts;
  }

  /** A covered debit succeeds unless the specification refuses it. */
  lemma DebitMatches(db: Db, tx: Tx, a: AccountId, amount: int)
    requires tx.rows == map[] && Covers(db, a, amount)
    ensures Covers(View(db, tx), a, amount)
    ensures var e, error := DebitIfCovered(View(db, tx), tx, a, amount), DebitError(db, a, amount);
      if error.Some? then e.Raise? && error.value == Sql(e.error) && !IsRetriable(e.error)
      else e.Rows? && e.tx.stamp == tx.stamp && e.tx.start == tx.start
  {
    assert View(db, tx).accounts == db.accounts;
  }

  lemma SoloDebitConditional(s: State, w: WorkerId, appClock: int)
    requires Working(s, w, appClock) && s.workers[w].tx.rows == map[]
    requires s.workers[w].pc.DebitConditional?
    ensures WorkEffect(s.db, s.workers[w], appClock, DebitEffect(s, w))
  {
    var worker := s.workers[w];
    if Covers(s.db, worker.req.from, worker.req.amount) {
      DebitMatches(s.db, worker.tx, worker.req.from, worker.req.amount);
    }
  }

  lemma SoloDebitMissed(s: State, w: WorkerId, appClock: int)
    requires Working(s, w, appClock) && s.workers[w].tx.rows == map[]
    requires s.workers[w].pc.DebitMissed?
    ensures WorkEffect(s.db, s.workers[w], appClock, DebitEffect(s, w))
  {
    assert View(s.db, s.workers[w].tx).accounts == s.db.accounts;
  }

  lemma SoloDebitRead(s: State, w: WorkerId, appClock: int)
    requires Working(s, w, appClock) && s.workers[w].tx.rows == map[]
    requires s.workers[w].pc.DebitRead?
    ensures WorkEffect(s.db, s.workers[w], appClock, DebitEffect(s, w))
  {
    assert View(s.db, s.workers[w].tx).accounts == s.db.accounts;
  }

  lemma SoloDebitWrite(s: State, w: WorkerId, appClock: int)
    requires Working(s, w, appClock) && s.workers[w].tx.rows == map[]
    requires s.workers[w].pc.DebitWrite?
    ensures WorkEffect(s.db, s.workers[w], appClock, DebitEffect(s, w))
  {
    assert View(s.db, s.workers[w].tx).accounts == s.db.accounts;
  }

  lemma SoloDebitOptimistic(s: State, w: WorkerId, appClock: int)
    requires Working(s, w, appClock) && s.workers[w].tx.rows == map[]
    requires var pc := s.workers[w].pc; pc.OptRead? || pc.OptDebit?
    ensures WorkEffect(s.db, s.workers[w], appClock, DebitEffect(s, w))
  {
    assert View(s.db, s.workers[w].tx).accounts == s.db.accounts;
  }

  /** The credit succeeds unless the specification refuses it. */
  lemma CreditMatches(db: Db, locks: map<Resource, WorkerId>, w: WorkerId, worker: Worker)
    requires RowsOk(db, locks, w, worker) && worker.pc.Credit? && worker.req.to in db.accounts
    ensures worker.req.to in View(db, worker.tx).accounts
    ensures var e, error := CreditRow(View(db, worker.tx), worker.tx, worker.req.to, worker.req.amount),
                            CreditError(db, worker.req);
      if error.Some? then e.Raise? && error.value == Sql(e.error) && !IsRetriable(e.error)
      else e.Rows? && e.tx.stamp == worker.tx.stamp && e.tx.start == worker.tx.start
  {
  }

  lemma SoloCredit(s: State, w: WorkerId, appClock: int)
    requires Working(s, w, appClock) && RowsOk(s.db, s.locks, w, s.workers[w])
    requires s.workers[w].pc.Credit?
    ensures WorkEffect(s.db, s.workers[w], appClock, Stmt(s, w, appClock))
  {
    var worker := s.workers[w];
    assert worker.req.to in View(s.db, worker.tx).accounts <==> worker.req.to in s.db.accounts;
    if worker.req.to in s.db.accounts {
      CreditMatches(s.db, s.locks, w, worker);
    }
  }

  lemma SoloAddTransfer(s: State, w: WorkerId, appClock: int)
    requires Working(s, w, appClock)
    requires s.workers[w].pc.AddTransfer?
    requires InsertTransfer(View(s.db, s.workers[w].tx), s.workers[w].tx, s.workers[w].req) != Raise(UniqueViolation)
    ensures WorkEffect(s.db, s.workers[w], appClock, Stmt(s, w, appClock))
  {
    assert s.workers[w].req.from in View(s.db, s.workers[w].tx).accounts;
    assert s.workers[w].req.to in View(s.db, s.workers[w].tx).accounts;
  }

  lemma SoloAddPostings(s: State, w: WorkerId, appClock: int)
    requires Working(s, w, appClock)
    requires var pc := s.workers[w].pc; pc.AddPostings? || pc.ReadUrl?
    ensures WorkEffect(s.db, s.workers[w], appClock, Stmt(s, w, appClock))
  {
    assert s.workers[w].req.from in View(s.db, s.workers[w].tx).accounts;
    assert s.workers[w].req.to in View(s.db, s.workers[w].tx).accounts;
  }

  lemma SoloAddEvent(s: State, w: WorkerId, appClock: int)
    requires Working(s, w, appClock)
    requires s.workers[w].pc.AddEvent?
    ensures WorkEffect(s.db, s.workers[w], appClock, Stmt(s, w, appClock))
  {
  }

  lemma SoloComplete(s: State, w: WorkerId, appClock: int)
    requires Working(s, w, appClock)
    requires s.workers[w].pc.CompleteClaim?
    ensures WorkEffect(s.db, s.workers[w], appClock, Stmt(s, w, appClock))
  {
  }

  lemma SoloCommit(s: State, w: WorkerId, appClock: int)
    requires Ready(s, w, appClock)
    requires s.workers[w].pc.Commit?
    ensures SoloEffect(s, w, appClock, Stmt(s, w, appClock))
  {
    InstallIsApply(s.db, s.locks, w, s.workers[w]);
  }

  lemma InsertIsNew(db: Db, worker: Worker, appClock: int)
    requires KeysOk(db) && FreshStamp(db, worker.tx.stamp) && worker.tx.transfers == []
    requires ClaimAnswer(db, worker.req, worker.tx.start, appClock).None?
    ensures InsertTransfer(View(db, worker.tx), worker.tx, worker.req) != Raise(UniqueViolation)
  {
    assert forall t | t in db.transfers :: t.key != KeyOf(worker.req, worker.tx.stamp);
    ExactlyOnce.NewRowInserts(db, worker.tx, worker.req);
  }

  lemma WorkStmt(s: State, w: WorkerId, appClock: int)
    requires Ready(s, w, appClock) && !InClaim(s.workers[w].pc) && !s.workers[w].pc.Commit?
    ensures WorkEffect(s.db, s.workers[w], appClock, Stmt(s, w, appClock))
  {
    Phase(s.db, s.locks, w, s.workers[w]);
    match s.workers[w].pc
    case PreLock => SoloPreLock(s, w, appClock);
    case LockRows(_) => SoloLockRows(s, w, appClock);
    case CheckCurrency => SoloCheck(s, w, appClock);
    case DebitConditional => SoloDebitConditional(s, w, appClock);
    case DebitMissed => SoloDebitMissed(s, w, appClock);
    case DebitRead => SoloDebitRead(s, w, appClock);
    case DebitWrite => SoloDebitWrite(s, w, appClock);
    case OptRead => SoloDebitOptimistic(s, w, appClock);
    case OptDebit(_) => SoloDebitOptimistic(s, w, appClock);
    case Credit => SoloCredit(s, w, appClock);
    case AddTransfer =>
      assert InsertsOk(s.db, s.workers[w]);
      InsertIsNew(s.db, s.workers[w], appClock);
      SoloAddTransfer(s, w, appClock);
    case AddPostings => SoloAddPostings(s, w, appClock);
    case ReadUrl => SoloAddPostings(s, w, appClock);
    case AddEvent(_) => SoloAddEvent(s, w, appClock);
    case CompleteClaim => SoloComplete(s, w, appClock);
  }

  lemma WorkIsSolo(s: State, w: WorkerId, appClock: int, e: Effect)
    requires Proceeding(s, w, appClock) && !InClaim(s.workers[w].pc)
    requires WorkEffect(s.db, s.workers[w], appClock, e)
    ensures SoloEffect(s, w, appClock, e)
  {
  }

  lemma SoloStmt(s: State, w: WorkerId, appClock: int)
    requires Ready(s, w, appClock)
    ensures SoloEffect(s, w, appClock, Stmt(s, w, appClock))
  {
    var pc := s.workers[w].pc;
    Phase(s.db, s.locks, w, s.workers[w]);
    if pc.ClaimInsert? {
      SoloClaimInsert(s, w, appClock);
    } else if pc.ClaimRead? {
      SoloClaimRead(s, w, appClock);
    } else if pc.ClaimSteal? {
      SoloClaimSteal(s, w, appClock);
    } else if pc.Commit? {
      SoloCommit(s, w, appClock);
    } else {
      WorkStmt(s, w, appClock);
      WorkIsSolo(s, w, appClock, Stmt(s, w, appClock));
    }
  }

  // -------------------------------------------------------------- whole calls

  function Moves(w: WorkerId, appClock: int, n: nat): seq<Label> {
    seq(n, _ => Statement(w, appClock))
  }

  lemma RunMore(s: State, w: WorkerId, appClock: int, n: nat)
    ensures Run(s, Moves(w, appClock, n + 1)) == Run(Step(s, Statement(w, appClock)), Moves(w, appClock, n))
  {
    assert Moves(w, appClock, n + 1)[1..] == Moves(w, appClock, n);
  }

  /** The call has ended, leaving these tables and this answer, no transaction and no lock. */
  ghost predicate EndsAs(s: State, w: WorkerId, end: (Db, Outcome)) {
    && w in s.workers && s.workers[w].pc.Finished? && (s.db, s.workers[w].pc.outcome) == end
    && s.workers[w].tx == NO_TX && s.locks == map[]
  }

  /** Nothing else in the system has moved. */
  ghost predicate OnlyCall(s: State, end: State, w: WorkerId) {
    && end.clock == s.clock && w in s.workers && end.workers.Keys == s.workers.Keys
    && (forall u | u in s.workers && u != w :: end.workers[u] == s.workers[u])
    && end.workers[w].req == s.workers[w].req && end.workers[w].strategy == s.workers[w].strategy
  }

  lemma OnlyCallMoves(s: State, w: WorkerId, e: Effect)
    requires w in s.workers
    ensures OnlyCall(s, Perform(s, w, e), w)
  {
  }

  lemma {:induction false} RunIsOnlyCall(s: State, w: WorkerId, appClock: int, n: nat)
    requires w in s.workers
    ensures OnlyCall(s, Run(s, Moves(w, appClock, n)), w)
    decreases n
  {
    if n > 0 {
      OnlyCallMoves(s, w, Stmt(s, w, appClock));
      RunMore(s, w, appClock, n - 1);
      RunIsOnlyCall(Step(s, Statement(w, appClock)), w, appClock, n - 1);
    }
  }

  /** A statement that ends the call. */
  lemma SoloHalts(s: State, w: WorkerId, appClock: int, e: Effect)
    requires Alone(s, w) && AccountsOk(s.db) && FreshStamp(s.db, s.workers[w].tx.stamp)
    requires SoloEffect(s, w, appClock, e) && !e.Next?
    ensures EndsAs(Perform(s, w, e), w, CallOf(s, w, appClock)) && Perform(s, w, e).nextStamp == s.nextStamp
  {
  }

  lemma AloneStays(s: State, w: WorkerId, e: Effect)
    requires Alone(s, w) && e.Next?
    ensures Alone(Perform(s, w, e), w)
  {
  }

  /** A statement after which the call goes on. */
  lemma SoloGoesOn(s: State, w: WorkerId, appClock: int, e: Effect)
    requires Ready(s, w, appClock) && SoloEffect(s, w, appClock, e) && e.Next?
    requires WorkerOk(s.db, LocksAfter(s, w, e.lock), w, s.workers[w].(pc := e.pc, tx := e.tx))
    ensures Ready(Perform(s, w, e), w, appClock) && Perform(s, w, e).nextStamp == s.nextStamp
    ensures CallOf(Perform(s, w, e), w, appClock) == CallOf(s, w, appClock)
  {
    AloneStays(s, w, e);
    assert Perform(s, w, e).locks == LocksAfter(s, w, e.lock);
  }

  lemma NextOk(s: State, w: WorkerId, appClock: int)
    requires Ready(s, w, appClock)
    ensures var e := Stmt(s, w, appClock);
      e.Next? ==> WorkerOk(s.db, LocksAfter(s, w, e.lock), w, s.workers[w].(pc := e.pc, tx := e.tx))
  {
    StmtOk(s, w, appClock);
  }

  /** Statements left in the attempt, at most. */
  function Left(s: State, w: WorkerId): int {
    if w in s.workers then STATEMENTS - PcRank(s.workers[w].pc) else 0
  }

  lemma RankGrows(worker: Worker, pc: Pc)
    requires HasTx(worker.pc) && HasTx(pc) && Fuel(worker.(pc := pc)) < Fuel(worker)
    ensures STATEMENTS > PcRank(pc) > PcRank(worker.pc)
  {
  }

  lemma NextAdvances(s: State, w: WorkerId, appClock: int)
    requires w in s.workers && WorkerOk(s.db, s.locks, w, s.workers[w])
    ensures Advances(s.workers[w], Stmt(s, w, appClock))
  {
    StmtAdvances(s, w, appClock);
  }

  /** One statement of a call that meets nobody: it ends the call, or brings it further. */
  lemma SoloStep(s: State, w: WorkerId, appClock: int) returns (more: bool)
    requires Ready(s, w, appClock)
    ensures var next := Step(s, Statement(w, appClock));
      && next.nextStamp == s.nextStamp
      && if more
         then Ready(next, w, appClock) && CallOf(next, w, appClock) == CallOf(s, w, appClock)
              && 0 < Left(next, w) < Left(s, w)
         else EndsAs(next, w, CallOf(s, w, appClock))
  {
    var e := Stmt(s, w, appClock);
    SoloStmt(s, w, appClock);
    more := e.Next?;
    if more {
      NextOk(s, w, appClock);
      SoloGoesOn(s, w, appClock, e);
      NextAdvances(s, w, appClock);
      RankGrows(s.workers[w], e.pc);
    } else {
      SoloHalts(s, w, appClock, e);
    }
  }

  /** After n more statements the call has ended so, and drawn no further id. */
  ghost predicate EndsAfter(s: State, w: WorkerId, appClock: int, n: nat, end: (Db, Outcome)) {
    EndsAs(Run(s, Moves(w, appClock, n)), w, end) && Run(s, Moves(w, appClock, n)).nextStamp == s.nextStamp
  }

  lemma EndsNow(s: State, w: WorkerId, appClock: int, end: (Db, Outcome))
    requires EndsAs(Step(s, Statement(w, appClock)), w, end) && Step(s, Statement(w, appClock)).nextStamp == s.nextStamp
    ensures EndsAfter(s, w, appClock, 1, end)
  {
    RunMore(s, w, appClock, 0);
  }

  lemma EndsLater(s: State, w: WorkerId, appClock: int, n: nat, end: (Db, Outcome))
    requires EndsAfter(Step(s, Statement(w, appClock)), w, appClock, n, end)
    requires Step(s, Statement(w, appClock)).nextStamp == s.nextStamp
    ensures EndsAfter(s, w, appClock, n + 1, end)
  {
    RunMore(s, w, appClock, n);
  }

  lemma SoloStepEnds(s: State, w: WorkerId, appClock: int) returns (next: State, more: bool)
    requires Ready(s, w, appClock)
    ensures next == Step(s, Statement(w, appClock)) && next.nextStamp == s.nextStamp
    ensures more ==> Ready(next, w, appClock) && CallOf(next, w, appClock) == CallOf(s, w, appClock)
    ensures more ==> 0 < Left(next, w) < Left(s, w)
    ensures !more ==> EndsAfter(s, w, appClock, 1, CallOf(s, w, appClock))
  {
    next := Step(s, Statement(w, appClock));
    more := SoloStep(s, w, appClock);
    if !more {
      EndsNow(s, w, appClock, CallOf(s, w, appClock));
    }
  }

  lemma {:induction false} SoloRest(s: State, w: WorkerId, appClock: int, left: nat) returns (n: nat)
    requires Ready(s, w, appClock) && Left(s, w) <= left
    ensures n <= left + 1 && EndsAfter(s, w, appClock, n, CallOf(s, w, appClock))
    decreases left
  {
    var next, more := SoloStepEnds(s, w, appClock);
    if more {
      n := SoloRest(next, w, appClock, left - 1);
      EndsLater(s, w, appClock, n, CallOf(s, w, appClock));
      n := n + 1;
    } else {
      n := 1;
    }
  }

  lemma GuardFails(s: State, w: WorkerId, appClock: int)
    requires Alone(s, w) && s.workers[w].pc.Guard? && AccountsOk(s.db) && FreshStamp(s.db, s.nextStamp)
    requires GuardError(s.workers[w].strategy, s.workers[w].req).Some?
    ensures var worker := s.workers[w];
      EndsAs(Step(s, Statement(w, appClock)), w,
             Call(s.db, worker.strategy, worker.req, s.nextStamp, s.clock, appClock))
    ensures Step(s, Statement(w, appClock)).nextStamp == s.nextStamp
  {
  }

  /** The checks are passed: nothing but the next statement has changed. */
  lemma GuardPasses(s: State, w: WorkerId, appClock: int)
    requires Alone(s, w) && s.workers[w].pc.Guard? && WorkerOk(s.db, s.locks, w, s.workers[w])
    requires GuardError(s.workers[w].strategy, s.workers[w].req).None?
    ensures var next := Step(s, Statement(w, appClock));
      && next == s.(workers := s.workers[w := s.workers[w].(pc := Begin)])
      && Alone(next, w) && WorkerOk(next.db, next.locks, w, next.workers[w])
  {
  }

  /** The transaction opens: the claim, or the work, is next. */
  lemma OpenIsReady(s: State, w: WorkerId, appClock: int)
    requires Alone(s, w) && s.workers[w].pc.Begin? && WorkerOk(s.db, s.locks, w, s.workers[w])
    requires AccountsOk(s.db) && KeysOk(s.db) && FreshStamp(s.db, s.nextStamp)
    requires GuardError(s.workers[w].strategy, s.workers[w].req).None?
    ensures var next := Perform(s, w, Open);
      var worker := s.workers[w];
      && Ready(next, w, appClock) && Left(next, w) <= 17
      && next.nextStamp == s.nextStamp + 1
      && CallOf(next, w, appClock) == Call(s.db, worker.strategy, worker.req, s.nextStamp, s.clock, appClock)
  {
    OpenWorkerOk(s.db, s.locks, w, s.workers[w], s.clock, s.nextStamp);
  }

  /** What two statements make of a call that passes its checks. */
  ghost predicate Opened(s: State, next: State, w: WorkerId, appClock: int)
    requires w in s.workers && AccountsOk(s.db) && FreshStamp(s.db, s.nextStamp)
  {
    var worker := s.workers[w];
    && Ready(next, w, appClock) && Left(next, w) <= 17
    && CallOf(next, w, appClock) == Call(s.db, worker.strategy, worker.req, s.nextStamp, s.clock, appClock)
    && next.nextStamp == s.nextStamp + 1
  }

  lemma TwoStatements(s: State, w: WorkerId, appClock: int)
    requires Alone(s, w) && s.workers[w].pc.Guard? && WorkerOk(s.db, s.locks, w, s.workers[w])
    requires AccountsOk(s.db) && KeysOk(s.db) && FreshStamp(s.db, s.nextStamp)
    requires GuardError(s.workers[w].strategy, s.workers[w].req).None?
    ensures Opened(s, Step(Step(s, Statement(w, appClock)), Statement(w, appClock)), w, appClock)
  {
    GuardPasses(s, w, appClock);
    OpenIsReady(Step(s, Statement(w, appClock)), w, appClock);
  }

  /** A call about to start, and what it needs of the tables it finds. */
  ghost predicate Starting(s: State, w: WorkerId) {
    && Alone(s, w) && s.workers[w].pc.Guard? && WorkerOk(s.db, s.locks, w, s.workers[w])
    && AccountsOk(s.db) && KeysOk(s.db) && FreshStamp(s.db, s.nextStamp)
  }

  lemma StartingNow(s: State, w: WorkerId)
    requires Inv(s) && Alone(s, w) && s.workers[w].pc.Guard?
    ensures Starting(s, w)
  {
  }

  /**
   A call that meets nobody ends within twenty statements, with the answer and the tables of
   the specification, whatever its strategy, its request and the tables it finds.
   */
  lemma SoloCall(s: State, w: WorkerId, appClock: int) returns (n: nat)
    requires Starting(s, w)
    ensures n <= 20
    ensures var worker := s.workers[w];
      var end := Run(s, Moves(w, appClock, n));
      && EndsAs(end, w, Call(s.db, worker.strategy, worker.req, s.nextStamp, s.clock, appClock))
      && end.nextStamp == s.nextStamp + if GuardError(worker.strategy, worker.req).None? then 1 else 0
  {
    var mid := Step(s, Statement(w, appClock));
    if GuardError(s.workers[w].strategy, s.workers[w].req).Some? {
      GuardFails(s, w, appClock);
      n := 1;
      RunMore(s, w, appClock, 0);
    } else {
      TwoStatements(s, w, appClock);
      var rest := SoloRest(Step(mid, Statement(w, appClock)), w, appClock, 17);
      RunMore(mid, w, appClock, rest);
      RunMore(s, w, appClock, rest + 1);
      n := rest + 2;
    }
  }

  /** On the machine itself Fix A and Fix B cannot be told apart by a request that passes the checks of Execute. */
  lemma StrategiesRunAlike(s: State, t: State, w: WorkerId, req: Request, appClock: int) returns (m: nat, n: nat)
    requires Inv(s) && Alone(s, w) && s.workers[w] == Worker(Conditional, req, Guard, 0, NO_TX)
    requires Inv(t) && Alone(t, w) && t.workers[w] == Worker(ForUpdate, req, Guard, 0, NO_TX)
    requires s.db == t.db && s.nextStamp == t.nextStamp && s.clock == t.clock
    requires GuardError(Conditional, req).None?
    ensures var a, b := Run(s, Moves(w, appClock, m)), Run(t, Moves(w, appClock, n));
      && w in a.workers && w in b.workers && a.workers[w].pc.Finished?
      && a.db == b.db && a.workers[w].pc == b.workers[w].pc
  {
    StartingNow(s, w);
    StartingNow(t, w);
    m := SoloCall(s, w, appClock);
    n := SoloCall(t, w, appClock);
    StrategiesAgree(s.db, req, s.nextStamp, s.clock, appClock);
  }

  // ------------------------------------------------- an error at the completion

  /** A keyed call reaches the commit through the completion only. */
  lemma CommitComesLast(s: State, w: WorkerId, appClock: int)
    requires w in s.workers && s.workers[w].req.key != "" && !s.workers[w].pc.CompleteClaim?
    ensures var e := Stmt(s, w, appClock); e.Next? ==> !e.pc.Commit?
  {
  }

  /** A keyed call that the specification accepts reaches its completion, with its transfer still uncommitted. */
  lemma {:induction false} ReachesCompletion(s: State, w: WorkerId, appClock: int, left: nat) returns (n: nat)
    requires Ready(s, w, appClock) && Left(s, w) <= left && !s.workers[w].pc.Commit?
    requires s.workers[w].req.key != "" && CallOf(s, w, appClock).1.Success?
    ensures n <= left
    ensures var end := Run(s, Moves(w, appClock, n));
      && w in end.workers && end.workers[w].pc.CompleteClaim? && end.workers[w].attempt == s.workers[w].attempt
      && end.db == s.db
    decreases left
  {
    if s.workers[w].pc.CompleteClaim? {
      n := 0;
    } else {
      var next := NotLastStep(s, w, appClock);
      n := ReachesCompletion(next, w, appClock, left - 1);
      RunMore(s, w, appClock, n);
      n := n + 1;
    }
  }

  lemma MustGoOn(s: State, w: WorkerId, appClock: int)
    requires Ready(s, w, appClock) && !s.workers[w].pc.Commit? && !s.workers[w].pc.CompleteClaim?
    requires s.workers[w].req.key != "" && CallOf(s, w, appClock).1.Success?
    ensures Stmt(s, w, appClock).Next? && !Stmt(s, w, appClock).pc.Commit?
  {
    SoloStmt(s, w, appClock);
    StmtOk(s, w, appClock);
    CommitComesLast(s, w, appClock);
  }

  lemma NextPerformed(s: State, w: WorkerId, e: Effect)
    requires w in s.workers && e.Next?
    ensures var next := Perform(s, w, e);
      && w in next.workers && next.workers[w] == s.workers[w].(pc := e.pc, tx := e.tx) && next.db == s.db
      && Left(next, w) == STATEMENTS - PcRank(e.pc)
  {
  }

  lemma NotLastStep(s: State, w: WorkerId, appClock: int) returns (next: State)
    requires Ready(s, w, appClock) && !s.workers[w].pc.Commit? && !s.workers[w].pc.CompleteClaim?
    requires s.workers[w].req.key != "" && CallOf(s, w, appClock).1.Success?
    ensures next == Step(s, Statement(w, appClock))
    ensures Ready(next, w, appClock) && CallOf(next, w, appClock) == CallOf(s, w, appClock)
    ensures 0 < Left(next, w) < Left(s, w) && !next.workers[w].pc.Commit?
    ensures next.workers[w].req == s.workers[w].req && next.workers[w].attempt == s.workers[w].attempt
    ensures next.db == s.db
  {
    var e := Stmt(s, w, appClock);
    next := Perform(s, w, e);
    MustGoOn(s, w, appClock);
    SoloStmt(s, w, appClock);
    NextOk(s, w, appClock);
    SoloGoesOn(s, w, appClock, e);
    NextPerformed(s, w, e);
    NextAdvances(s, w, appClock);
    RankGrows(s.workers[w], e.pc);
  }

  /** A transient error at the completion ends a call by Fix B at once; Fix A begins again while it may. */
  lemma CompletionError(s: State, w: WorkerId, error: SqlError)
    requires w in s.workers && s.workers[w].pc.CompleteClaim? && IsRetriable(error)
    ensures var next := Step(s, Fault(w, error));
      && next.db == s.db
      && (s.workers[w].strategy.ForUpdate? ==> next.workers[w].pc == Finished(Failed(Sql(error))))
      && (s.workers[w].strategy.Conditional? && s.workers[w].attempt + 1 < MAX_RETRIES ==> next.workers[w].pc.Begin?)
  {
  }

  /**
   Every keyed request that Fix B accepts has a moment, after at most nineteen statements of its
   first attempt, at which one deadlock is reported to the caller instead of being retried, and
   the transfer is not made.
   */
  lemma OneErrorIsFinal(s: State, w: WorkerId, appClock: int) returns (n: nat)
    requires Starting(s, w) && s.workers[w].attempt == 0 && s.workers[w].strategy.ForUpdate?
    requires s.workers[w].req.key != ""
    requires Call(s.db, ForUpdate, s.workers[w].req, s.nextStamp, s.clock, appClock).1.Success?
    ensures n <= 19
    ensures var end := Run(s, Moves(w, appClock, n));
      && w in end.workers && end.workers[w].attempt == 0
      && Step(end, Fault(w, DeadlockDetected)).workers[w].pc == Finished(Failed(Sql(DeadlockDetected)))
      && Step(end, Fault(w, DeadlockDetected)).db == s.db
  {
    var mid := Step(s, Statement(w, appClock));
    var begun := Step(mid, Statement(w, appClock));
    TwoStatements(s, w, appClock);
    OpenedKeepsCall(s, w, appClock);
    var rest := ReachesCompletion(begun, w, appClock, 17);
    RunMore(mid, w, appClock, rest);
    RunMore(s, w, appClock, rest + 1);
    n := rest + 2;
    RunIsOnlyCall(s, w, appClock, n);
    CompletionError(Run(s, Moves(w, appClock, n)), w, DeadlockDetected);
  }

  lemma OpenedKeepsCall(s: State, w: WorkerId, appClock: int)
    requires Alone(s, w) && s.workers[w].pc.Guard? && WorkerOk(s.db, s.locks, w, s.workers[w])
    requires s.workers[w].strategy.ForUpdate? && s.workers[w].req.key != ""
    ensures var begun := Step(Step(s, Statement(w, appClock)), Statement(w, appClock));
      && w in begun.workers && begun.workers[w].pc.ClaimInsert? && begun.db == s.db
      && begun.workers[w].req == s.workers[w].req && begun.workers[w].attempt == s.workers[w].attempt
  {
    GuardPasses(s, w, appClock);
  }
}
