/**
 Any number of transfer calls running at once, one SQL statement at a time, under
 READ COMMITTED. A label names who moves next; a label that is not enabled changes nothing.
 */
module Protocol {
  import opened Types
  import opened AtomicLedger
  import opened Statements

  type WorkerId = nat

  /** The next statement of a call. */
  datatype Pc =
    | Guard
    | Begin
    | ClaimInsert
    | ClaimRead
    | ClaimSteal
    | PreLock
    | LockRows(todo: seq<AccountId>)
    | CheckCurrency
    | DebitConditional
    | DebitMissed
    | DebitRead
    | DebitWrite
    | OptRead
    | OptDebit(version: int)
    | Credit
    | AddTransfer
    | AddPostings
    | ReadUrl
    | AddEvent(url: Option<Url>)
    | CompleteClaim
    | Commit
    | Finished(outcome: Outcome)
    | Crashed

  const MAX_RETRIES: nat := 5

  datatype Worker = Worker(strategy: Strategy, req: Request, pc: Pc, attempt: nat, tx: Tx)

  /** What row locks are taken on; both last until commit or rollback. */
  datatype Resource = LockedAccount(id: AccountId) | LockedKey(key: string)

  datatype State = State(
    db: Db, workers: map<WorkerId, Worker>, locks: map<Resource, WorkerId>, clock: int, nextStamp: Id)

  datatype Label =
    | Spawn(w: WorkerId, strategy: Strategy, req: Request)
    | Statement(w: WorkerId, appClock: int)
    | Fault(w: WorkerId, error: SqlError)
    | LostAck(w: WorkerId)
    | Crash(w: WorkerId)
    | OpenAccount(id: AccountId, currency: string, webhook: Option<Url>)
    | SetWebhook(id: AccountId, url: Option<Url>)
    | Tick(elapsed: nat)

  const NO_TX: Tx := OpenTx(0, 0)

  predicate Over(pc: Pc) {
    pc.Finished? || pc.Crashed?
  }

  predicate HasTx(pc: Pc) {
    !Over(pc) && !pc.Guard? && !pc.Begin?
  }

  // ----------------------------------------------------------- one statement

  /** What the next statement of a call does to the system. */
  datatype Effect =
    | Wait
    | Open
    | Next(pc: Pc, tx: Tx, lock: Option<Resource>)
    | Again
    | Halt(pc: Pc)
    | Install(outcome: Outcome)

  predicate CanLock(s: State, w: WorkerId, r: Resource) {
    r in s.locks ==> s.locks[r] == w
  }

  /** Which errors lead to a new attempt, per strategy and statement. */
  predicate RetriesAt(strategy: Strategy, pc: Pc) {
    match strategy
    case Conditional => true
    case ForUpdate => !pc.Begin? && !pc.CompleteClaim?
    case Optimistic => pc.OptDebit? || pc.Credit? || pc.Commit?
  }

  function Raised(worker: Worker, e: SqlError): Effect {
    if IsRetriable(e) && RetriesAt(worker.strategy, worker.pc) then Again
    else if worker.pc.AddTransfer? && e.ForeignKeyViolation? then Halt(Finished(Failed(AccountNotFound)))
    else Halt(Finished(Failed(Sql(e))))
  }

  /** Continues after a statement, under the lock it needed. */
  function Proceed(worker: Worker, e: Exec, pc: Pc, lock: Option<Resource>): Effect {
    match e
    case Rows(tx, _) => Next(pc, tx, lock)
    case Raise(error) => Raised(worker, error)
  }

  function Refuse(reason: LedgerError): Effect {
    Halt(Finished(Failed(reason)))
  }

  /** The checks made before any statement. */
  function GuardEffect(worker: Worker): Effect {
    var r := worker.req;
    match worker.strategy
    case Conditional =>
      if r.amount <= 0 then Refuse(InvalidAmount)
      else if r.from == r.to then Refuse(SameAccount)
      else if |r.currency| != 3 then Refuse(InvalidCurrency)
      else Next(Begin, worker.tx, None)
    case ForUpdate => Next(Begin, worker.tx, None)
    case Optimistic =>
      if r.key != "" then Refuse(KeyNotSupported) else Next(Begin, worker.tx, None)
  }

  function AfterClaim(strategy: Strategy): Pc {
    match strategy
    case Conditional => CheckCurrency
    case ForUpdate => PreLock
    case Optimistic => OptRead
  }

  function AfterBegin(worker: Worker): Pc {
    if worker.req.key != "" then ClaimInsert else AfterClaim(worker.strategy)
  }

  /** The rows that exist when the pre-lock statement starts, in ascending id order. */
  function LockList(v: Db, from: AccountId, to: AccountId): (todo: seq<AccountId>)
    ensures |todo| <= 2
  {
    var lo := if from > to then to else from;
    var hi := if from > to then from else to;
    (if lo in v.accounts then [lo] else []) + (if hi in v.accounts && hi != lo then [hi] else [])
  }

  function NextLock(todo: seq<AccountId>): Pc {
    if todo == [] then CheckCurrency else LockRows(todo)
  }

  function ClaimEffect(s: State, w: WorkerId, appClock: int): Effect
    requires w in s.workers
    requires var pc := s.workers[w].pc; pc.ClaimInsert? || pc.ClaimRead? || pc.ClaimSteal?
  {
    var worker := s.workers[w];
    var v := View(s.db, worker.tx);
    var r := worker.req;
    match worker.pc
    case ClaimInsert =>
      if !CanLock(s, w, LockedKey(r.key)) then Wait
      else if r.key in v.keys then Next(ClaimRead, worker.tx, None)
      else Proceed(worker, InsertKey(v, worker.tx, r.key, r.hash), AfterClaim(worker.strategy), Some(LockedKey(r.key)))
    case ClaimRead =>
      if r.key !in v.keys then Raised(worker, NoRows)
      else
        var row := v.keys[r.key];
        if row.hash != r.hash then Refuse(DuplicateRequest)
        else if row.status == InProgress then
          if appClock - row.claimedAt > STALE_CLAIM then Next(ClaimSteal, worker.tx, None) else Refuse(KeyInProgress)
        else if row.code.None? then Refuse(CorruptKeyRow)
        else Halt(Finished(Replay(row.code.value, row.body)))
    case ClaimSteal =>
      if !Stealable(v, worker.tx, r.key) then Refuse(KeyInProgress)
      else if !CanLock(s, w, LockedKey(r.key)) then Wait
      else Proceed(worker, StealKey(v, worker.tx, r.key, r.hash), AfterClaim(worker.strategy), Some(LockedKey(r.key)))
  }

  predicate IsDebit(pc: Pc) {
    pc.DebitConditional? || pc.DebitMissed? || pc.DebitRead? || pc.DebitWrite? || pc.OptRead? || pc.OptDebit?
  }

  function DebitEffect(s: State, w: WorkerId): Effect
    requires w in s.workers && IsDebit(s.workers[w].pc)
  {
    var worker := s.workers[w];
    var v := View(s.db, worker.tx);
    var r := worker.req;
    var lock := LockedAccount(r.from);
    match worker.pc
    case DebitConditional =>
      if !Covers(v, r.from, r.amount) then Next(DebitMissed, worker.tx, None)
      else if !CanLock(s, w, lock) then Wait
      else Proceed(worker, DebitIfCovered(v, worker.tx, r.from, r.amount), Credit, Some(lock))
    case DebitMissed =>
      if r.from in v.accounts then Refuse(InsufficientFunds) else Refuse(AccountNotFound)
    case DebitRead =>
      if r.from !in v.accounts then Refuse(AccountNotFound)
      else if !CanLock(s, w, lock) then Wait
      else if v.accounts[r.from].balance < r.amount then Refuse(InsufficientFunds)
      else Next(DebitWrite, worker.tx, Some(lock))
    case DebitWrite =>
      if !CanLock(s, w, lock) then Wait
      else Proceed(worker, DebitRow(v, worker.tx, r.from, r.amount), Credit, Some(lock))
    case OptRead =>
      if r.from !in v.accounts then Refuse(AccountNotFound)
      else if v.accounts[r.from].balance < r.amount then Refuse(InsufficientFunds)
      else Next(OptDebit(v.accounts[r.from].version), worker.tx, None)
    case OptDebit(version) =>
      if !HasVersion(v, r.from, version) then Again
      else if !CanLock(s, w, lock) then Wait
      else Proceed(worker, DebitIfVersion(v, worker.tx, r.from, r.amount, version), Credit, Some(lock))
  }

  /** A row with the same unique value inserted by a transaction that is still open. */
  predicate UniqueRace(s: State, w: WorkerId)
    requires w in s.workers
  {
    var mine := s.workers[w];
    exists u | u in s.workers && u != w ::
      exists t | t in s.workers[u].tx.transfers ::
        t.id == mine.tx.stamp || t.key == KeyOf(mine.req, mine.tx.stamp)
  }

  function Stmt(s: State, w: WorkerId, appClock: int): Effect
    requires w in s.workers
  {
    var worker := s.workers[w];
    var v := View(s.db, worker.tx);
    var r := worker.req;
    var result := TransferRow(r, worker.tx.stamp, worker.tx.start);
    match worker.pc
    case Guard => GuardEffect(worker)
    case Begin => Open
    case ClaimInsert => ClaimEffect(s, w, appClock)
    case ClaimRead => ClaimEffect(s, w, appClock)
    case ClaimSteal => ClaimEffect(s, w, appClock)
    case PreLock => Next(NextLock(LockList(v, r.from, r.to)), worker.tx, None)
    case LockRows(todo) =>
      if todo == [] then Next(CheckCurrency, worker.tx, None)
      else if !CanLock(s, w, LockedAccount(todo[0])) then Wait
      else Next(NextLock(todo[1..]), worker.tx, Some(LockedAccount(todo[0])))
    case CheckCurrency =>
      if r.from !in v.accounts || r.to !in v.accounts then Refuse(AccountNotFound)
      else if v.accounts[r.from].currency != r.currency || v.accounts[r.to].currency != r.currency
      then Refuse(CurrencyMismatch)
      else Next(if worker.strategy.ForUpdate? then DebitRead else DebitConditional, worker.tx, None)
    case DebitConditional => DebitEffect(s, w)
    case DebitMissed => DebitEffect(s, w)
    case DebitRead => DebitEffect(s, w)
    case DebitWrite => DebitEffect(s, w)
    case OptRead => DebitEffect(s, w)
    case OptDebit(_) => DebitEffect(s, w)
    case Credit =>
      if r.to !in v.accounts then Refuse(AccountNotFound)
      else if !CanLock(s, w, LockedAccount(r.to)) then Wait
      else Proceed(worker, CreditRow(v, worker.tx, r.to, r.amount), AddTransfer, Some(LockedAccount(r.to)))
    case AddTransfer =>
      if UniqueRace(s, w) then Wait
      else Proceed(worker, InsertTransfer(v, worker.tx, r), AddPostings, None)
    case AddPostings => Proceed(worker, InsertPostings(v, worker.tx, r), ReadUrl, None)
    case ReadUrl => Next(AddEvent(WebhookOf(v, r.to)), worker.tx, None)
    case AddEvent(url) =>
      Proceed(worker, InsertEvent(worker.tx, TRANSFER_CREATED, result, url),
              if r.key != "" then CompleteClaim else Commit, None)
    case CompleteClaim => Proceed(worker, CompleteKey(v, worker.tx, r.key, CREATED, result), Commit, None)
    case Commit => Install(Success(result))
    case Finished(_) => Wait
    case Crashed => Wait
  }

  // ---------------------------------------------------------- whole system

  function Release(locks: map<Resource, WorkerId>, w: WorkerId): map<Resource, WorkerId> {
    map r | r in locks && locks[r] != w :: locks[r]
  }

  /** Ends the transaction of a worker: its buffer is gone and its locks are free. */
  function EndTx(s: State, w: WorkerId, pc: Pc, attempt: nat): State
    requires w in s.workers
  {
    s.(workers := s.workers[w := s.workers[w].(pc := pc, attempt := attempt, tx := NO_TX)],
       locks := Release(s.locks, w))
  }

  function Perform(s: State, w: WorkerId, e: Effect): State
    requires w in s.workers
  {
    var worker := s.workers[w];
    match e
    case Wait => s
    case Open =>
      s.(workers := s.workers[w := worker.(pc := AfterBegin(worker), tx := OpenTx(s.clock, s.nextStamp))],
         nextStamp := s.nextStamp + 1)
    case Next(pc, tx, lock) =>
      s.(workers := s.workers[w := worker.(pc := pc, tx := tx)],
         locks := if lock.Some? then s.locks[lock.value := w] else s.locks)
    case Again =>
      if worker.attempt + 1 < MAX_RETRIES then EndTx(s, w, Begin, worker.attempt + 1)
      else EndTx(s, w, Finished(Failed(TooManyRetries)), worker.attempt)
    case Halt(pc) => EndTx(s, w, pc, worker.attempt)
    case Install(outcome) =>
      EndTx(s, w, Finished(outcome), worker.attempt).(db := View(s.db, worker.tx))
  }

  predicate IsMove(s: State, l: Label) {
    (l.Statement? || l.Fault? || l.LostAck? || l.Crash?) && l.w in s.workers
  }

  /** What a label does, when it is the move of a worker. */
  function Move(s: State, l: Label): Effect
    requires IsMove(s, l)
  {
    var worker := s.workers[l.w];
    match l
    case Statement(w, appClock) => Stmt(s, w, appClock)
    case Fault(w, error) => if HasTx(worker.pc) || worker.pc.Begin? then Raised(worker, error) else Wait
    case LostAck(w) => if worker.pc.Commit? then Install(Failed(Sql(ConnectionLost))) else Wait
    case Crash(w) => if Over(worker.pc) then Wait else Halt(Crashed)
  }

  function Step(s: State, l: Label): State {
    match l
    case Spawn(w, strategy, req) =>
      if w in s.workers then s
      else s.(workers := s.workers[w := Worker(strategy, req, Guard, 0, NO_TX)])
    case OpenAccount(id, currency, webhook) =>
      if CanApply(s.db, OpenOp(id, currency, webhook))
      then s.(db := Apply(s.db, OpenOp(id, currency, webhook))) else s
    case SetWebhook(id, url) =>
      if CanApply(s.db, WebhookOp(id, url)) && LockedAccount(id) !in s.locks
      then s.(db := Apply(s.db, WebhookOp(id, url))) else s
    case Tick(elapsed) => s.(clock := s.clock + elapsed)
    case _ => if l.w in s.workers then Perform(s, l.w, Move(s, l)) else s
  }

  function Run(s: State, ls: seq<Label>): State
    decreases |ls|
  {
    if ls == [] then s else Run(Step(s, ls[0]), ls[1..])
  }

  /** The atomic operation a label commits, if any. */
  function Committed(s: State, l: Label): seq<Op> {
    match l
    case OpenAccount(id, currency, webhook) =>
      if CanApply(s.db, OpenOp(id, currency, webhook)) then [OpenOp(id, currency, webhook)] else []
    case SetWebhook(id, url) =>
      if CanApply(s.db, WebhookOp(id, url)) && LockedAccount(id) !in s.locks then [WebhookOp(id, url)] else []
    case Spawn(_, _, _) => []
    case Tick(_) => []
    case _ =>
      if l.w in s.workers && Move(s, l).Install?
      then
        var worker := s.workers[l.w];
        [TransferOp(l.w, worker.strategy, worker.req, worker.tx.stamp, worker.tx.start)]
      else []
  }

  /** The operations a run commits, in commit order. */
  function History(s: State, ls: seq<Label>): seq<Op>
    decreases |ls|
  {
    if ls == [] then [] else Committed(s, ls[0]) + History(Step(s, ls[0]), ls[1..])
  }
}
