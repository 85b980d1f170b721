/**
 What every step of the protocol keeps. The heart of it: the buffer of an open transaction
 is determined by the committed rows it has locked, its request and its next statement.
 */
module ProtocolInvariant {
  import opened Types
  import opened AtomicLedger
  import opened Statements
  import opened Protocol

  // ------------------------------------------------------------ phases of a call

  ghost predicate InClaim(pc: Pc) {
    pc.ClaimInsert? || pc.ClaimRead? || pc.ClaimSteal?
  }

  ghost predicate Claimed(worker: Worker) {
    worker.req.key != "" && HasTx(worker.pc) && !InClaim(worker.pc)
  }

  ghost predicate PastEvent(pc: Pc) {
    pc.CompleteClaim? || pc.Commit?
  }

  ghost predicate PastPostings(pc: Pc) {
    pc.ReadUrl? || pc.AddEvent? || PastEvent(pc)
  }

  ghost predicate PastTransfer(pc: Pc) {
    pc.AddPostings? || PastPostings(pc)
  }

  ghost predicate PastCredit(pc: Pc) {
    pc.AddTransfer? || PastTransfer(pc)
  }

  ghost predicate PastDebit(pc: Pc) {
    pc.Credit? || PastCredit(pc)
  }

  ghost predicate PastCheck(worker: Worker) {
    !worker.strategy.Optimistic? && (IsDebit(worker.pc) || PastDebit(worker.pc))
  }

  /** Each strategy only reaches its own statements. */
  ghost predicate PcFits(worker: Worker) {
    var pc := worker.pc;
    && (InClaim(pc) || pc.CompleteClaim? ==> worker.req.key != "")
    && (pc.LockRows? ==> |pc.todo| <= 2)
    && match worker.strategy
       case Conditional =>
         !pc.PreLock? && !pc.LockRows? && !pc.DebitRead? && !pc.DebitWrite? && !pc.OptRead? && !pc.OptDebit?
       case ForUpdate =>
         !pc.DebitConditional? && !pc.DebitMissed? && !pc.OptRead? && !pc.OptDebit?
       case Optimistic =>
         && !pc.PreLock? && !pc.LockRows? && !pc.CheckCurrency?
         && !pc.DebitConditional? && !pc.DebitMissed? && !pc.DebitRead? && !pc.DebitWrite?
         && (pc.Begin? || HasTx(pc) ==> worker.req.key == "")
  }

  // ---------------------------------------------------------- one worker

  ghost predicate Held(locks: map<Resource, WorkerId>, r: Resource, w: WorkerId) {
    r in locks && locks[r] == w
  }

  ghost predicate KeyOk(db: Db, locks: map<Resource, WorkerId>, w: WorkerId, worker: Worker) {
    var r := worker.req;
    && (worker.pc.ClaimRead? || worker.pc.ClaimSteal? ==> r.key in db.keys)
    && (worker.pc.ClaimSteal? ==> db.keys[r.key].status == InProgress ==> db.keys[r.key].hash == r.hash)
    && (Claimed(worker) ==> Held(locks, LockedKey(r.key), w) && Claimable(db, r.key, r.hash))
    && worker.tx.keys ==
       if !Claimed(worker) then map[]
       else if worker.pc.Commit? then map[r.key := DoneRow(r, worker.tx.stamp, worker.tx.start)]
       else map[r.key := ClaimedKey(db, r.key, r.hash, worker.tx.start)]
  }

  ghost function DebitedRow(db: Db, worker: Worker): Account
    requires worker.req.from in db.accounts
  {
    Debited(db.accounts[worker.req.from], worker.req.amount, Bump(worker.strategy))
  }

  ghost function CreditedRow(db: Db, worker: Worker): Account
    requires worker.req.from in db.accounts && worker.req.to in db.accounts
  {
    Credited(if worker.req.to == worker.req.from then DebitedRow(db, worker) else db.accounts[worker.req.to],
             worker.req.amount)
  }

  ghost predicate RowsOk(db: Db, locks: map<Resource, WorkerId>, w: WorkerId, worker: Worker) {
    var r := worker.req;
    && (PastCheck(worker) ==>
      && r.from in db.accounts && db.accounts[r.from].currency == r.currency
      && r.to in db.accounts && db.accounts[r.to].currency == r.currency)
    && (PastDebit(worker.pc) ==>
      && Held(locks, LockedAccount(r.from), w)
      && Covers(db, r.from, r.amount))
    && (PastCredit(worker.pc) ==>
      && Held(locks, LockedAccount(r.to), w)
      && r.to in db.accounts
      && CreditedRow(db, worker).balance <= MAX_INT64)
    && worker.tx.rows ==
       if PastCredit(worker.pc) then map[r.from := DebitedRow(db, worker)][r.to := CreditedRow(db, worker)]
       else if worker.pc.Credit? then map[r.from := DebitedRow(db, worker)]
       else map[]
  }

  ghost predicate InsertsOk(db: Db, worker: Worker) {
    var r := worker.req;
    var tx := worker.tx;
    var row := TransferRow(r, tx.stamp, tx.start);
    && (PastTransfer(worker.pc) ==> r.amount > 0 && r.from != r.to && FitsChar3(r.currency))
    && (worker.pc.AddEvent? ==> worker.pc.url == WebhookOf(db, r.to))
    && tx.transfers == (if PastTransfer(worker.pc) then [row] else [])
    && tx.postings == (if PastPostings(worker.pc)
                       then [DebitPosting(r, tx.stamp), CreditPosting(r, tx.stamp)] else [])
    && tx.events == (if PastEvent(worker.pc)
                     then [Event(tx.stamp, TRANSFER_CREATED, row, WebhookOf(db, r.to))] else [])
  }

  /** What a caller was told is true of the committed tables. */
  ghost predicate AnswerOk(db: Db, req: Request, outcome: Outcome) {
    match outcome
    case Success(t) => t in db.transfers && t == TransferRow(req, t.id, t.createdAt)
    case Replay(code, body) =>
      && req.key != "" && code == CREATED
      && body.Some? && body.value in db.transfers && body.value.key == ClientKey(req.key)
    case Failed(_) => true
  }

  ghost predicate WorkerOk(db: Db, locks: map<Resource, WorkerId>, w: WorkerId, worker: Worker) {
    && worker.attempt < MAX_RETRIES
    && PcFits(worker)
    && (worker.pc.Finished? ==> AnswerOk(db, worker.req, worker.pc.outcome))
    && (if HasTx(worker.pc)
        then KeyOk(db, locks, w, worker) && RowsOk(db, locks, w, worker) && InsertsOk(db, worker)
        else worker.tx == NO_TX)
  }

  // --------------------------------------------------------- whole system

  ghost predicate LocksOk(s: State) {
    forall r | r in s.locks :: s.locks[r] in s.workers && HasTx(s.workers[s.locks[r]].pc)
  }

  /** Generated ids are never handed out twice. */
  ghost predicate StampsOk(s: State) {
    && (forall w | w in s.workers && HasTx(s.workers[w].pc) ::
      s.workers[w].tx.stamp < s.nextStamp && FreshStamp(s.db, s.workers[w].tx.stamp))
    && (forall u, w | u in s.workers && w in s.workers && u != w && HasTx(s.workers[u].pc) && HasTx(s.workers[w].pc) ::
      s.workers[u].tx.stamp != s.workers[w].tx.stamp)
    && (forall n: Id | n >= s.nextStamp :: FreshStamp(s.db, n))
  }

  ghost predicate WorkersOk(s: State) {
    forall w | w in s.workers :: WorkerOk(s.db, s.locks, w, s.workers[w])
  }

  ghost predicate Inv(s: State) {
    DbInv(s.db) && LocksOk(s) && StampsOk(s) && WorkersOk(s)
  }

  /** Before the first call: any consistent tables, and ids still to be generated are unused. */
  ghost predicate Init(s: State) {
    && DbInv(s.db) && s.workers == map[] && s.locks == map[]
    && forall n: Id | n >= s.nextStamp :: FreshStamp(s.db, n)
  }

  lemma InitInv(s: State)
    requires Init(s)
    ensures Inv(s)
  {
  }

  // ------------------------------------------------- what others may change

  /** All that a worker needs of the changes others make to the committed tables. */
  ghost predicate Rely(db: Db, next: Db, locks: map<Resource, WorkerId>, w: WorkerId) {
    && (forall a | a in db.accounts :: a in next.accounts && next.accounts[a].currency == db.accounts[a].currency)
    && (forall a | a in db.accounts && Held(locks, LockedAccount(a), w) :: next.accounts[a] == db.accounts[a])
    && (forall k | k in db.keys ::
      k in next.keys && (next.keys[k].status == InProgress ==> next.keys[k] == db.keys[k]))
    && (forall k | Held(locks, LockedKey(k), w) && k in next.keys :: k in db.keys && next.keys[k] == db.keys[k])
    && (forall t | t in db.transfers :: t in next.transfers)
  }

  ghost predicate KeepsHolds(locks: map<Resource, WorkerId>, next: map<Resource, WorkerId>, w: WorkerId) {
    forall r | Held(locks, r, w) :: Held(next, r, w)
  }

  /** A worker at rest stays in order whatever the others are allowed to do. */
  lemma WorkerStable(db: Db, next: Db, locks: map<Resource, WorkerId>, nextLocks: map<Resource, WorkerId>,
                     w: WorkerId, worker: Worker)
    requires WorkerOk(db, locks, w, worker)
    requires Rely(db, next, locks, w) && KeepsHolds(locks, nextLocks, w)
    ensures WorkerOk(next, nextLocks, w, worker)
  {
    if HasTx(worker.pc) {
      var r := worker.req;
      if Claimed(worker) {
        assert Held(nextLocks, LockedKey(r.key), w);
      }
      if PastDebit(worker.pc) {
        assert next.accounts[r.from] == db.accounts[r.from];
      }
      if PastCredit(worker.pc) {
        assert next.accounts[r.to] == db.accounts[r.to];
      }
    }
  }
}
