/**
 The three strategies as written: transactions, statements, rollbacks and retry loops over a
 connection that may fail at any statement. Each is proved against the one-call specification;
 Fix C also with other calls committing between its read and its versioned update.
 */
module LedgerCode {
  import opened Types
  import opened AtomicLedger
  import opened Statements
  import opened LedgerSpec
  import opened OptimisticLaws
  import ProtocolSteps

  /** What can befall one statement from outside, at COMMIT also a lost acknowledgement. */
  datatype Disturbance = Deadlocked | NotSerializable | Disconnected | AckLost

  /** The statement that is disturbed. */
  datatype Site = AtBegin | AtClaim | AtLock | AtCheck | AtRead | AtDebit | AtCredit | AtInsert | AtComplete | AtCommit

  function ErrorOf(d: Disturbance): SqlError {
    match d
    case Deadlocked => DeadlockDetected
    case NotSerializable => SerializationFailure
    case Disconnected => ConnectionLost
    case AckLost => ConnectionLost
  }

  type Plan = seq<Option<Disturbance>>

  /** Only deadlocks and serialisation failures. */
  ghost predicate Transient(plan: Plan) {
    forall d | d in plan && d.Some? :: d == Some(Deadlocked) || d == Some(NotSerializable)
  }

  /** The error came from outside, not from the data. */
  ghost predicate Interrupted(plan: Plan, err: Option<LedgerError>) {
    err.Some? && err.value.Sql? && exists d | d in plan :: d.Some? && ErrorOf(d.value) == err.value.error
  }

  ghost predicate Within(rest: Plan, plan: Plan) {
    forall d | d in rest :: d in plan
  }

  /** Since then, only these statements have been disturbed. */
  ghost predicate MetIn(met: seq<Site>, since: nat, sites: set<Site>) {
    forall i | since <= i < |met| :: met[i] in sites
  }

  /** Nothing more was disturbed, or one statement was. */
  ghost predicate MetOnce(before: seq<Site>, after: seq<Site>) {
    before <= after && |after| <= |before| + 1
  }

  /** A connection: the committed tables, its open transaction, the disturbances ahead and those met. */
  class Connection {
    var db: Db
    var tx: Tx
    var inTx: bool
    var nextStamp: Id
    var clock: int
    var appClock: int
    var plan: Plan
    ghost var met: seq<Site>
    var others: seq<seq<Op>>

    ghost predicate Valid()
      reads this
    {
      DbInv(db) && FreshFrom(db, nextStamp)
    }

    constructor (db: Db, nextStamp: Id, clock: int, appClock: int, plan: Plan, others: seq<seq<Op>>)
      requires DbInv(db) && FreshFrom(db, nextStamp)
      ensures Valid() && !inTx && met == []
      ensures this.db == db && this.nextStamp == nextStamp && this.clock == clock && this.appClock == appClock
      ensures this.plan == plan && this.others == others
    {
      this.db, this.nextStamp, this.clock, this.appClock := db, nextStamp, clock, appClock;
      this.plan, this.others := plan, others;
      tx, inTx, met := OpenTx(0, 0), false, [];
    }

    function Sees(): Db
      reads this
    {
      View(db, tx)
    }

    /** Takes the next disturbance off the plan. */
    method Disturb(ghost site: Site) returns (d: Option<Disturbance>)
      modifies this`plan, this`met
      ensures Within(plan, old(plan))
      ensures d.Some? ==> d in old(plan)
      ensures met == if d.Some? then old(met) + [site] else old(met)
    {
      if plan == [] {
        d := None;
      } else {
        d := plan[0];
        plan := plan[1..];
      }
      if d.Some? {
        met := met + [site];
      }
    }

    method Query(ghost site: Site) returns (err: Option<LedgerError>)
      modifies this`plan, this`met
      ensures Within(plan, old(plan))
      ensures err.None? ==> met == old(met)
      ensures err.Some? ==> Interrupted(old(plan), err) && met == old(met) + [site]
    {
      var d := Disturb(site);
      err := if d.Some? then Some(Sql(ErrorOf(d.value))) else None;
    }

    /** Executes a writing statement. */
    method Exec(e: Exec, ghost site: Site) returns (rows: nat, err: Option<LedgerError>)
      modifies this`plan, this`met, this`tx
      ensures Within(plan, old(plan))
      ensures err.None? ==> e.Rows? && tx == e.tx && rows == e.count && met == old(met)
      ensures err.Some? ==> tx == old(tx)
      ensures err.Some? ==>
        if met == old(met) then e.Raise? && err == Some(Sql(e.error))
        else met == old(met) + [site] && Interrupted(old(plan), err)
    {
      rows := 0;
      err := Query(site);
      if err.None? {
        match e
        case Rows(next, count) => tx, rows := next, count;
        case Raise(error) => err := Some(Sql(error));
      }
    }

    method Begin() returns (err: Option<LedgerError>)
      requires !inTx
      modifies this`plan, this`met, this`tx, this`inTx, this`nextStamp
      ensures Within(plan, old(plan))
      ensures err.None? ==>
        inTx && tx == OpenTx(clock, old(nextStamp)) && nextStamp == old(nextStamp) + 1 && met == old(met)
      ensures err.Some? ==>
        !inTx && Interrupted(old(plan), err) && nextStamp == old(nextStamp) && met == old(met) + [AtBegin]
    {
      err := Query(AtBegin);
      if err.None? {
        tx, inTx, nextStamp := OpenTx(clock, nextStamp), true, nextStamp + 1;
      }
    }

    method Rollback()
      modifies this`tx, this`inTx
      ensures tx == OpenTx(0, 0) && !inTx
    {
      tx, inTx := OpenTx(0, 0), false;
    }

    /** A lost acknowledgement reports an error although the transaction is committed. */
    method Commit() returns (err: Option<LedgerError>)
      requires inTx
      modifies this`plan, this`met, this`inTx, this`db
      ensures Within(plan, old(plan))
      ensures err.None? ==> !inTx && db == View(old(db), tx) && met == old(met)
      ensures err.Some? ==> Interrupted(old(plan), err) && met == old(met) + [AtCommit]
      ensures err.Some? ==> db == old(db) || (db == View(old(db), tx) && err.value == Sql(ConnectionLost))
    {
      var d := Disturb(AtCommit);
      err := if d.Some? then Some(Sql(ErrorOf(d.value))) else None;
      if d.None? || d.value.AckLost? {
        db := View(db, tx);
      }
      inTx := d.Some?;
    }
  }

  predicate Retriable(err: LedgerError) {
    err.Sql? && IsRetriable(err.error)
  }

  // ------------------------------------------------------------- idempotency

  /**
   Claims the key: won, or the stored response to replay, or an error. Undisturbed, the three
   cases are those of ClaimAnswer.
   */
  method ClaimInTx(c: Connection, req: Request) returns (won: bool, stored: Option<Outcome>, err: Option<LedgerError>)
    requires req.key != "" && c.tx.keys == map[]
    modifies c`plan, c`met, c`tx
    ensures Within(c.plan, old(c.plan)) && MetOnce(old(c.met), c.met) && MetIn(c.met, |old(c.met)|, {AtClaim})
    ensures if c.met == old(c.met)
            then ClaimAnswer(c.db, req, old(c.tx).start, c.appClock)
                 == if err.Some? then Some(Failed(err.value)) else if won then None else stored
            else Interrupted(old(c.plan), err)
    ensures err.None? && won ==>
      c.tx == old(c.tx).(keys := map[req.key := ClaimedKey(c.db, req.key, req.hash, old(c.tx).start)])
    ensures err.None? && !won ==> stored.Some? && stored.value.Replay?
    ensures c.met == old(c.met) ==>
      if req.key !in c.db.keys then won
      else
        var row := c.db.keys[req.key];
        if row.hash != req.hash then err == Some(DuplicateRequest)
        else if row.status == Done then
          if row.code == None then err == Some(CorruptKeyRow) else stored == Some(Replay(row.code.value, row.body))
        else if c.appClock - row.claimedAt > 30_000_000 && old(c.tx).start - row.claimedAt > 30_000_000 then won
        else err == Some(KeyInProgress)
  {
    assert View(c.db, c.tx).keys == c.db.keys;
    stored := None;
    var rows;
    rows, err := c.Exec(InsertKey(c.Sees(), c.tx, req.key, req.hash), AtClaim);
    if err.Some? {
      return false, None, err;
    }
    if rows == 1 {
      return true, None, None;
    }
    err := c.Query(AtClaim);
    if err.Some? {
      return false, None, err;
    }
    assert View(c.db, c.tx).keys == c.db.keys;
    var row := c.db.keys[req.key];
    if row.hash != req.hash {
      return false, None, Some(DuplicateRequest);
    }
    if row.status == InProgress {
      if c.appClock - row.claimedAt > STALE_CLAIM {
        rows, err := c.Exec(StealKey(c.Sees(), c.tx, req.key, req.hash), AtClaim);
        if err.Some? {
          return false, None, err;
        }
        if rows == 1 {
          return true, None, None;
        }
      }
      return false, None, Some(KeyInProgress);
    }
    if row.code.None? {
      return false, None, Some(CorruptKeyRow);
    }
    return false, Some(Replay(row.code.value, row.body)), None;
  }

  /** Marks the key done and stores the response. */
  method Complete(c: Connection, key: string, code: int, body: Transfer) returns (err: Option<LedgerError>)
    modifies c`plan, c`met, c`tx
    ensures Within(c.plan, old(c.plan))
    ensures err.Some? ==> Interrupted(old(c.plan), err) && c.met == old(c.met) + [AtComplete]
    ensures err.None? ==>
      c.met == old(c.met) && CompleteKey(View(c.db, old(c.tx)), old(c.tx), key, code, body).tx == c.tx
    ensures err.None? && key in View(c.db, old(c.tx)).keys ==>
      var row := View(c.db, old(c.tx)).keys[key];
      c.tx.keys == old(c.tx).keys[key := KeyRow(row.hash, Done, Some(code), Some(body), row.claimedAt)]
  {
    var rows;
    rows, err := c.Exec(CompleteKey(c.Sees(), c.tx, key, code, body), AtComplete);
  }

  // ------------------------------------------------------------------ debits

  ghost predicate DebitDone(db: Db, before: Tx, after: Tx, from: AccountId, amount: int, bump: int) {
    from in db.accounts && after == before.(rows := map[from := Debited(db.accounts[from], amount, bump)])
  }

  /** Fix A: one conditional UPDATE, then a look at why it matched nothing. */
  method DebitConditionalUpdate(c: Connection, from: AccountId, amount: int) returns (err: Option<LedgerError>)
    requires c.tx.rows == map[]
    modifies c`plan, c`met, c`tx
    ensures Within(c.plan, old(c.plan)) && MetOnce(old(c.met), c.met) && MetIn(c.met, |old(c.met)|, {AtDebit})
    ensures if c.met == old(c.met) then err == DebitError(c.db, from, amount) else Interrupted(old(c.plan), err)
    ensures err.None? ==> DebitDone(c.db, old(c.tx), c.tx, from, amount, 0)
    ensures c.met == old(c.met) && from !in c.db.accounts ==> err == Some(AccountNotFound)
    ensures c.met == old(c.met) && from in c.db.accounts ==>
      var row := c.db.accounts[from];
      && (row.balance < amount ==> err == Some(InsufficientFunds))
      && (0 <= amount <= row.balance <= 0x7FFF_FFFF_FFFF_FFFF ==>
        err == None &&
        c.tx == old(c.tx).(rows := map[from := Account(row.currency, row.balance - amount, row.version, row.webhook)]))
  {
    assert View(c.db, c.tx).accounts == c.db.accounts;
    var rows;
    rows, err := c.Exec(DebitIfCovered(c.Sees(), c.tx, from, amount), AtDebit);
    if err.Some? {
      return err;
    }
    if rows == 0 {
      err := c.Query(AtDebit);
      if err.Some? {
        return err;
      }
      var found := from in c.Sees().accounts;
      if !found {
        return Some(AccountNotFound);
      }
      return Some(InsufficientFunds);
    }
    return None;
  }

  /** Fix B: read the locked row, compare, then UPDATE. */
  method DebitSelectForUpdate(c: Connection, from: AccountId, amount: int) returns (err: Option<LedgerError>)
    requires c.tx.rows == map[]
    modifies c`plan, c`met, c`tx
    ensures Within(c.plan, old(c.plan)) && MetOnce(old(c.met), c.met) && MetIn(c.met, |old(c.met)|, {AtDebit})
    ensures if c.met == old(c.met) then err == DebitError(c.db, from, amount) else Interrupted(old(c.plan), err)
    ensures err.None? ==> DebitDone(c.db, old(c.tx), c.tx, from, amount, 0)
    ensures c.met == old(c.met) && from !in c.db.accounts ==> err == Some(AccountNotFound)
    ensures c.met == old(c.met) && from in c.db.accounts ==>
      var row := c.db.accounts[from];
      && (row.balance < amount ==> err == Some(InsufficientFunds))
      && (0 <= amount <= row.balance <= 0x7FFF_FFFF_FFFF_FFFF ==>
        err == None &&
        c.tx == old(c.tx).(rows := map[from := Account(row.currency, row.balance - amount, row.version, row.webhook)]))
  {
    assert View(c.db, c.tx).accounts == c.db.accounts;
    err := c.Query(AtDebit);
    if err.Some? {
      return err;
    }
    if from !in c.Sees().accounts {
      return Some(AccountNotFound);
    }
    var balance := c.Sees().accounts[from].balance;
    if balance < amount {
      return Some(InsufficientFunds);
    }
    var rows;
    rows, err := c.Exec(DebitRow(c.Sees(), c.tx, from, amount), AtDebit);
  }

  // ---------------------------------------------------------- the transfer

  ghost predicate NoClash(db: Db, tx: Tx, req: Request) {
    forall t | t in db.transfers :: t.id != tx.stamp && t.key != KeyOf(req, tx.stamp)
  }

  ghost predicate NothingInserted(tx: Tx) {
    tx.transfers == [] && tx.postings == [] && tx.events == []
  }

  /** The buffer of a transaction that has done all the work of a transfer. */
  ghost function WorkedTx(db: Db, tx: Tx, strategy: Strategy, req: Request): Tx
    requires req.from in db.accounts && req.to in db.accounts
  {
    tx.(rows := map[req.from := Debited(db.accounts[req.from], req.amount, Bump(strategy))]
                   [req.to := Credited(db.accounts[req.to], req.amount)],
        transfers := [TransferRow(req, tx.stamp, tx.start)],
        postings := [DebitPosting(req, tx.stamp), CreditPosting(req, tx.stamp)],
        events := [Event(tx.stamp, TRANSFER_CREATED, TransferRow(req, tx.stamp, tx.start),
                         db.accounts[req.to].webhook)])
  }

  /** What the inserts refuse: the CHECKs of transfers first, then its foreign keys. */
  function InsertError(v: Db, req: Request): Option<LedgerError> {
    FirstError(RowError(req),
               if req.from !in v.accounts || req.to !in v.accounts then Some(AccountNotFound) else None)
  }

  /** The transfers row, the balanced pair of postings and the outbox event. */
  method InsertTransferAndPostings(c: Connection, req: Request) returns (t: Transfer, err: Option<LedgerError>)
    requires NothingInserted(c.tx) && NoClash(c.db, c.tx, req)
    modifies c`plan, c`met, c`tx
    ensures Within(c.plan, old(c.plan)) && MetOnce(old(c.met), c.met) && MetIn(c.met, |old(c.met)|, {AtInsert})
    ensures if c.met == old(c.met) then err == InsertError(View(c.db, old(c.tx)), req)
            else Interrupted(old(c.plan), err)
    ensures err.None? ==>
      && t == TransferRow(req, c.tx.stamp, c.tx.start)
      && c.tx == old(c.tx).(transfers := [t],
                            postings := [DebitPosting(req, c.tx.stamp), CreditPosting(req, c.tx.stamp)],
                            events := [Event(c.tx.stamp, TRANSFER_CREATED, t,
                                             WebhookOf(View(c.db, old(c.tx)), req.to))])
    ensures err.None? ==>
      && t.id == c.tx.stamp && t.createdAt == c.tx.start && t.from == req.from && t.to == req.to
      && t.amount == req.amount > 0 && req.from != req.to && Padded(req.currency, t.currency)
      && (|req.currency| == 3 ==> t.currency == req.currency)
      && t.key == if req.key == "" then FreshKey(t.id) else ClientKey(req.key)
    ensures err.None? ==>
      && c.tx.postings == [Posting(2 * t.id + 1, t.id, req.from, -req.amount),
                           Posting(2 * t.id + 2, t.id, req.to, req.amount)]
      && req.to in View(c.db, old(c.tx)).accounts
      && c.tx.events == [Event(t.id, "transfer.created", t, View(c.db, old(c.tx)).accounts[req.to].webhook)]
  {
    assert View(c.db, c.tx).transfers == c.db.transfers;
    t := TransferRow(req, c.tx.stamp, c.tx.start);
    var rows;
    rows, err := c.Exec(InsertTransfer(c.Sees(), c.tx, req), AtInsert);
    if err.Some? {
      if err == Some(Sql(ForeignKeyViolation)) {
        err := Some(AccountNotFound);
      }
      return;
    }
    rows, err := c.Exec(InsertPostings(c.Sees(), c.tx, req), AtInsert);
    if err.Some? {
      return;
    }
    err := c.Query(AtInsert);
    if err.Some? {
      return;
    }
    var webhookUrl := WebhookOf(c.Sees(), req.to);
    rows, err := c.Exec(InsertEvent(c.tx, TRANSFER_CREATED, t, webhookUrl), AtInsert);
  }

  /** The rows of both accounts, once debit and credit are done. */
  ghost function BothRows(db: Db, req: Request, bump: int): map<AccountId, Account>
    requires req.from in db.accounts && req.to in db.accounts
  {
    var debited := map[req.from := Debited(db.accounts[req.from], req.amount, bump)];
    debited[req.to := Credited(if req.to == req.from then debited[req.from] else db.accounts[req.to], req.amount)]
  }

  /** The credit of the destination, after the debit. */
  method CreditDestination(c: Connection, req: Request, ghost before: Tx, ghost bump: int)
    returns (err: Option<LedgerError>)
    requires before.rows == map[] && DebitDone(c.db, before, c.tx, req.from, req.amount, bump)
    modifies c`plan, c`met, c`tx
    ensures Within(c.plan, old(c.plan)) && MetOnce(old(c.met), c.met) && MetIn(c.met, |old(c.met)|, {AtCredit})
    ensures if c.met == old(c.met) then err == CreditError(c.db, req) else Interrupted(old(c.plan), err)
    ensures err.None? ==> req.to in c.db.accounts && c.tx == before.(rows := BothRows(c.db, req, bump))
    ensures c.met == old(c.met) ==>
      if req.to !in c.db.accounts then err == Some(AccountNotFound)
      else req.from != req.to && req.amount > 0 && c.db.accounts[req.to].balance >= 0 ==>
        err == if c.db.accounts[req.to].balance + req.amount > 0x7FFF_FFFF_FFFF_FFFF
               then Some(Sql(NumericOutOfRange)) else None
  {
    assert View(c.db, c.tx).accounts == c.db.accounts + c.tx.rows;
    var rows;
    rows, err := c.Exec(CreditRow(c.Sees(), c.tx, req.to, req.amount), AtCredit);
    if err.None? && rows == 0 {
      err := Some(AccountNotFound);
    }
  }

  /** Existence and currencies, debit by the given strategy, credit, then the inserts. */
  method ExecTxWithDebit(c: Connection, req: Request, strategy: Strategy)
    returns (t: Transfer, err: Option<LedgerError>)
    requires !strategy.Optimistic?
    requires c.tx.rows == map[] && NothingInserted(c.tx) && NoClash(c.db, c.tx, req)
    modifies c`plan, c`met, c`tx
    ensures Within(c.plan, old(c.plan)) && MetOnce(old(c.met), c.met)
    ensures MetIn(c.met, |old(c.met)|, {AtCheck, AtDebit, AtCredit, AtInsert})
    ensures if c.met == old(c.met) then err == WorkError(c.db, strategy, req) else Interrupted(old(c.plan), err)
    ensures err.None? ==>
      && t == TransferRow(req, old(c.tx).stamp, old(c.tx).start)
      && WorkError(c.db, strategy, req).None?
      && c.tx == WorkedTx(c.db, old(c.tx), strategy, req)
  {
    t := TransferRow(req, c.tx.stamp, c.tx.start);
    assert View(c.db, c.tx).accounts == c.db.accounts;
    err := c.Query(AtCheck);
    if err.Some? {
      return;
    }
    var v := c.Sees();
    if req.from !in v.accounts || req.to !in v.accounts {
      err := Some(AccountNotFound);
      return;
    }
    if v.accounts[req.from].currency != req.currency || v.accounts[req.to].currency != req.currency {
      err := Some(CurrencyMismatch);
      return;
    }
    if strategy.ForUpdate? {
      err := DebitSelectForUpdate(c, req.from, req.amount);
    } else {
      err := DebitConditionalUpdate(c, req.from, req.amount);
    }
    if err.Some? {
      return;
    }
    err := CreditDestination(c, req, old(c.tx), 0);
    if err.Some? {
      return;
    }
    t, err := InsertTransferAndPostings(c, req);
  }

  // ------------------------------------------------------------- one attempt

  /**
   How one attempt may end: when nothing disturbs it, as the specification says; otherwise
   interrupted with the tables untouched, or committed with the acknowledgement lost.
   */
  ghost predicate Attempted(before: Db, after: Db, strategy: Strategy, req: Request, stamp: Id, now: int, appClock: int,
                            plan: Plan, calm: bool, o: Outcome)
    requires AccountsOk(before) && FreshStamp(before, stamp)
  {
    if calm then (after, o) == Call(before, strategy, req, stamp, now, appClock)
    else
      && o.Failed? && Interrupted(plan, Some(o.reason))
      && (after == before
          || (after == Call(before, strategy, req, stamp, now, appClock).0 && o == Failed(Sql(ConnectionLost))))
  }

  lemma NoClashWhenFresh(db: Db, tx: Tx, req: Request, now: int, appClock: int)
    requires DbInv(db) && FreshStamp(db, tx.stamp) && ClaimAnswer(db, req, now, appClock).None?
    ensures NoClash(db, tx, req)
  {
    if req.key != "" {
      forall t | t in db.transfers ensures t.key != ClientKey(req.key) {
        assert t.key.ClientKey? ==> t.key.text in db.keys && db.keys[t.key.text].status == Done;
      }
    }
  }

  /** What COMMIT of a fully worked transaction installs is the atomic transfer. */
  lemma CommitInstallsTransfer(db: Db, tx: Tx, strategy: Strategy, req: Request, start: int, stamp: Id)
    requires CanTransfer(db, strategy, req, stamp)
    requires tx == WorkedTx(db, OpenTx(start, stamp), strategy, req).(keys := tx.keys)
    requires tx.keys == if req.key == "" then map[] else map[req.key := DoneRow(req, stamp, start)]
    ensures View(db, tx) == ApplyTransfer(db, strategy, req, stamp, start)
  {
    assert View(db, tx).accounts == ApplyTransfer(db, strategy, req, stamp, start).accounts;
    assert View(db, tx).keys == ApplyTransfer(db, strategy, req, stamp, start).keys;
  }

  lemma ClaimEnds(db: Db, strategy: Strategy, req: Request, stamp: Id, now: int, appClock: int)
    requires AccountsOk(db) && FreshStamp(db, stamp) && GuardError(strategy, req).None?
    requires ClaimAnswer(db, req, now, appClock).Some?
    ensures Call(db, strategy, req, stamp, now, appClock) == (db, ClaimAnswer(db, req, now, appClock).value)
  {
  }

  lemma WorkEnds(db: Db, strategy: Strategy, req: Request, stamp: Id, now: int, appClock: int)
    requires AccountsOk(db) && FreshStamp(db, stamp) && GuardError(strategy, req).None?
    requires ClaimAnswer(db, req, now, appClock).None? && WorkError(db, strategy, req).Some?
    ensures Call(db, strategy, req, stamp, now, appClock) == (db, Failed(WorkError(db, strategy, req).value))
  {
  }

  /** A fully worked transaction, ready to commit, is the undisturbed call. */
  lemma CommitEnds(db: Db, tx: Tx, strategy: Strategy, req: Request, stamp: Id, now: int, appClock: int)
    requires AccountsOk(db) && FreshStamp(db, stamp) && GuardError(strategy, req).None?
    requires ClaimAnswer(db, req, now, appClock).None? && WorkError(db, strategy, req).None?
    requires req.from in db.accounts && req.to in db.accounts
    requires tx == WorkedTx(db, OpenTx(now, stamp), strategy, req).(keys := tx.keys)
    requires tx.keys == if req.key == "" then map[] else map[req.key := DoneRow(req, stamp, now)]
    ensures Call(db, strategy, req, stamp, now, appClock) == (View(db, tx), Success(TransferRow(req, stamp, now)))
  {
    AcceptedCanTransfer(db, strategy, req, stamp, now, appClock);
    CommitInstallsTransfer(db, tx, strategy, req, now, stamp);
  }

  /** After completing, the claimed row reads exactly as the atomic transfer writes it. */
  lemma CompletedRow(db: Db, tx: Tx, req: Request, stamp: Id)
    requires tx.keys == map[req.key := ClaimedKey(db, req.key, req.hash, tx.start)]
    ensures var after := CompleteKey(View(db, tx), tx, req.key, CREATED, TransferRow(req, stamp, tx.start));
      after.Rows? && after.tx == tx.(keys := map[req.key := DoneRow(req, stamp, tx.start)])
  {
    assert View(db, tx).keys[req.key] == tx.keys[req.key];
  }

  /** What a won claim, or no key at all, leaves in the transaction. */
  ghost predicate ClaimedTx(c: Connection, req: Request, stamp: Id)
    reads c
  {
    && ClaimAnswer(c.db, req, c.clock, c.appClock).None?
    && c.tx == OpenTx(c.clock, stamp).(keys :=
         if req.key == "" then map[] else map[req.key := ClaimedKey(c.db, req.key, req.hash, c.clock)])
  }

  /** The claim of an attempt; an outcome means the attempt is over and rolled back. */
  method Claim(c: Connection, req: Request, ghost strategy: Strategy, ghost stamp: Id) returns (over: Option<Outcome>)
    requires AccountsOk(c.db) && FreshStamp(c.db, stamp) && GuardError(strategy, req).None?
    requires c.inTx && c.tx == OpenTx(c.clock, stamp)
    modifies c`plan, c`met, c`tx, c`inTx
    ensures Within(c.plan, old(c.plan)) && MetOnce(old(c.met), c.met) && MetIn(c.met, |old(c.met)|, {AtClaim})
    ensures c.inTx <==> over.None?
    ensures over.Some? ==>
      Attempted(c.db, c.db, strategy, req, stamp, c.clock, c.appClock, old(c.plan), c.met == old(c.met), over.value)
    ensures over.None? ==> c.met == old(c.met) && ClaimedTx(c, req, stamp)
  {
    over := None;
    if req.key != "" {
      var won, stored, err := ClaimInTx(c, req);
      if err.Some? || !won {
        c.Rollback();
        if ClaimAnswer(c.db, req, c.clock, c.appClock).Some? {
          ClaimEnds(c.db, strategy, req, stamp, c.clock, c.appClock);
        }
        over := if err.Some? then Some(Failed(err.value)) else stored;
      }
    }
  }

  /** The work of a transfer is in the transaction, on top of the claim. */
  ghost predicate Worked(c: Connection, req: Request, strategy: Strategy, stamp: Id)
    reads c
  {
    && ClaimAnswer(c.db, req, c.clock, c.appClock).None? && WorkError(c.db, strategy, req).None?
    && req.from in c.db.accounts && req.to in c.db.accounts
    && c.tx == WorkedTx(c.db, OpenTx(c.clock, stamp), strategy, req).(keys := c.tx.keys)
    && c.tx.keys == if req.key == "" then map[] else map[req.key := ClaimedKey(c.db, req.key, req.hash, c.clock)]
  }

  /** The work of an attempt by Fix A or Fix B; an outcome means the attempt is over and rolled back. */
  method Work(c: Connection, req: Request, strategy: Strategy, ghost stamp: Id)
    returns (t: Transfer, over: Option<Outcome>)
    requires c.Valid() && FreshStamp(c.db, stamp) && GuardError(strategy, req).None? && !strategy.Optimistic?
    requires c.inTx && ClaimedTx(c, req, stamp)
    modifies c`plan, c`met, c`tx, c`inTx
    ensures Within(c.plan, old(c.plan)) && MetOnce(old(c.met), c.met)
    ensures MetIn(c.met, |old(c.met)|, {AtCheck, AtDebit, AtCredit, AtInsert})
    ensures c.inTx <==> over.None?
    ensures over.Some? ==>
      Attempted(c.db, c.db, strategy, req, stamp, c.clock, c.appClock, old(c.plan), c.met == old(c.met), over.value)
    ensures over.None? ==>
      c.met == old(c.met) && t == TransferRow(req, stamp, c.clock) && Worked(c, req, strategy, stamp)
  {
    over := None;
    NoClashWhenFresh(c.db, c.tx, req, c.clock, c.appClock);
    var err;
    t, err := ExecTxWithDebit(c, req, strategy);
    if err.Some? {
      c.Rollback();
      if WorkError(c.db, strategy, req).Some? {
        WorkEnds(c.db, strategy, req, stamp, c.clock, c.appClock);
      }
      over := Some(Failed(err.value));
    }
  }

  /** Completion and commit of an attempt by Fix A. */
  method CommitOnce(c: Connection, req: Request, t: Transfer, ghost stamp: Id) returns (o: Outcome)
    requires c.inTx && AccountsOk(c.db) && FreshStamp(c.db, stamp) && GuardError(Conditional, req).None?
    requires t == TransferRow(req, stamp, c.clock) && Worked(c, req, Conditional, stamp)
    modifies c`plan, c`met, c`tx, c`inTx, c`db
    ensures Within(c.plan, old(c.plan)) && MetOnce(old(c.met), c.met) && !c.inTx
    ensures Attempted(old(c.db), c.db, Conditional, req, stamp, c.clock, c.appClock, old(c.plan),
                      c.met == old(c.met), o)
  {
    var err;
    if req.key != "" {
      CompletedRow(c.db, c.tx, req, stamp);
      err := Complete(c, req.key, CREATED, t);
      if err.Some? {
        c.Rollback();
        return Failed(err.value);
      }
    }
    CommitEnds(c.db, c.tx, Conditional, req, stamp, c.clock, c.appClock);
    err := c.Commit();
    if err.Some? {
      c.Rollback();
      return Failed(err.value);
    }
    return Success(t);
  }

  /** executeOnce: one transaction by Fix A, with the claim and the completion inside. */
  method ExecuteOnce(c: Connection, req: Request) returns (o: Outcome)
    requires c.Valid() && !c.inTx && GuardError(Conditional, req).None?
    modifies c`plan, c`met, c`tx, c`inTx, c`db, c`nextStamp
    ensures Within(c.plan, old(c.plan)) && MetOnce(old(c.met), c.met) && !c.inTx
    ensures old(c.nextStamp) <= c.nextStamp <= old(c.nextStamp) + 1
    ensures FreshStamp(old(c.db), old(c.nextStamp))
    ensures Attempted(old(c.db), c.db, Conditional, req, old(c.nextStamp), c.clock, c.appClock, old(c.plan),
                      c.met == old(c.met), o)
  {
    ghost var stamp := c.nextStamp;
    assert FreshStamp(c.db, stamp);
    var err := c.Begin();
    if err.Some? {
      return Failed(err.value);
    }
    var over := Claim(c, req, Conditional, stamp);
    if over.Some? {
      return over.value;
    }
    var t;
    t, over := Work(c, req, Conditional, stamp);
    if over.Some? {
      return over.value;
    }
    o := CommitOnce(c, req, t, stamp);
  }

  // ------------------------------------------------------------ whole calls

  /** The statements whose transient errors lead to another attempt. */
  predicate TriesAgain(strategy: Strategy, site: Site) {
    match strategy
    case Conditional => true
    case ForUpdate => site != AtBegin && site != AtComplete
    case Optimistic => site == AtDebit || site == AtCredit || site == AtCommit
  }

  ghost predicate AllTried(strategy: Strategy, met: seq<Site>, since: nat) {
    forall i | since <= i < |met| :: TriesAgain(strategy, met[i])
  }

  /** The call ended as if nothing had disturbed it. */
  ghost predicate Undisturbed(before: Db, after: Db, strategy: Strategy, req: Request, stamp: Id, now: int,
                              appClock: int, o: Outcome)
  {
    AccountsOk(before) && FreshStamp(before, stamp) && (after, o) == Call(before, strategy, req, stamp, now, appClock)
  }

  /** How a whole call that does not give up may end: as one of its attempts. */
  ghost predicate Ended(before: Db, after: Db, strategy: Strategy, req: Request, stamp: Id, now: int, appClock: int,
                        plan: Plan, hits: int, o: Outcome)
    requires AccountsOk(before) && FreshStamp(before, stamp)
  {
    || Attempted(before, after, strategy, req, stamp, now, appClock, plan, true, o)
    || (hits > 0 && Attempted(before, after, strategy, req, stamp, now, appClock, plan, false, o))
  }

  /** How a whole call may end: as one of its attempts, or after five interrupted ones. */
  ghost predicate Resolved(before: Db, after: Db, strategy: Strategy, req: Request, first: Id, stamp: Id, now: int,
                           appClock: int, plan: Plan, hits: int, o: Outcome)
    requires AccountsOk(before) && FreshFrom(before, first) && stamp >= first
  {
    assert FreshStamp(before, stamp) && FreshStamp(before, first);
    && (Ended(before, after, strategy, req, stamp, now, appClock, plan, hits, o)
        || (o == Failed(TooManyRetries) && after == before && hits >= 5))
    && (hits == 0 ==> (after, o) == Call(before, strategy, req, first, now, appClock))
  }

  lemma RefusalNotRetriable(db: Db, strategy: Strategy, req: Request, stamp: Id, now: int, appClock: int)
    requires AccountsOk(db) && FreshStamp(db, stamp)
    ensures var o := Call(db, strategy, req, stamp, now, appClock).1; !(o.Failed? && Retriable(o.reason))
  {
  }

  /** An attempt that may be retried was disturbed and has left no trace. */
  lemma RetriableLeavesNoTrace(before: Db, after: Db, strategy: Strategy, req: Request, stamp: Id, now: int,
                               appClock: int, plan: Plan, calm: bool, o: Outcome)
    requires AccountsOk(before) && FreshStamp(before, stamp)
    requires Attempted(before, after, strategy, req, stamp, now, appClock, plan, calm, o)
    requires o.Failed? && Retriable(o.reason)
    ensures after == before && !calm
  {
    RefusalNotRetriable(before, strategy, req, stamp, now, appClock);
  }

  /** A call that succeeds has recorded the transfer it was asked for; Fix C pads the currency with blanks. */
  lemma SuccessIsRecorded(before: Db, after: Db, strategy: Strategy, req: Request, stamp: Id, now: int, appClock: int,
                          plan: Plan, calm: bool, o: Outcome)
    requires AccountsOk(before) && FreshStamp(before, stamp)
    requires Attempted(before, after, strategy, req, stamp, now, appClock, plan, calm, o) && o.Success?
    ensures Recorded(before, after, req, o.transfer, if strategy == Optimistic then 1 else 0)
    ensures strategy != Optimistic ==> o.transfer.currency == req.currency
    ensures Padded(req.currency, o.transfer.currency)
  {
    AcceptedCanTransfer(before, strategy, req, stamp, now, appClock);
    var t := TransferIsRecorded(before, TransferOp(0, strategy, req, stamp, now));
  }

  const MAX_DEADLOCK_RETRIES: nat := 5

  /** Fix A. */
  method Execute(c: Connection, req: Request) returns (o: Outcome, ghost stamp: Id)
    requires c.Valid() && !c.inTx
    modifies c`plan, c`met, c`tx, c`inTx, c`db, c`nextStamp
    ensures !c.inTx && old(c.met) <= c.met && |c.met| <= |old(c.met)| + 5
    ensures FreshFrom(old(c.db), old(c.nextStamp)) && AccountsOk(old(c.db)) && stamp >= old(c.nextStamp)
    ensures Resolved(old(c.db), c.db, Conditional, req, old(c.nextStamp), stamp, c.clock, c.appClock, old(c.plan),
                     |c.met| - |old(c.met)|, o)
    ensures Transient(old(c.plan)) ==>
      if |c.met| < |old(c.met)| + 5
      then Undisturbed(old(c.db), c.db, Conditional, req, stamp, c.clock, c.appClock, o)
      else o == Failed(TooManyRetries) && c.db == old(c.db)
    ensures req.amount <= 0 ==> o == Failed(InvalidAmount)
    ensures req.amount > 0 && req.from == req.to ==> o == Failed(SameAccount)
    ensures req.amount > 0 && req.from != req.to && |req.currency| != 3 ==> o == Failed(InvalidCurrency)
    ensures req.amount <= 0 || req.from == req.to || |req.currency| != 3 ==> c.db == old(c.db) && c.met == old(c.met)
    ensures o.Success? ==>
      Recorded(old(c.db), c.db, req, o.transfer, 0) && o.transfer.currency == req.currency
  {
    stamp := c.nextStamp;
    assert FreshStamp(c.db, stamp);
    if req.amount <= 0 {
      return Failed(InvalidAmount), stamp;
    }
    if req.from == req.to {
      return Failed(SameAccount), stamp;
    }
    if |req.currency| != 3 {
      return Failed(InvalidCurrency), stamp;
    }
    for attempt := 0 to MAX_DEADLOCK_RETRIES
      invariant c.db == old(c.db) && c.Valid() && !c.inTx && old(c.nextStamp) <= c.nextStamp
      invariant stamp >= old(c.nextStamp) && Within(c.plan, old(c.plan)) && old(c.met) <= c.met
      invariant |c.met| == |old(c.met)| + attempt && (attempt == 0 ==> c.nextStamp == old(c.nextStamp))
    {
      stamp := c.nextStamp;
      ghost var plan, met := c.plan, c.met;
      o := ExecuteOnce(c, req);
      if o.Failed? && Retriable(o.reason) {
        RetriableLeavesNoTrace(old(c.db), c.db, Conditional, req, stamp, c.clock, c.appClock, plan, c.met == met, o);
        continue;
      }
      if o.Success? {
        SuccessIsRecorded(old(c.db), c.db, Conditional, req, stamp, c.clock, c.appClock, plan, c.met == met, o);
      }
      return;
    }
    o := Failed(TooManyRetries);
  }

  const MAX_RETRIES: nat := 5

  /** Completion and commit of an attempt by Fix B: only the commit may lead to another attempt. */
  method CommitForUpdate(c: Connection, req: Request, result: Transfer, ghost stamp: Id)
    returns (o: Outcome, again: bool)
    requires c.inTx && AccountsOk(c.db) && FreshStamp(c.db, stamp)
    requires result == TransferRow(req, stamp, c.clock) && Worked(c, req, ForUpdate, stamp)
    modifies c`plan, c`met, c`tx, c`inTx, c`db
    ensures !c.inTx && Within(c.plan, old(c.plan)) && MetOnce(old(c.met), c.met)
    ensures Attempted(old(c.db), c.db, ForUpdate, req, stamp, c.clock, c.appClock, old(c.plan), c.met == old(c.met), o)
    ensures again <==> o.Failed? && Retriable(o.reason) && AllTried(ForUpdate, c.met, |old(c.met)|)
    ensures !AllTried(ForUpdate, c.met, |old(c.met)|) ==> c.db == old(c.db)
  {
    var err;
    if req.key != "" {
      CompletedRow(c.db, c.tx, req, stamp);
      err := Complete(c, req.key, CREATED, result);
      if err.Some? {
        c.Rollback();
        assert c.met[|old(c.met)|] == AtComplete;
        return Failed(err.value), false;
      }
    }
    CommitEnds(c.db, c.tx, ForUpdate, req, stamp, c.clock, c.appClock);
    err := c.Commit();
    if err.Some? {
      c.Rollback();
      return Failed(err.value), Retriable(err.value);
    }
    return Success(result), false;
  }

  /** The claim of an attempt by Fix B, and the ordered pre-lock of both rows. */
  method ClaimAndLock(c: Connection, req: Request, ghost stamp: Id) returns (over: Option<Outcome>)
    requires AccountsOk(c.db) && FreshStamp(c.db, stamp) && c.inTx && c.tx == OpenTx(c.clock, stamp)
    modifies c`plan, c`met, c`tx, c`inTx
    ensures Within(c.plan, old(c.plan)) && MetOnce(old(c.met), c.met) && MetIn(c.met, |old(c.met)|, {AtClaim, AtLock})
    ensures c.inTx <==> over.None?
    ensures over.Some? ==>
      Attempted(c.db, c.db, ForUpdate, req, stamp, c.clock, c.appClock, old(c.plan), c.met == old(c.met), over.value)
    ensures over.None? ==> c.met == old(c.met) && ClaimedTx(c, req, stamp)
  {
    over := Claim(c, req, ForUpdate, stamp);
    if over.Some? {
      return;
    }
    var err := c.Query(AtLock);
    if err.Some? {
      c.Rollback();
      over := Some(Failed(err.value));
    }
  }

  /**
   One attempt by Fix B: the claim, the ordered pre-lock, the work, completion and commit. It is
   followed by another one exactly when a transient error met a statement other than BEGIN and
   the completion.
   */
  method AttemptForUpdate(c: Connection, req: Request, ghost stamp: Id) returns (o: Outcome, again: bool)
    requires c.Valid() && !c.inTx && stamp == c.nextStamp && FreshStamp(c.db, stamp)
    modifies c`plan, c`met, c`tx, c`inTx, c`db, c`nextStamp
    ensures Within(c.plan, old(c.plan)) && MetOnce(old(c.met), c.met) && !c.inTx && old(c.nextStamp) <= c.nextStamp
    ensures Attempted(old(c.db), c.db, ForUpdate, req, stamp, c.clock, c.appClock, old(c.plan), c.met == old(c.met), o)
    ensures again <==> o.Failed? && Retriable(o.reason) && AllTried(ForUpdate, c.met, |old(c.met)|)
    ensures !AllTried(ForUpdate, c.met, |old(c.met)|) ==> c.db == old(c.db)
  {
    var err := c.Begin();
    if err.Some? {
      assert c.met[|old(c.met)|] == AtBegin;
      return Failed(err.value), false;
    }
    var over := ClaimAndLock(c, req, stamp);
    if over.Some? {
      return over.value, over.value.Failed? && Retriable(over.value.reason);
    }
    var result;
    result, over := Work(c, req, ForUpdate, stamp);
    if over.Some? {
      return over.value, over.value.Failed? && Retriable(over.value.reason);
    }
    o, again := CommitForUpdate(c, req, result, stamp);
  }

  /** Neither BEGIN nor the completion has been disturbed since. */
  ghost predicate SparesEnds(met: seq<Site>, since: nat) {
    forall i | since <= i < |met| :: met[i] != AtBegin && met[i] != AtComplete
  }

  /** Since then, only the versioned UPDATE, the credit and COMMIT have been disturbed. */
  ghost predicate SparesRest(met: seq<Site>, since: nat) {
    forall i | since <= i < |met| :: met[i] == AtDebit || met[i] == AtCredit || met[i] == AtCommit
  }

  /**
   Fix B: up to five attempts. Fewer than five transient errors go unnoticed unless one meets
   BEGIN or the completion, and such a one ends the call with that error and no change.
   */
  method ExecuteWithForUpdate(c: Connection, req: Request) returns (o: Outcome, ghost stamp: Id)
    requires c.Valid() && !c.inTx
    modifies c`plan, c`met, c`tx, c`inTx, c`db, c`nextStamp
    ensures !c.inTx && old(c.met) <= c.met && |c.met| <= |old(c.met)| + 5
    ensures FreshFrom(old(c.db), old(c.nextStamp)) && AccountsOk(old(c.db)) && stamp >= old(c.nextStamp)
    ensures Resolved(old(c.db), c.db, ForUpdate, req, old(c.nextStamp), stamp, c.clock, c.appClock, old(c.plan),
                     |c.met| - |old(c.met)|, o)
    ensures Transient(old(c.plan)) && SparesEnds(c.met, |old(c.met)|) ==>
      if |c.met| < |old(c.met)| + 5
      then Undisturbed(old(c.db), c.db, ForUpdate, req, stamp, c.clock, c.appClock, o)
      else o == Failed(TooManyRetries) && c.db == old(c.db)
    ensures !SparesEnds(c.met, |old(c.met)|) ==>
      o.Failed? && Interrupted(old(c.plan), Some(o.reason)) && c.db == old(c.db)
    ensures o.Success? ==>
      Recorded(old(c.db), c.db, req, o.transfer, 0) && o.transfer.currency == req.currency
  {
    stamp := c.nextStamp;
    for attempt := 0 to MAX_RETRIES
      invariant c.db == old(c.db) && c.Valid() && !c.inTx && old(c.nextStamp) <= c.nextStamp
      invariant stamp >= old(c.nextStamp) && Within(c.plan, old(c.plan)) && old(c.met) <= c.met
      invariant |c.met| == |old(c.met)| + attempt && (attempt == 0 ==> c.nextStamp == old(c.nextStamp))
      invariant AllTried(ForUpdate, c.met, |old(c.met)|)
    {
      stamp := c.nextStamp;
      assert FreshStamp(c.db, stamp);
      ghost var plan, met := c.plan, c.met;
      var again;
      o, again := AttemptForUpdate(c, req, stamp);
      TriedSince(ForUpdate, met, c.met, |old(c.met)|);
      if again {
        RetriableLeavesNoTrace(old(c.db), c.db, ForUpdate, req, stamp, c.clock, c.appClock, plan, c.met == met, o);
        continue;
      }
      if o.Success? {
        SuccessIsRecorded(old(c.db), c.db, ForUpdate, req, stamp, c.clock, c.appClock, plan, c.met == met, o);
      }
      return;
    }
    o := Failed(TooManyRetries);
  }

  lemma TriedSince(strategy: Strategy, mid: seq<Site>, met: seq<Site>, since: nat)
    requires since <= |mid| && mid <= met && AllTried(strategy, mid, since)
    ensures AllTried(strategy, met, since) <==> AllTried(strategy, met, |mid|)
  {
    assert forall i | since <= i < |mid| :: met[i] == mid[i];
  }

  // ----------------------------------------------------------------- Fix C

  lemma FoldOneMore(db: Db, log: seq<Op>, op: Op)
    requires Legal(db, log) && CanApply(Fold(db, log), op)
    ensures Legal(db, log + [op]) && Fold(db, log + [op]) == Apply(Fold(db, log), op)
  {
    FoldOne(Fold(db, log), op);
    FoldConcat(db, log, [op]);
  }

  lemma ApplyKeepsFreshFrom(db: Db, op: Op, from: Id)
    requires CanApply(db, op) && FreshFrom(db, from)
    ensures FreshFrom(Apply(db, op), if op.TransferOp? && op.stamp >= from then op.stamp + 1 else from)
  {
    var next := if op.TransferOp? && op.stamp >= from then op.stamp + 1 else from;
    forall n: Id | n >= next ensures FreshStamp(Apply(db, op), n) {
      ProtocolSteps.ApplyKeepsFresh(db, op, n);
    }
  }

  /** What others commit while a call holds no lock, by any strategy; each transfer draws its own stamp. */
  method Interfere(c: Connection, ops: seq<Op>) returns (ghost log: seq<Op>)
    requires c.Valid() && c.tx.stamp < c.nextStamp && FreshStamp(c.db, c.tx.stamp)
    modifies c`db, c`nextStamp
    ensures c.Valid() && old(c.nextStamp) <= c.nextStamp && FreshStamp(c.db, c.tx.stamp)
    ensures Legal(old(c.db), log) && c.db == Fold(old(c.db), log)
    ensures ops == [] ==> log == []
  {
    log := [];
    for i := 0 to |ops|
      invariant c.Valid() && old(c.nextStamp) <= c.nextStamp && FreshStamp(c.db, c.tx.stamp)
      invariant Legal(old(c.db), log) && c.db == Fold(old(c.db), log)
      invariant i == 0 ==> log == []
    {
      var op := if ops[i].TransferOp? then ops[i].(stamp := c.nextStamp) else ops[i];
      if CanApply(c.db, op) {
        ApplyKeepsDbInv(c.db, op);
        ApplyKeepsFreshFrom(c.db, op, c.nextStamp);
        ProtocolSteps.ApplyKeepsFresh(c.db, op, c.tx.stamp);
        FoldOneMore(old(c.db), log, op);
        c.db := Apply(c.db, op);
        log := log + [op];
        if op.TransferOp? {
          c.nextStamp := c.nextStamp + 1;
        }
      }
    }
  }

  /** The three ways the versioned UPDATE can go, by what others have committed since the read. */
  lemma VersionedDebit(before: Db, more: seq<Op>, tx: Tx, from: AccountId, amount: int)
    requires DbInv(before) && Legal(before, more) && Covers(before, from, amount) && tx.rows == map[]
    ensures var db := Fold(before, more);
      var e := DebitIfVersion(View(db, tx), tx, from, amount, before.accounts[from].version);
      if OptimisticDebits(more, from) > 0 then e == Rows(tx, 0)
      else if Undercut(before, more, from, amount) then e == Raise(CheckViolation)
      else if DebitError(db, from, amount).Some?
        then e.Raise? && DebitError(db, from, amount) == Some(Sql(e.error)) && !IsRetriable(e.error)
        else e.Rows? && e.count == 1 && DebitDone(db, tx, e.tx, from, amount, 1)
  {
    CheckFiresIff(before, more, tx, from, amount);
    FoldVersion(before, more, from);
    FoldBalance(before, more, from);
    FoldKeepsDbInv(before, more);
    assert View(Fold(before, more), tx).accounts == Fold(before, more).accounts;
  }

  /** Where the CHECK fires, the call would have been told of insufficient funds had it come later. */
  lemma CheckInsteadOfRefusal(db: Db, log: seq<Op>, req: Request, stamp: Id, now: int, appClock: int)
    requires DbInv(db) && Legal(db, log) && req.key == ""
    requires Covers(db, req.from, req.amount) && Undercut(db, log, req.from, req.amount)
    requires FreshStamp(Fold(db, log), stamp) && AccountsOk(Fold(db, log))
    ensures Call(Fold(db, log), Optimistic, req, stamp, now, appClock) == (Fold(db, log), Failed(InsufficientFunds))
  {
    FoldBalance(db, log, req.from);
  }

  /** Credit and inserts of an attempt, once the debit is done; an outcome means the attempt is over. */
  method CreditAndInsert(c: Connection, req: Request, ghost stamp: Id)
    returns (result: Transfer, over: Option<Outcome>, again: bool)
    requires c.Valid() && c.inTx && FreshStamp(c.db, stamp) && req.key == ""
    requires DebitError(c.db, req.from, req.amount).None?
    requires DebitDone(c.db, OpenTx(c.clock, stamp), c.tx, req.from, req.amount, 1)
    modifies c`plan, c`met, c`tx, c`inTx
    ensures c.inTx <==> over.None?
    ensures Within(c.plan, old(c.plan)) && MetOnce(old(c.met), c.met)
    ensures over.Some? ==>
      Attempted(c.db, c.db, Optimistic, req, stamp, c.clock, c.appClock, old(c.plan), c.met == old(c.met), over.value)
    ensures again <==>
      over.Some? && over.value.Failed? && Retriable(over.value.reason) && AllTried(Optimistic, c.met, |old(c.met)|)
    ensures over.None? ==>
      && c.met == old(c.met)
      && WorkError(c.db, Optimistic, req).None? && req.from in c.db.accounts && req.to in c.db.accounts
      && c.tx == WorkedTx(c.db, OpenTx(c.clock, stamp), Optimistic, req)
      && result == TransferRow(req, stamp, c.clock)
  {
    result, over, again := TransferRow(req, c.tx.stamp, c.tx.start), None, false;
    var err := CreditDestination(c, req, OpenTx(c.clock, stamp), 1);
    if err.Some? {
      c.Rollback();
      over, again := Some(Failed(err.value)), Retriable(err.value);
      return;
    }
    NoClashWhenFresh(c.db, c.tx, req, c.clock, c.appClock);
    result, err := InsertTransferAndPostings(c, req);
    if err.Some? {
      c.Rollback();
      over := Some(Failed(err.value));
      if c.met != old(c.met) {
        assert c.met[|old(c.met)|] == AtInsert;
      }
    }
  }

  /** The rest of an attempt: credit, inserts and commit. */
  method CreditAndCommit(c: Connection, req: Request, ghost stamp: Id) returns (o: Outcome, again: bool)
    requires c.Valid() && c.inTx && FreshStamp(c.db, stamp) && req.key == ""
    requires DebitError(c.db, req.from, req.amount).None?
    requires DebitDone(c.db, OpenTx(c.clock, stamp), c.tx, req.from, req.amount, 1)
    modifies c`plan, c`met, c`tx, c`inTx, c`db
    ensures !c.inTx && Within(c.plan, old(c.plan)) && MetOnce(old(c.met), c.met)
    ensures Attempted(old(c.db), c.db, Optimistic, req, stamp, c.clock, c.appClock, old(c.plan), c.met == old(c.met), o)
    ensures again <==> o.Failed? && Retriable(o.reason) && AllTried(Optimistic, c.met, |old(c.met)|)
    ensures again ==> c.met != old(c.met) && c.db == old(c.db)
  {
    RefusalNotRetriable(c.db, Optimistic, req, stamp, c.clock, c.appClock);
    var result, over;
    result, over, again := CreditAndInsert(c, req, stamp);
    if over.Some? {
      o := over.value;
      return;
    }
    o := Success(result);
    CommitEnds(c.db, c.tx, Optimistic, req, stamp, c.clock, c.appClock);
    var err := c.Commit();
    if err.Some? {
      c.Rollback();
      o, again := Failed(err.value), Retriable(err.value);
    }
  }

  /** The read and the check of an attempt. */
  method ReadBalance(c: Connection, req: Request, ghost stamp: Id)
    returns (over: Option<Outcome>, balance: int, version: int)
    requires AccountsOk(c.db) && FreshStamp(c.db, stamp) && req.key == "" && c.inTx && c.tx == OpenTx(c.clock, stamp)
    modifies c`plan, c`met, c`tx, c`inTx
    ensures Within(c.plan, old(c.plan)) && MetOnce(old(c.met), c.met)
    ensures c.inTx <==> over.None?
    ensures over.Some? ==>
      Attempted(c.db, c.db, Optimistic, req, stamp, c.clock, c.appClock, old(c.plan), c.met == old(c.met), over.value)
    ensures over.Some? && c.met == old(c.met) ==> !Covers(c.db, req.from, req.amount)
    ensures c.met != old(c.met) ==> over.Some? && !AllTried(Optimistic, c.met, |old(c.met)|)
    ensures over.None? ==>
      c.tx == old(c.tx) && Covers(c.db, req.from, req.amount) && version == c.db.accounts[req.from].version
  {
    balance, version := 0, 0;
    assert View(c.db, c.tx).accounts == c.db.accounts;
    var err := c.Query(AtRead);
    if err.Some? {
      c.Rollback();
      assert c.met[|old(c.met)|] == AtRead;
      return Some(Failed(err.value)), balance, version;
    }
    if req.from !in c.Sees().accounts {
      c.Rollback();
      return Some(Failed(AccountNotFound)), balance, version;
    }
    balance, version := c.Sees().accounts[req.from].balance, c.Sees().accounts[req.from].version;
    if balance < req.amount {
      c.Rollback();
      return Some(Failed(InsufficientFunds)), balance, version;
    }
    over := None;
  }

  /** The versioned UPDATE of an attempt, on what others have made of the tables since the read. */
  method DebitVersioned(c: Connection, req: Request, version: int, ghost before: Db, ghost more: seq<Op>,
                        ghost stamp: Id)
    returns (over: Option<Outcome>, again: bool, ghost fired: bool)
    requires DbInv(before) && Legal(before, more) && c.db == Fold(before, more) && AccountsOk(c.db)
    requires Covers(before, req.from, req.amount) && version == before.accounts[req.from].version
    requires FreshStamp(c.db, stamp) && req.key == "" && c.inTx && c.tx == OpenTx(c.clock, stamp)
    modifies c`plan, c`met, c`tx, c`inTx
    ensures Within(c.plan, old(c.plan)) && MetOnce(old(c.met), c.met)
    ensures c.inTx <==> over.None? && !again
    ensures c.met == old(c.met) ==>
      (again <==> OptimisticDebits(more, req.from) > 0) && (fired <==> Undercut(before, more, req.from, req.amount))
    ensures c.met != old(c.met) ==>
      && !fired && over.Some? && over.value.Failed?
      && (again <==> Retriable(over.value.reason) && AllTried(Optimistic, c.met, |old(c.met)|))
    ensures fired ==> over == Some(Failed(Sql(CheckViolation)))
    ensures over.Some? && !fired ==>
      Attempted(c.db, c.db, Optimistic, req, stamp, c.clock, c.appClock, old(c.plan), c.met == old(c.met), over.value)
    ensures over.None? ==> c.met == old(c.met)
    ensures over.None? && !again ==>
      DebitError(c.db, req.from, req.amount).None? && DebitDone(c.db, old(c.tx), c.tx, req.from, req.amount, 1)
  {
    VersionedDebit(before, more, c.tx, req.from, req.amount);
    var rows, err := c.Exec(DebitIfVersion(c.Sees(), c.tx, req.from, req.amount, version), AtDebit);
    fired := c.met == old(c.met) && Undercut(before, more, req.from, req.amount);
    if err.Some? {
      c.Rollback();
      return Some(Failed(err.value)), Retriable(err.value), fired;
    }
    if rows == 0 {
      c.Rollback();
      return None, true, fired;
    }
    return None, false, fired;
  }

  /**
   The read, the check and the versioned UPDATE of one attempt. Between read and UPDATE the
   others commit anything; more says what. Undisturbed, the attempt meets a conflict exactly when
   they debited the account by Fix C, and the CHECK fires exactly when they undercut the amount
   otherwise.
   */
  method ReadAndDebit(c: Connection, req: Request, ops: seq<Op>, ghost stamp: Id)
    returns (over: Option<Outcome>, again: bool, ghost fired: bool, ghost more: seq<Op>)
    requires c.Valid() && FreshStamp(c.db, stamp) && stamp < c.nextStamp && req.key == ""
    requires c.inTx && c.tx == OpenTx(c.clock, stamp)
    modifies c`plan, c`met, c`tx, c`inTx, c`db, c`nextStamp
    ensures Within(c.plan, old(c.plan)) && MetOnce(old(c.met), c.met)
    ensures c.inTx <==> over.None? && !again
    ensures c.Valid() && FreshStamp(c.db, stamp) && old(c.nextStamp) <= c.nextStamp
    ensures Legal(old(c.db), more) && c.db == Fold(old(c.db), more) && (ops == [] ==> more == [])
    ensures c.met == old(c.met) ==>
      && (again <==> Covers(old(c.db), req.from, req.amount) && OptimisticDebits(more, req.from) > 0)
      && (fired <==> Covers(old(c.db), req.from, req.amount) && Undercut(old(c.db), more, req.from, req.amount))
    ensures c.met != old(c.met) ==>
      && !fired && over.Some? && over.value.Failed?
      && (again <==> Retriable(over.value.reason) && AllTried(Optimistic, c.met, |old(c.met)|))
    ensures fired ==> over == Some(Failed(Sql(CheckViolation)))
    ensures over.Some? && !fired ==>
      Attempted(c.db, c.db, Optimistic, req, stamp, c.clock, c.appClock, old(c.plan), c.met == old(c.met), over.value)
    ensures over.None? ==> c.met == old(c.met)
    ensures over.None? && !again ==>
      && DebitError(c.db, req.from, req.amount).None?
      && DebitDone(c.db, OpenTx(c.clock, stamp), c.tx, req.from, req.amount, 1)
  {
    more, again, fired := [], false, false;
    var balance, version;
    over, balance, version := ReadBalance(c, req, stamp);
    if over.Some? {
      return;
    }
    more := Interfere(c, ops);
    over, again, fired := DebitVersioned(c, req, version, old(c.db), more, stamp);
  }

  /** One attempt by Fix C; more is what others commit during it. */
  method AttemptOptimistic(c: Connection, req: Request, ops: seq<Op>, ghost stamp: Id)
    returns (o: Outcome, again: bool, ghost fired: bool, ghost more: seq<Op>)
    requires c.Valid() && !c.inTx && stamp == c.nextStamp && FreshStamp(c.db, stamp) && req.key == ""
    modifies c`plan, c`met, c`tx, c`inTx, c`db, c`nextStamp
    ensures Within(c.plan, old(c.plan)) && MetOnce(old(c.met), c.met) && !c.inTx
    ensures Legal(old(c.db), more) && (ops == [] ==> more == [])
    ensures AccountsOk(Fold(old(c.db), more)) && FreshStamp(Fold(old(c.db), more), stamp)
    ensures again || fired ==> c.Valid() && c.db == Fold(old(c.db), more)
    ensures c.met == old(c.met) ==>
      (again <==> Covers(old(c.db), req.from, req.amount) && OptimisticDebits(more, req.from) > 0)
    ensures c.met != old(c.met) && Transient(old(c.plan)) ==>
      (again <==> AllTried(Optimistic, c.met, |old(c.met)|))
    ensures again ==> AllTried(Optimistic, c.met, |old(c.met)|)
    ensures fired <==> c.met == old(c.met) && Covers(old(c.db), req.from, req.amount) &&
                       Undercut(old(c.db), more, req.from, req.amount)
    ensures fired ==> !again && o == Failed(Sql(CheckViolation))
    ensures !again && !fired ==>
      Attempted(Fold(old(c.db), more), c.db, Optimistic, req, stamp, c.clock, c.appClock, old(c.plan),
                c.met == old(c.met), o)
  {
    more, fired := [], false;
    var err := c.Begin();
    if err.Some? {
      assert c.met[|old(c.met)|] == AtBegin;
      return Failed(err.value), false, false, more;
    }
    var over;
    over, again, fired, more := ReadAndDebit(c, req, ops, stamp);
    o := Failed(TooManyRetries);
    if again {
      return;
    }
    if over.Some? {
      return over.value, false, fired, more;
    }
    o, again := CreditAndCommit(c, req, stamp);
  }

  lemma {:induction false} OptimisticDebitsConcat(a: seq<Op>, b: seq<Op>, from: AccountId)
    ensures OptimisticDebits(a + b, from) == OptimisticDebits(a, from) + OptimisticDebits(b, from)
    decreases |a|
  {
    if a == [] {
      assert a + b == b;
    } else {
      assert (a + b)[0] == a[0] && (a + b)[1..] == a[1..] + b;
      OptimisticDebitsConcat(a[1..], b, from);
    }
  }

  /**
   How a call by Fix C is over: it took effect at one moment; or the CHECK fired on an UPDATE
   whose read came after the first `read` operations of the log; or it gave up.
   */
  datatype Ending = Took | Fired(read: nat) | GaveUp

  /** The CHECK fired: the others undercut what was read, and nothing was changed. */
  ghost predicate CheckFired(before: Db, log: seq<Op>, read: nat, req: Request)
    requires Legal(before, log)
  {
    && read <= |log| && Legal(before, log[..read])
    && Covers(Fold(before, log[..read]), req.from, req.amount)
    && Undercut(Fold(before, log[..read]), log[read..], req.from, req.amount)
  }

  /** One attempt by Fix C, seen from the start of the call: log grows by what others commit during it. */
  method AttemptAfter(c: Connection, req: Request, ops: seq<Op>, ghost before: Db, ghost log: seq<Op>, ghost stamp: Id)
    returns (o: Outcome, again: bool, ghost fired: bool, ghost longer: seq<Op>)
    requires c.Valid() && !c.inTx && stamp == c.nextStamp && FreshStamp(c.db, stamp) && req.key == ""
    requires Legal(before, log) && c.db == Fold(before, log)
    modifies c`plan, c`met, c`tx, c`inTx, c`db, c`nextStamp
    ensures Within(c.plan, old(c.plan)) && MetOnce(old(c.met), c.met) && !c.inTx
    ensures Legal(before, longer) && (ops == [] ==> longer == log)
    ensures AccountsOk(Fold(before, longer)) && FreshStamp(Fold(before, longer), stamp)
    ensures again || fired ==> c.Valid() && c.db == Fold(before, longer)
    ensures again ==>
      && AllTried(Optimistic, c.met, |old(c.met)|)
      && OptimisticDebits(longer, req.from) + |c.met| > OptimisticDebits(log, req.from) + |old(c.met)|
    ensures c.met != old(c.met) && Transient(old(c.plan)) ==> (again <==> AllTried(Optimistic, c.met, |old(c.met)|))
    ensures fired ==> !again && o == Failed(Sql(CheckViolation)) && CheckFired(before, longer, |log|, req)
    ensures !again && !fired ==>
      Attempted(Fold(before, longer), c.db, Optimistic, req, stamp, c.clock, c.appClock, old(c.plan),
                c.met == old(c.met), o)
  {
    ghost var more;
    o, again, fired, more := AttemptOptimistic(c, req, ops, stamp);
    FoldConcat(before, log, more);
    OptimisticDebitsConcat(log, more, req.from);
    longer := log + more;
    assert longer[..|log|] == log && longer[|log|..] == more;
    assert more == [] ==> longer == log;
  }

  /**
   Fix C, with any other calls committing between the read and the versioned update of each
   attempt. The call takes effect at one moment: after the operations in log, on the tables of
   that moment, as the undisturbed call would. The exceptions leave only the others' work: the
   CHECK answers where the others undercut the read, and five conflicts and errors exhaust it.
   */
  method ExecuteOptimistic(c: Connection, req: Request)
    returns (o: Outcome, ghost log: seq<Op>, ghost stamp: Id, ghost ending: Ending)
    requires c.Valid() && !c.inTx
    modifies c`plan, c`met, c`tx, c`inTx, c`db, c`nextStamp
    ensures !c.inTx && old(c.met) <= c.met && |c.met| <= |old(c.met)| + 5 && Legal(old(c.db), log)
    ensures AccountsOk(Fold(old(c.db), log)) && FreshStamp(Fold(old(c.db), log), stamp)
    ensures ending.Took? ==>
      Ended(Fold(old(c.db), log), c.db, Optimistic, req, stamp, c.clock, c.appClock, old(c.plan),
            |c.met| - |old(c.met)|, o)
    ensures ending.Fired? ==>
      CheckFired(old(c.db), log, ending.read, req) && c.db == Fold(old(c.db), log) && o == Failed(Sql(CheckViolation))
    ensures ending.GaveUp? ==>
      && c.db == Fold(old(c.db), log) && o == Failed(TooManyRetries)
      && OptimisticDebits(log, req.from) + |c.met| - |old(c.met)| >= 5
    ensures ending.Took? && Transient(old(c.plan)) && SparesRest(c.met, |old(c.met)|) ==>
      Undisturbed(Fold(old(c.db), log), c.db, Optimistic, req, stamp, c.clock, c.appClock, o)
    ensures Transient(old(c.plan)) && SparesRest(c.met, |old(c.met)|) && |c.met| == |old(c.met)| + 5 ==> ending.GaveUp?
    ensures o.Success? ==>
      && ending.Took? && Padded(req.currency, o.transfer.currency)
      && Recorded(Fold(old(c.db), log), c.db, req, o.transfer, 1)
    ensures c.others == [] ==> log == [] && !ending.Fired?
    ensures c.others == [] && c.met == old(c.met) ==> stamp == old(c.nextStamp)
  {
    log, ending := [], Took;
    stamp := c.nextStamp;
    assert FreshStamp(c.db, stamp);
    if req.key != "" {
      return Failed(KeyNotSupported), log, stamp, Took;
    }
    for attempt := 0 to MAX_RETRIES
      invariant c.Valid() && !c.inTx && Within(c.plan, old(c.plan)) && old(c.met) <= c.met
      invariant |c.met| <= |old(c.met)| + attempt
      invariant Legal(old(c.db), log) && c.db == Fold(old(c.db), log) && FreshStamp(c.db, stamp)
      invariant c.others == [] ==> log == []
      invariant attempt == 0 ==> c.nextStamp == old(c.nextStamp)
      invariant OptimisticDebits(log, req.from) + |c.met| - |old(c.met)| >= attempt
      invariant AllTried(Optimistic, c.met, |old(c.met)|)
    {
      stamp := c.nextStamp;
      assert FreshStamp(c.db, stamp);
      ghost var plan, met, read := c.plan, c.met, |log|;
      var again;
      ghost var fired;
      o, again, fired, log :=
        AttemptAfter(c, req, if attempt < |c.others| then c.others[attempt] else [], old(c.db), log, stamp);
      TriedSince(Optimistic, met, c.met, |old(c.met)|);
      if again {
        continue;
      }
      ending := if fired then Fired(read) else Took;
      if o.Success? {
        SuccessIsRecorded(Fold(old(c.db), log), c.db, Optimistic, req, stamp, c.clock, c.appClock, plan,
                           c.met == met, o);
      }
      return;
    }
    o, ending := Failed(TooManyRetries), GaveUp;
  }
}
