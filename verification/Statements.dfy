/**
 The SQL statements of a transfer, as functions of what the transaction sees and of the
 row versions it has buffered so far.
 */
module Statements {
  import opened Types
  import opened AtomicLedger

  /** What an open transaction has written and not yet committed. */
  datatype Tx = Tx(
    start: int, stamp: Id, rows: map<AccountId, Account>, keys: map<string, KeyRow>,
    transfers: seq<Transfer>, postings: seq<Posting>, events: seq<Event>)

  function OpenTx(start: int, stamp: Id): Tx {
    Tx(start, stamp, map[], map[], [], [], [])
  }

  /** The committed rows with the transaction's own versions on top; also what COMMIT installs. */
  function View(db: Db, tx: Tx): Db {
    Db(db.accounts + tx.rows, db.transfers + tx.transfers, db.postings + tx.postings,
       db.keys + tx.keys, db.outbox + tx.events)
  }

  datatype Exec = Rows(tx: Tx, count: nat) | Raise(error: SqlError)

  /** Writes an account row under BIGINT arithmetic and CHECK (balance >= 0). */
  function WriteRow(tx: Tx, a: AccountId, row: Account): Exec {
    if !InInt64(row.balance) then Raise(NumericOutOfRange)
    else if row.balance < 0 then Raise(CheckViolation)
    else Rows(tx.(rows := tx.rows[a := row]), 1)
  }

  predicate Covers(v: Db, a: AccountId, amount: int) {
    a in v.accounts && v.accounts[a].balance >= amount
  }

  predicate HasVersion(v: Db, a: AccountId, version: int) {
    a in v.accounts && v.accounts[a].version == version
  }

  /** Debit by Fix A: UPDATE ... WHERE id AND balance >= amount. */
  function DebitIfCovered(v: Db, tx: Tx, a: AccountId, amount: int): Exec {
    if Covers(v, a, amount) then WriteRow(tx, a, Debited(v.accounts[a], amount, 0)) else Rows(tx, 0)
  }

  /** Debit by Fix B: UPDATE ... WHERE id. */
  function DebitRow(v: Db, tx: Tx, a: AccountId, amount: int): Exec {
    if a in v.accounts then WriteRow(tx, a, Debited(v.accounts[a], amount, 0)) else Rows(tx, 0)
  }

  /** Debit by Fix C: UPDATE ... WHERE id AND version, bumping the version. */
  function DebitIfVersion(v: Db, tx: Tx, a: AccountId, amount: int, version: int): Exec {
    if HasVersion(v, a, version) then WriteRow(tx, a, Debited(v.accounts[a], amount, 1)) else Rows(tx, 0)
  }

  function CreditRow(v: Db, tx: Tx, a: AccountId, amount: int): Exec {
    if a in v.accounts then WriteRow(tx, a, Credited(v.accounts[a], amount)) else Rows(tx, 0)
  }

  /** INSERT ... ON CONFLICT (key) DO NOTHING. */
  function InsertKey(v: Db, tx: Tx, key: string, hash: string): Exec {
    if key in v.keys then Rows(tx, 0)
    else Rows(tx.(keys := tx.keys[key := KeyRow(hash, InProgress, None, None, tx.start)]), 1)
  }

  const STALE_CLAIM: int := 30 * SECOND

  /** The WHERE clause of the steal; now() is the start of the transaction. */
  predicate Stealable(v: Db, tx: Tx, key: string) {
    key in v.keys && v.keys[key].status == InProgress && v.keys[key].claimedAt < tx.start - STALE_CLAIM
  }

  function StealKey(v: Db, tx: Tx, key: string, hash: string): Exec {
    if Stealable(v, tx, key)
    then Rows(tx.(keys := tx.keys[key := v.keys[key].(status := InProgress, hash := hash, claimedAt := tx.start)]), 1)
    else Rows(tx, 0)
  }

  /** The key row a won claim leaves: a new one, or the stale one taken over. */
  function ClaimedKey(db: Db, key: string, hash: string, start: int): KeyRow {
    if key in db.keys then db.keys[key].(status := InProgress, hash := hash, claimedAt := start)
    else KeyRow(hash, InProgress, None, None, start)
  }

  function CompleteKey(v: Db, tx: Tx, key: string, code: int, body: Transfer): Exec {
    if key in v.keys
    then Rows(tx.(keys := tx.keys[key := v.keys[key].(status := Done, code := Some(code), body := Some(body))]), 1)
    else Rows(tx, 0)
  }

  /** INSERT INTO transfers: column width, CHECKs, primary key and UNIQUE key, then foreign keys. */
  function InsertTransfer(v: Db, tx: Tx, req: Request): Exec {
    var row := TransferRow(req, tx.stamp, tx.start);
    if !FitsChar3(req.currency) then Raise(StringTooLong)
    else if req.amount <= 0 || req.from == req.to then Raise(CheckViolation)
    else if exists t | t in v.transfers :: t.id == row.id || t.key == row.key then Raise(UniqueViolation)
    else if req.from !in v.accounts || req.to !in v.accounts then Raise(ForeignKeyViolation)
    else Rows(tx.(transfers := tx.transfers + [row]), 1)
  }

  function InsertPostings(v: Db, tx: Tx, req: Request): Exec {
    if req.from !in v.accounts || req.to !in v.accounts then Raise(ForeignKeyViolation)
    else Rows(tx.(postings := tx.postings + [DebitPosting(req, tx.stamp), CreditPosting(req, tx.stamp)]), 2)
  }

  /** SELECT webhook_url; no row reads as no webhook. */
  function WebhookOf(v: Db, a: AccountId): Option<Url> {
    if a in v.accounts then v.accounts[a].webhook else None
  }

  function InsertEvent(tx: Tx, kind: string, payload: Transfer, target: Option<Url>): Exec {
    Rows(tx.(events := tx.events + [Event(tx.stamp, kind, payload, target)]), 1)
  }
}
