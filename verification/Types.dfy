/** Rows, tables and requests of the ledger database, and the outcomes of a transfer call. */
module Types {

  datatype Option<+T> = None | Some(value: T)

  type AccountId = int
  type Id = nat
  type Url = string

  /** Smallest and largest BIGINT. */
  const MIN_INT64: int := -0x8000_0000_0000_0000
  const MAX_INT64: int := 0x7FFF_FFFF_FFFF_FFFF

  /** Clock values and durations are microseconds, the resolution of TIMESTAMPTZ. */
  const SECOND: int := 1_000_000

  /** HTTP 201, the code stored with every completed key. */
  const CREATED: int := 201

  const TRANSFER_CREATED: string := "transfer.created"

  datatype Account = Account(currency: string, balance: int, version: int, webhook: Option<Url>)

  /** transfers.idempotency_key: the client's key, or a generated UUID when the client sent none. */
  datatype TransferKey = ClientKey(text: string) | FreshKey(id: Id)

  datatype Transfer = Transfer(
    id: Id, key: TransferKey, amount: int, currency: string,
    from: AccountId, to: AccountId, createdAt: int)

  datatype Posting = Posting(id: Id, transferId: Id, account: AccountId, amount: int)

  datatype KeyStatus = InProgress | Done

  /** A row of idempotency_keys; the stored body is the JSON value of a transfer. */
  datatype KeyRow = KeyRow(
    hash: string, status: KeyStatus, code: Option<int>, body: Option<Transfer>, claimedAt: int)

  /** The columns of an outbox row that are fixed when it is inserted. */
  datatype Event = Event(id: Id, kind: string, payload: Transfer, target: Option<Url>)

  /** The committed tables. Rows of the append-only tables stand in commit order. */
  datatype Db = Db(
    accounts: map<AccountId, Account>, transfers: seq<Transfer>, postings: seq<Posting>,
    keys: map<string, KeyRow>, outbox: seq<Event>)

  datatype Request = Request(
    from: AccountId, to: AccountId, amount: int, currency: string, key: string, hash: string)

  /** Fix A, Fix B and Fix C. */
  datatype Strategy = Conditional | ForUpdate | Optimistic

  datatype SqlError =
    | DeadlockDetected
    | SerializationFailure
    | ConnectionLost
    | CheckViolation
    | UniqueViolation
    | ForeignKeyViolation
    | NumericOutOfRange
    | StringTooLong
    | NoRows

  datatype LedgerError =
    | InvalidAmount
    | SameAccount
    | InvalidCurrency
    | AccountNotFound
    | CurrencyMismatch
    | InsufficientFunds
    | DuplicateRequest
    | KeyInProgress
    | CorruptKeyRow
    | KeyNotSupported
    | TooManyRetries
    | Sql(error: SqlError)

  datatype Outcome =
    | Success(transfer: Transfer)
    | Replay(code: int, body: Option<Transfer>)
    | Failed(reason: LedgerError)

  /** Deadlock (40P01) and serialisation failure (40001): the errors worth another attempt. */
  predicate IsRetriable(e: SqlError) {
    e.DeadlockDetected? || e.SerializationFailure?
  }

  /** A value can be stored in CHAR(3): only blanks may be cut off. */
  predicate FitsChar3(c: string) {
    |c| <= 3 || forall i | 3 <= i < |c| :: c[i] == ' '
  }

  /** What CHAR(3) keeps of a value: blank-padded, or cut, to three characters. */
  function Char3(c: string): (r: string)
    ensures |r| == 3
    ensures |c| == 3 ==> r == c
  {
    if |c| >= 3 then c[..3] else c + seq(3 - |c|, _ => ' ')
  }

  predicate InInt64(n: int) {
    MIN_INT64 <= n <= MAX_INT64
  }
}
