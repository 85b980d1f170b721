/** What one undisturbed call answers and does, said in terms of the committed tables alone. */
module LedgerSpec {
  import opened Types
  import opened AtomicLedger
  import opened Statements

  /** The checks made before the database is touched. */
  function GuardError(strategy: Strategy, req: Request): Option<LedgerError> {
    match strategy
    case Conditional =>
      if req.amount <= 0 then Some(InvalidAmount)
      else if req.from == req.to then Some(SameAccount)
      else if |req.currency| != 3 then Some(InvalidCurrency)
      else None
    case ForUpdate => None
    case Optimistic => if req.key != "" then Some(KeyNotSupported) else None
  }

  /** How the claim of a key ends when it is not won. */
  function ClaimAnswer(db: Db, req: Request, now: int, appClock: int): Option<Outcome> {
    if req.key == "" || req.key !in db.keys then None
    else
      var row := db.keys[req.key];
      if row.hash != req.hash then Some(Failed(DuplicateRequest))
      else if row.status == InProgress then
        if appClock - row.claimedAt > STALE_CLAIM && row.claimedAt < now - STALE_CLAIM then None
        else Some(Failed(KeyInProgress))
      else if row.code.None? then Some(Failed(CorruptKeyRow))
      else Some(Replay(row.code.value, row.body))
  }

  /** Currencies and existence, as Fix A and Fix B check them. */
  function AccountsError(db: Db, req: Request): Option<LedgerError> {
    if req.from !in db.accounts || req.to !in db.accounts then Some(AccountNotFound)
    else if db.accounts[req.from].currency != req.currency || db.accounts[req.to].currency != req.currency
    then Some(CurrencyMismatch)
    else None
  }

  function BalanceError(balance: int): Option<LedgerError> {
    if !InInt64(balance) then Some(Sql(NumericOutOfRange))
    else if balance < 0 then Some(Sql(CheckViolation))
    else None
  }

  /** What the debit can refuse. */
  function DebitError(db: Db, from: AccountId, amount: int): Option<LedgerError> {
    if from !in db.accounts then Some(AccountNotFound)
    else if db.accounts[from].balance < amount then Some(InsufficientFunds)
    else BalanceError(db.accounts[from].balance - amount)
  }

  /** What the credit can refuse, after the debit. */
  function CreditError(db: Db, req: Request): Option<LedgerError> {
    if req.to !in db.accounts then Some(AccountNotFound)
    else BalanceError(if req.to == req.from then db.accounts[req.to].balance
                      else db.accounts[req.to].balance + req.amount)
  }

  /** What the CHECKs of the transfers table refuse. */
  function RowError(req: Request): Option<LedgerError> {
    if !FitsChar3(req.currency) then Some(Sql(StringTooLong))
    else if req.amount <= 0 || req.from == req.to then Some(Sql(CheckViolation))
    else None
  }

  function FirstError(a: Option<LedgerError>, b: Option<LedgerError>): Option<LedgerError> {
    if a.Some? then a else b
  }

  function WorkError(db: Db, strategy: Strategy, req: Request): Option<LedgerError> {
    var body := FirstError(DebitError(db, req.from, req.amount), FirstError(CreditError(db, req), RowError(req)));
    if strategy.Optimistic? then body else FirstError(AccountsError(db, req), body)
  }

  /** The answer of a call that does not transfer; none when it does. */
  function Refusal(db: Db, strategy: Strategy, req: Request, now: int, appClock: int): Option<Outcome> {
    if GuardError(strategy, req).Some? then Some(Failed(GuardError(strategy, req).value))
    else if ClaimAnswer(db, req, now, appClock).Some? then ClaimAnswer(db, req, now, appClock)
    else if WorkError(db, strategy, req).Some? then Some(Failed(WorkError(db, strategy, req).value))
    else None
  }

  /** A call is refused, or its transfer is allowed: there is no third way. */
  lemma AcceptedCanTransfer(db: Db, strategy: Strategy, req: Request, stamp: Id, now: int, appClock: int)
    requires AccountsOk(db) && FreshStamp(db, stamp)
    requires Refusal(db, strategy, req, now, appClock).None?
    ensures CanTransfer(db, strategy, req, stamp)
  {
  }

  /** One undisturbed call: the tables it leaves and its answer. */
  function Call(db: Db, strategy: Strategy, req: Request, stamp: Id, now: int, appClock: int): (Db, Outcome)
    requires AccountsOk(db) && FreshStamp(db, stamp)
  {
    var refusal := Refusal(db, strategy, req, now, appClock);
    if refusal.Some? then (db, refusal.value)
    else
      AcceptedCanTransfer(db, strategy, req, stamp, now, appClock);
      (ApplyTransfer(db, strategy, req, stamp, now), Success(TransferRow(req, stamp, now)))
  }

  // ---------------------------------------------------------- answers in order

  /** The key cannot be claimed: it is bound to another hash, done, or claimed by the same request lately. */
  ghost predicate KeyInUse(db: Db, req: Request, now: int, appClock: int) {
    && req.key != "" && req.key in db.keys
    && var row := db.keys[req.key];
       || row.hash != req.hash || row.status == Done
       || appClock - row.claimedAt <= 30_000_000 || now - row.claimedAt <= 30_000_000
  }

  /** The answers on a key in use. */
  ghost predicate KeyAnswer(row: KeyRow, req: Request, o: Outcome) {
    if row.hash != req.hash then o == Failed(DuplicateRequest)
    else if row.status == InProgress then o == Failed(KeyInProgress)
    else o == if row.code == None then Failed(CorruptKeyRow) else Replay(row.code.value, row.body)
  }

  /** The answers on the accounts, in the order of Fix A and Fix B. */
  ghost predicate AccountsAnswer(accounts: map<AccountId, Account>, req: Request, o: Outcome) {
    if req.from !in accounts || req.to !in accounts then o == Failed(AccountNotFound)
    else if accounts[req.from].currency != req.currency || accounts[req.to].currency != req.currency
      then o == Failed(CurrencyMismatch)
    else if accounts[req.from].balance < req.amount then o == Failed(InsufficientFunds)
    else if accounts[req.to].balance + req.amount > 0x7FFF_FFFF_FFFF_FFFF then o == Failed(Sql(NumericOutOfRange))
    else o.Success?
  }

  /** The answers on the accounts, in the order of Fix C. */
  ghost predicate OptimisticAnswer(accounts: map<AccountId, Account>, req: Request, o: Outcome) {
    if req.from !in accounts then o == Failed(AccountNotFound)
    else if accounts[req.from].balance < req.amount then o == Failed(InsufficientFunds)
    else if req.to !in accounts then o == Failed(AccountNotFound)
    else if accounts[req.to].balance + req.amount > 0x7FFF_FFFF_FFFF_FFFF then o == Failed(Sql(NumericOutOfRange))
    else if exists i :: 3 <= i < |req.currency| && req.currency[i] != ' ' then o == Failed(Sql(StringTooLong))
    else o.Success?
  }

  /**
   What an undisturbed call of a positive amount between two accounts is told: the answer on its
   key if that is in use, else the first that applies on the accounts.
   */
  lemma AnswersInOrder(db: Db, strategy: Strategy, req: Request, stamp: Id, now: int, appClock: int)
    requires AccountsOk(db) && FreshStamp(db, stamp)
    requires req.amount > 0 && req.from != req.to
    ensures var o := Call(db, strategy, req, stamp, now, appClock).1;
      if strategy == Optimistic then
        if req.key != "" then o == Failed(KeyNotSupported) else OptimisticAnswer(db.accounts, req, o)
      else if strategy == Conditional && |req.currency| != 3 then o == Failed(InvalidCurrency)
      else if KeyInUse(db, req, now, appClock) then KeyAnswer(db.keys[req.key], req, o)
      else AccountsAnswer(db.accounts, req, o)
  {
    if !strategy.Optimistic? && AccountsError(db, req).None? {
      assert |db.accounts[req.from].currency| == 3;
    }
  }

  // ------------------------------------------------------ strategy equivalence

  /**
   For requests that pass the checks of Execute, Fix A and Fix B give the same answer and
   leave the same tables; for the others both leave the tables unchanged.
   */
  lemma StrategiesAgree(db: Db, req: Request, stamp: Id, now: int, appClock: int)
    requires AccountsOk(db) && FreshStamp(db, stamp)
    ensures GuardError(Conditional, req).None? ==>
      Call(db, Conditional, req, stamp, now, appClock) == Call(db, ForUpdate, req, stamp, now, appClock)
    ensures GuardError(Conditional, req).Some? ==>
      Call(db, Conditional, req, stamp, now, appClock).0 == Call(db, ForUpdate, req, stamp, now, appClock).0 == db
  {
    if GuardError(Conditional, req).Some? {
      if AccountsError(db, req).None? {
        assert |req.currency| == 3;
      }
      assert WorkError(db, ForUpdate, req).Some?;
    }
  }

  lemma CallKeepsAccounts(db: Db, strategy: Strategy, req: Request, stamp: Id, now: int, appClock: int)
    requires AccountsOk(db) && FreshStamp(db, stamp)
    ensures AccountsOk(Call(db, strategy, req, stamp, now, appClock).0)
  {
    if Refusal(db, strategy, req, now, appClock).None? {
      AcceptedCanTransfer(db, strategy, req, stamp, now, appClock);
    }
  }

  lemma CallKeepsDbInv(db: Db, strategy: Strategy, req: Request, stamp: Id, now: int, appClock: int)
    requires DbInv(db) && FreshStamp(db, stamp)
    ensures DbInv(Call(db, strategy, req, stamp, now, appClock).0)
  {
    if Refusal(db, strategy, req, now, appClock).None? {
      AcceptedCanTransfer(db, strategy, req, stamp, now, appClock);
      ApplyKeepsDbInv(db, TransferOp(0, strategy, req, stamp, now));
    }
  }

  ghost predicate FreshFrom(db: Db, stamp: Id) {
    forall n: Id | n >= stamp :: FreshStamp(db, n)
  }

  lemma CallKeepsFresh(db: Db, strategy: Strategy, req: Request, stamp: Id, now: int, appClock: int)
    requires AccountsOk(db) && FreshFrom(db, stamp)
    ensures FreshFrom(Call(db, strategy, req, stamp, now, appClock).0, stamp + 1)
  {
    if Refusal(db, strategy, req, now, appClock).None? {
      AcceptedCanTransfer(db, strategy, req, stamp, now, appClock);
      var next := Call(db, strategy, req, stamp, now, appClock).0;
      forall n: Id | n >= stamp + 1 ensures FreshStamp(next, n) {
        assert FreshStamp(db, n);
      }
    }
  }

  /** A request, with the two clocks at the time it is served. */
  datatype Arrival = Arrival(req: Request, now: int, appClock: int)

  /** Requests run to completion one after another, each with the next stamp. */
  ghost function CallAll(db: Db, strategy: Strategy, arrivals: seq<Arrival>, stamp: Id): (r: (Db, seq<Outcome>))
    requires AccountsOk(db) && FreshFrom(db, stamp)
    decreases |arrivals|
  {
    if arrivals == [] then (db, [])
    else
      var a := arrivals[0];
      assert FreshStamp(db, stamp);
      CallKeepsAccounts(db, strategy, a.req, stamp, a.now, a.appClock);
      CallKeepsFresh(db, strategy, a.req, stamp, a.now, a.appClock);
      var first := Call(db, strategy, a.req, stamp, a.now, a.appClock);
      var rest := CallAll(first.0, strategy, arrivals[1..], stamp + 1);
      (rest.0, [first.1] + rest.1)
  }

  /** Fix A and Fix B are interchangeable on every sequence of requests that pass the checks. */
  lemma {:induction false} StrategiesEquivalent(db: Db, arrivals: seq<Arrival>, stamp: Id)
    requires AccountsOk(db) && FreshFrom(db, stamp)
    requires forall a | a in arrivals :: GuardError(Conditional, a.req).None?
    ensures CallAll(db, Conditional, arrivals, stamp) == CallAll(db, ForUpdate, arrivals, stamp)
    decreases |arrivals|
  {
    if arrivals != [] {
      var a := arrivals[0];
      assert FreshStamp(db, stamp);
      StrategiesAgree(db, a.req, stamp, a.now, a.appClock);
      CallKeepsAccounts(db, Conditional, a.req, stamp, a.now, a.appClock);
      CallKeepsFresh(db, Conditional, a.req, stamp, a.now, a.appClock);
      StrategiesEquivalent(Call(db, Conditional, a.req, stamp, a.now, a.appClock).0, arrivals[1..], stamp + 1);
    }
  }
}
