/**
 The ledger as it would be if every call took effect at one instant: one operation
 changes all tables together. The protocol is proved to refine this.
 */
module AtomicLedger {
  import opened Types

  datatype Op =
    | TransferOp(caller: nat, strategy: Strategy, req: Request, stamp: Id, at: int)
    | OpenOp(id: AccountId, currency: string, webhook: Option<Url>)
    | WebhookOp(id: AccountId, url: Option<Url>)

  // --------------------------------------------------------------- operations

  function KeyOf(req: Request, stamp: Id): TransferKey {
    if req.key == "" then FreshKey(stamp) else ClientKey(req.key)
  }

  function TransferRow(req: Request, stamp: Id, at: int): Transfer {
    Transfer(stamp, KeyOf(req, stamp), req.amount, Char3(req.currency), req.from, req.to, at)
  }

  function DebitPosting(req: Request, stamp: Id): Posting {
    Posting(2 * stamp + 1, stamp, req.from, -req.amount)
  }

  function CreditPosting(req: Request, stamp: Id): Posting {
    Posting(2 * stamp + 2, stamp, req.to, req.amount)
  }

  /** Only Fix C bumps the version, and only on the debited row. */
  function Bump(strategy: Strategy): int {
    if strategy.Optimistic? then 1 else 0
  }

  function Debited(row: Account, amount: int, bump: int): Account {
    row.(balance := row.balance - amount, version := row.version + bump)
  }

  function Credited(row: Account, amount: int): Account {
    row.(balance := row.balance + amount)
  }

  /** The generated ids of one attempt clash with nothing stored. */
  predicate FreshStamp(db: Db, n: Id) {
    && (forall t | t in db.transfers :: t.id != n && t.key != FreshKey(n))
    && (forall p | p in db.postings :: p.id != 2 * n + 1 && p.id != 2 * n + 2)
    && (forall e | e in db.outbox :: e.id != n)
  }

  /** A key can be claimed when it is new, or left in progress by a claimer with the same hash. */
  predicate Claimable(db: Db, key: string, hash: string) {
    key in db.keys ==> db.keys[key].status == InProgress && db.keys[key].hash == hash
  }

  predicate CanTransfer(db: Db, strategy: Strategy, req: Request, stamp: Id) {
    && req.amount > 0
    && req.from != req.to
    && req.from in db.accounts && req.to in db.accounts
    && db.accounts[req.from].balance >= req.amount
    && db.accounts[req.to].balance + req.amount <= MAX_INT64
    && FitsChar3(req.currency)
    && (!strategy.Optimistic? ==>
      db.accounts[req.from].currency == req.currency == db.accounts[req.to].currency)
    && (strategy.Optimistic? ==> req.key == "")
    && (req.key != "" ==> Claimable(db, req.key, req.hash))
    && FreshStamp(db, stamp)
  }

  predicate CanApply(db: Db, op: Op) {
    match op
    case TransferOp(_, strategy, req, stamp, at) => CanTransfer(db, strategy, req, stamp)
    case OpenOp(id, currency, webhook) => id !in db.accounts && |currency| == 3
    case WebhookOp(id, url) => id in db.accounts
  }

  function DoneRow(req: Request, stamp: Id, at: int): KeyRow {
    KeyRow(req.hash, Done, Some(CREATED), Some(TransferRow(req, stamp, at)), at)
  }

  /** One whole transfer: balances, transfer, posting pair, key row and event change together. */
  function ApplyTransfer(db: Db, strategy: Strategy, req: Request, stamp: Id, at: int): Db
    requires CanTransfer(db, strategy, req, stamp)
  {
    Db(
      db.accounts[req.from := Debited(db.accounts[req.from], req.amount, Bump(strategy))]
                 [req.to := Credited(db.accounts[req.to], req.amount)],
      db.transfers + [TransferRow(req, stamp, at)],
      db.postings + [DebitPosting(req, stamp), CreditPosting(req, stamp)],
      if req.key == "" then db.keys else db.keys[req.key := DoneRow(req, stamp, at)],
      db.outbox + [Event(stamp, TRANSFER_CREATED, TransferRow(req, stamp, at), db.accounts[req.to].webhook)])
  }

  /** Accounts open with balance and version zero. */
  function Apply(db: Db, op: Op): Db
    requires CanApply(db, op)
  {
    match op
    case TransferOp(_, strategy, req, stamp, at) => ApplyTransfer(db, strategy, req, stamp, at)
    case OpenOp(id, currency, webhook) =>
      db.(accounts := db.accounts[id := Account(currency, 0, 0, webhook)])
    case WebhookOp(id, url) =>
      db.(accounts := db.accounts[id := db.accounts[id].(webhook := url)])
  }

  /** The row of an account after one movement; a version only grows by a debit of Fix C. */
  function MovedRow(row: Account, amount: int, bump: int): Account {
    Account(row.currency, row.balance + amount, row.version + bump, row.webhook)
  }

  /**
   Column by column, what a transfer leaves: its row, the two postings, one event for the
   destination's webhook, the done key with the hash and the response, and two moved balances.
   */
  ghost predicate Recorded(before: Db, after: Db, req: Request, t: Transfer, bump: int) {
    && req.from in before.accounts && req.to in before.accounts
    && t.from == req.from && t.to == req.to && t.amount == req.amount
    && t.key == (if req.key == "" then FreshKey(t.id) else ClientKey(req.key))
    && after.transfers == before.transfers + [t]
    && after.postings == before.postings + [Posting(2 * t.id + 1, t.id, req.from, -req.amount),
                                            Posting(2 * t.id + 2, t.id, req.to, req.amount)]
    && after.outbox == before.outbox + [Event(t.id, "transfer.created", t, before.accounts[req.to].webhook)]
    && after.keys == (if req.key == "" then before.keys
                      else before.keys[req.key := KeyRow(req.hash, Done, Some(201), Some(t), t.createdAt)])
    && after.accounts == before.accounts[req.from := MovedRow(before.accounts[req.from], -req.amount, bump)]
                                        [req.to := MovedRow(before.accounts[req.to], req.amount, 0)]
  }

  /** Three characters: those of the text and then blanks, with only blanks cut off. */
  ghost predicate Padded(text: string, stored: string) {
    && |stored| == 3
    && (forall i | 0 <= i < 3 :: stored[i] == if i < |text| then text[i] else ' ')
    && (forall i | 3 <= i < |text| :: text[i] == ' ')
  }

  /** The atomic transfer records what was asked for, under a fresh id and the time of its transaction. */
  lemma TransferIsRecorded(db: Db, op: Op) returns (t: Transfer)
    requires CanApply(db, op) && op.TransferOp?
    ensures Recorded(db, Apply(db, op), op.req, t, if op.strategy == Optimistic then 1 else 0)
    ensures t.id == op.stamp && t.createdAt == op.at && t == TransferRow(op.req, op.stamp, op.at)
    ensures Padded(op.req.currency, t.currency)
    ensures op.strategy != Optimistic && |db.accounts[op.req.from].currency| == 3 ==> t.currency == op.req.currency
  {
    t := TransferRow(op.req, op.stamp, op.at);
  }

  /** Every operation of the log is allowed where it stands. */
  predicate Legal(db: Db, log: seq<Op>)
    decreases |log|
  {
    log != [] ==> CanApply(db, log[0]) && Legal(Apply(db, log[0]), log[1..])
  }

  function Fold(db: Db, log: seq<Op>): Db
    requires Legal(db, log)
    decreases |log|
  {
    if log == [] then db else Fold(Apply(db, log[0]), log[1..])
  }

  lemma FoldOne(db: Db, op: Op)
    requires CanApply(db, op)
    ensures Legal(db, [op]) && Fold(db, [op]) == Apply(db, op)
  {
    assert [op][1..] == [];
  }

  lemma {:induction false} FoldConcat(db: Db, a: seq<Op>, b: seq<Op>)
    requires Legal(db, a) && Legal(Fold(db, a), b)
    ensures Legal(db, a + b) && Fold(db, a + b) == Fold(Fold(db, a), b)
    decreases |a|
  {
    if a == [] {
      assert a + b == b;
    } else {
      FoldConcat(Apply(db, a[0]), a[1..], b);
      assert (a + b)[0] == a[0] && (a + b)[1..] == a[1..] + b;
    }
  }

  // ------------------------------------------------- consistency of the tables

  predicate AccountsOk(db: Db) {
    forall a | a in db.accounts :: 0 <= db.accounts[a].balance <= MAX_INT64 && |db.accounts[a].currency| == 3
  }

  /** Transfers satisfy their CHECKs and foreign keys; ids and keys are unique. */
  predicate TransfersOk(db: Db) {
    && (forall t | t in db.transfers ::
      t.amount > 0 && t.from != t.to && t.from in db.accounts && t.to in db.accounts)
    && (forall i, j | 0 <= i < j < |db.transfers| ::
      db.transfers[i].id != db.transfers[j].id && db.transfers[i].key != db.transfers[j].key)
  }

  predicate PairOk(t: Transfer, debit: Posting, credit: Posting) {
    && debit.transferId == t.id == credit.transferId
    && debit.account == t.from && debit.amount == -t.amount
    && credit.account == t.to && credit.amount == t.amount
  }

  /** The journal is exactly one balanced pair of postings per transfer; BIGSERIAL ids start at 1. */
  predicate JournalOk(db: Db) {
    && |db.postings| == 2 * |db.transfers|
    && (forall i | 0 <= i < |db.transfers| ::
      PairOk(db.transfers[i], db.postings[2 * i], db.postings[2 * i + 1]))
    && (forall i, j | 0 <= i < j < |db.postings| :: db.postings[i].id != db.postings[j].id)
    && (forall p | p in db.postings :: p.id > 0)
  }

  /** The outbox holds exactly one event per transfer, describing it. */
  predicate OutboxOk(db: Db) {
    && |db.outbox| == |db.transfers|
    && (forall i | 0 <= i < |db.outbox| ::
      db.outbox[i].kind == TRANSFER_CREATED && db.outbox[i].payload == db.transfers[i])
    && (forall i, j | 0 <= i < j < |db.outbox| :: db.outbox[i].id != db.outbox[j].id)
  }

  /** A done key stores the response of the one transfer that bears it. */
  predicate KeysOk(db: Db) {
    && (forall k | k in db.keys && db.keys[k].status == Done ::
      && db.keys[k].code == Some(CREATED)
      && db.keys[k].body.Some?
      && db.keys[k].body.value in db.transfers
      && db.keys[k].body.value.key == ClientKey(k))
    && (forall t | t in db.transfers && t.key.ClientKey? ::
      && t.key.text in db.keys
      && db.keys[t.key.text].status == Done
      && db.keys[t.key.text].body == Some(t))
  }

  predicate DbInv(db: Db) {
    AccountsOk(db) && TransfersOk(db) && JournalOk(db) && OutboxOk(db) && KeysOk(db)
  }

  lemma ApplyKeepsTransfers(db: Db, op: Op)
    requires DbInv(db) && CanApply(db, op)
    ensures AccountsOk(Apply(db, op)) && TransfersOk(Apply(db, op))
  {
    if op.TransferOp? && op.req.key != "" {
      assert forall t | t in db.transfers :: t.key != ClientKey(op.req.key);
    }
  }

  lemma ApplyKeepsJournal(db: Db, op: Op)
    requires JournalOk(db) && CanApply(db, op)
    ensures JournalOk(Apply(db, op))
  {
    var next := Apply(db, op);
    if op.TransferOp? {
      assert next.postings == db.postings + [DebitPosting(op.req, op.stamp), CreditPosting(op.req, op.stamp)];
      forall i | 0 <= i < |next.transfers|
        ensures PairOk(next.transfers[i], next.postings[2 * i], next.postings[2 * i + 1])
      {
        if i < |db.transfers| {
          assert PairOk(db.transfers[i], db.postings[2 * i], db.postings[2 * i + 1]);
        }
      }
    }
  }

  lemma ApplyKeepsOutbox(db: Db, op: Op)
    requires OutboxOk(db) && CanApply(db, op)
    ensures OutboxOk(Apply(db, op))
  {
  }

  lemma ApplyKeepsKeys(db: Db, op: Op)
    requires DbInv(db) && CanApply(db, op)
    ensures KeysOk(Apply(db, op))
  {
    if op.TransferOp? {
      var t := TransferRow(op.req, op.stamp, op.at);
      var next := Apply(db, op);
      assert next.transfers[|db.transfers|] == t;
      forall u | u in db.transfers
        ensures u in next.transfers && (op.req.key != "" ==> u.key != ClientKey(op.req.key))
      {
      }
    }
  }

  /** Every atomic operation keeps the tables consistent. */
  lemma ApplyKeepsDbInv(db: Db, op: Op)
    requires DbInv(db) && CanApply(db, op)
    ensures DbInv(Apply(db, op))
  {
    ApplyKeepsTransfers(db, op);
    ApplyKeepsJournal(db, op);
    ApplyKeepsOutbox(db, op);
    ApplyKeepsKeys(db, op);
  }

  lemma {:induction false} FoldKeepsDbInv(db: Db, log: seq<Op>)
    requires DbInv(db) && Legal(db, log)
    ensures DbInv(Fold(db, log))
    decreases |log|
  {
    if log != [] {
      ApplyKeepsDbInv(db, log[0]);
      FoldKeepsDbInv(Apply(db, log[0]), log[1..]);
    }
  }
}
