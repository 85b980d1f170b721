/** Conservation laws of the atomic ledger, and through refinement of every run of the protocol. */
module LedgerLaws {
  import opened Types
  import opened AtomicLedger
  import opened Protocol
  import opened ProtocolInvariant
  import opened ProtocolSteps
  import opened Refinement
  import opened Sums

  // ------------------------------------------------------------- postings

  ghost function PostingSum(ps: seq<Posting>, a: AccountId): int {
    if ps == [] then 0
    else
      var last := ps[|ps| - 1];
      PostingSum(ps[..|ps| - 1], a) + (if last.account == a then last.amount else 0)
  }

  lemma PostingSumPair(ps: seq<Posting>, p: Posting, q: Posting, a: AccountId)
    ensures PostingSum(ps + [p, q], a)
         == PostingSum(ps, a) + (if p.account == a then p.amount else 0) + (if q.account == a then q.amount else 0)
  {
    var whole := ps + [p, q];
    assert whole[..|whole| - 1] == ps + [p];
    assert (ps + [p])[..|ps|] == ps;
  }

  lemma {:induction false} PostingSumAbsent(ps: seq<Posting>, a: AccountId)
    requires forall p | p in ps :: p.account != a
    ensures PostingSum(ps, a) == 0
  {
    if ps != [] {
      PostingSumAbsent(ps[..|ps| - 1], a);
    }
  }

  /** Postings only name accounts that exist. */
  lemma PostingsHaveAccounts(db: Db)
    requires TransfersOk(db) && JournalOk(db)
    ensures forall p | p in db.postings :: p.account in db.accounts
  {
    forall p | p in db.postings ensures p.account in db.accounts {
      var j :| 0 <= j < |db.postings| && db.postings[j] == p;
      var i := j / 2;
      assert PairOk(db.transfers[i], db.postings[2 * i], db.postings[2 * i + 1]);
      assert db.transfers[i] in db.transfers;
    }
  }

  // -------------------------------------------------- one atomic operation

  /** The part of a balance that no posting explains: money put in before the journal began. */
  ghost function Opening(db: Db, a: AccountId): int {
    if a in db.accounts then db.accounts[a].balance - PostingSum(db.postings, a) else 0
  }

  lemma ApplyOpening(db: Db, op: Op, a: AccountId)
    requires DbInv(db) && CanApply(db, op)
    ensures Opening(Apply(db, op), a) == Opening(db, a)
  {
    if op.TransferOp? {
      PostingSumPair(db.postings, DebitPosting(op.req, op.stamp), CreditPosting(op.req, op.stamp), a);
    } else if op.OpenOp? && op.id == a {
      PostingsHaveAccounts(db);
      PostingSumAbsent(db.postings, a);
    }
  }

  function Balances(accounts: map<AccountId, Account>): map<int, int> {
    map a | a in accounts :: accounts[a].balance
  }

  function BalancesIn(accounts: map<AccountId, Account>, currency: string): map<int, int> {
    map a | a in accounts :: if accounts[a].currency == currency then accounts[a].balance else 0
  }

  ghost function Total(db: Db): int {
    SumMap(Balances(db.accounts))
  }

  ghost function TotalIn(db: Db, currency: string): int {
    SumMap(BalancesIn(db.accounts, currency))
  }

  lemma TransferTotal(db: Db, op: Op)
    requires CanApply(db, op) && op.TransferOp?
    ensures Total(Apply(db, op)) == Total(db)
  {
    var b, req := Balances(db.accounts), op.req;
    var mid := b[req.from := b[req.from] - req.amount];
    SumUpdate(b, req.from, b[req.from] - req.amount);
    SumUpdate(mid, req.to, b[req.to] + req.amount);
    assert Balances(Apply(db, op).accounts) == mid[req.to := b[req.to] + req.amount];
  }

  lemma ApplyTotal(db: Db, op: Op)
    requires CanApply(db, op)
    ensures Total(Apply(db, op)) == Total(db)
  {
    var b := Balances(db.accounts);
    var next := Balances(Apply(db, op).accounts);
    match op
    case TransferOp(_, _, _, _, _) => TransferTotal(db, op);
    case OpenOp(id, currency, webhook) =>
      SumUpdate(b, id, 0);
      assert next == b[id := 0];
    case WebhookOp(id, url) =>
      assert next == b;
  }

  lemma TransferTotalIn(db: Db, op: Op, currency: string)
    requires CanApply(db, op) && op.TransferOp?
    ensures TotalIn(Apply(db, op), currency)
         == TotalIn(db, currency)
          - (if db.accounts[op.req.from].currency == currency then op.req.amount else 0)
          + (if db.accounts[op.req.to].currency == currency then op.req.amount else 0)
  {
    var req := op.req;
    var b := BalancesIn(db.accounts, currency);
    var next := BalancesIn(Apply(db, op).accounts, currency);
    var from := b[req.from] - (if db.accounts[req.from].currency == currency then req.amount else 0);
    var to := b[req.to] + (if db.accounts[req.to].currency == currency then req.amount else 0);
    SumUpdate(b, req.from, from);
    SumUpdate(b[req.from := from], req.to, to);
    assert next == b[req.from := from][req.to := to];
  }

  /**
   A committed transfer keeps the sum in every currency exactly when its two accounts share one.
   Fix A and Fix B check that; Fix C does not.
   */
  lemma TransferKeepsCurrenciesIff(db: Db, op: Op)
    requires CanApply(db, op) && op.TransferOp?
    ensures (forall c :: TotalIn(Apply(db, op), c) == TotalIn(db, c))
       <==> db.accounts[op.req.from].currency == db.accounts[op.req.to].currency
  {
    forall c ensures TotalIn(Apply(db, op), c)
                  == TotalIn(db, c)
                   - (if db.accounts[op.req.from].currency == c then op.req.amount else 0)
                   + (if db.accounts[op.req.to].currency == c then op.req.amount else 0)
    {
      TransferTotalIn(db, op, c);
    }
    var c := db.accounts[op.req.from].currency;
    assert TotalIn(Apply(db, op), c) == TotalIn(db, c) ==> db.accounts[op.req.to].currency == c;
  }

  lemma ApplyTotalIn(db: Db, op: Op, currency: string)
    requires CanApply(db, op) && (op.TransferOp? ==> !op.strategy.Optimistic?)
    ensures TotalIn(Apply(db, op), currency) == TotalIn(db, currency)
  {
    var b := BalancesIn(db.accounts, currency);
    var next := BalancesIn(Apply(db, op).accounts, currency);
    match op
    case TransferOp(_, strategy, req, stamp, at) => TransferTotalIn(db, op, currency);
    case OpenOp(id, _, webhook) =>
      SumUpdate(b, id, 0);
      assert next == b[id := 0];
    case WebhookOp(id, url) =>
      assert next == b;
  }

  // ----------------------------------------------------------- whole logs

  lemma {:induction false} FoldOpening(db: Db, log: seq<Op>, a: AccountId)
    requires DbInv(db) && Legal(db, log)
    ensures Opening(Fold(db, log), a) == Opening(db, a)
    decreases |log|
  {
    if log != [] {
      ApplyOpening(db, log[0], a);
      ApplyKeepsDbInv(db, log[0]);
      FoldOpening(Apply(db, log[0]), log[1..], a);
    }
  }

  lemma {:induction false} FoldTotal(db: Db, log: seq<Op>)
    requires Legal(db, log)
    ensures Total(Fold(db, log)) == Total(db)
    decreases |log|
  {
    if log != [] {
      ApplyTotal(db, log[0]);
      FoldTotal(Apply(db, log[0]), log[1..]);
    }
  }

  lemma {:induction false} FoldTotalIn(db: Db, log: seq<Op>, currency: string)
    requires Legal(db, log)
    requires forall op | op in log :: op.TransferOp? ==> !op.strategy.Optimistic?
    ensures TotalIn(Fold(db, log), currency) == TotalIn(db, currency)
    decreases |log|
  {
    if log != [] {
      ApplyTotalIn(db, log[0], currency);
      FoldTotalIn(Apply(db, log[0]), log[1..], currency);
    }
  }

  // ------------------------------------------------------ runs of the protocol

  /** All calls of a run, present and to come, use one of these strategies. */
  ghost predicate Uses(s: State, ls: seq<Label>, strategies: set<Strategy>) {
    && (forall w | w in s.workers :: s.workers[w].strategy in strategies)
    && (forall l | l in ls :: l.Spawn? ==> l.strategy in strategies)
  }

  lemma StepUses(s: State, ls: seq<Label>, strategies: set<Strategy>)
    requires ls != [] && Uses(s, ls, strategies)
    ensures Uses(Step(s, ls[0]), ls[1..], strategies)
    ensures forall op | op in Committed(s, ls[0]) :: op.TransferOp? ==> op.strategy in strategies
  {
    assert ls[0] in ls;
  }

  lemma {:induction false} HistoryUses(s: State, ls: seq<Label>, strategies: set<Strategy>)
    requires Uses(s, ls, strategies)
    ensures forall op | op in History(s, ls) :: op.TransferOp? ==> op.strategy in strategies
    decreases |ls|
  {
    if ls != [] {
      StepUses(s, ls, strategies);
      HistoryUses(Step(s, ls[0]), ls[1..], strategies);
    }
  }

  /**
   In every reachable state each balance is non-negative and is its opening balance plus the
   sum of its postings; accounts opened during the run started at zero.
   */
  lemma RunBalances(s: State, ls: seq<Label>, a: AccountId)
    requires Inv(s)
    requires a in Run(s, ls).db.accounts
    ensures var end := Run(s, ls).db;
      && 0 <= end.accounts[a].balance <= 0x7FFF_FFFF_FFFF_FFFF
      && end.accounts[a].balance == Opening(s.db, a) + PostingSum(end.postings, a)
  {
    RunRefines(s, ls);
    RunKeepsInv(s, ls);
    FoldOpening(s.db, History(s, ls), a);
  }

  /** Money is neither created nor destroyed, whatever the strategies. */
  lemma RunTotal(s: State, ls: seq<Label>)
    requires Inv(s)
    ensures Total(Run(s, ls).db) == Total(s.db)
  {
    RunRefines(s, ls);
    FoldTotal(s.db, History(s, ls));
  }

  /** With Fix A and Fix B only, the sum in each currency is constant too. */
  lemma RunTotalIn(s: State, ls: seq<Label>, currency: string)
    requires Inv(s) && Uses(s, ls, {Conditional, ForUpdate})
    ensures TotalIn(Run(s, ls).db, currency) == TotalIn(s.db, currency)
  {
    RunRefines(s, ls);
    HistoryUses(s, ls, {Conditional, ForUpdate});
    FoldTotalIn(s.db, History(s, ls), currency);
  }
}
