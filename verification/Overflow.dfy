/** BIGINT never overflows when all money in the system fits in one BIGINT. */
module Overflow {
  import opened Types
  import opened AtomicLedger
  import opened Statements
  import opened Protocol
  import opened ProtocolInvariant
  import opened ProtocolSteps
  import opened Refinement
  import opened LedgerLaws
  import opened Sums

  /** Two balances are at most the total. */
  lemma PairWithinTotal(db: Db, a: AccountId, b: AccountId)
    requires AccountsOk(db) && a in db.accounts && b in db.accounts && a != b
    ensures db.accounts[a].balance + db.accounts[b].balance <= Total(db)
  {
    SumAtLeastTwo(Balances(db.accounts), a, b);
  }

  lemma CreditFits(db: Db, locks: map<Resource, WorkerId>, w: WorkerId, worker: Worker)
    requires AccountsOk(db) && RowsOk(db, locks, w, worker) && worker.pc.Credit?
    requires worker.req.amount > 0 && Total(db) <= MAX_INT64
    ensures CreditRow(View(db, worker.tx), worker.tx, worker.req.to, worker.req.amount).Rows?
    ensures worker.req.to != worker.req.from && worker.req.to in db.accounts ==>
      0 < db.accounts[worker.req.to].balance + worker.req.amount <= 0x7FFF_FFFF_FFFF_FFFF
  {
    var r := worker.req;
    assert worker.tx.rows == map[r.from := DebitedRow(db, worker)];
    if r.to in db.accounts && r.to != r.from {
      PairWithinTotal(db, r.from, r.to);
    }
  }

  /**
   If the opening balances total at most 2^63 - 1, no credit of a positive amount fails in any
   interleaving, neither by overflow nor by CHECK: the debited row is locked with enough
   balance, so source and destination together stay within the conserved total even while
   the transfer is still open.
   */
  lemma NoOverflow(s: State, ls: seq<Label>, w: WorkerId)
    requires Inv(s) && Total(s.db) <= 0x7FFF_FFFF_FFFF_FFFF
    requires w in Run(s, ls).workers && Run(s, ls).workers[w].pc.Credit?
    requires Run(s, ls).workers[w].req.amount > 0
    ensures var end := Run(s, ls);
      var worker := end.workers[w];
      && CreditRow(View(end.db, worker.tx), worker.tx, worker.req.to, worker.req.amount).Rows?
      && (worker.req.to != worker.req.from && worker.req.to in end.db.accounts ==>
        0 < end.db.accounts[worker.req.to].balance + worker.req.amount <= 0x7FFF_FFFF_FFFF_FFFF)
  {
    var end := Run(s, ls);
    RunKeepsInv(s, ls);
    RunTotal(s, ls);
    assert WorkerOk(end.db, end.locks, w, end.workers[w]);
    CreditFits(end.db, end.locks, w, end.workers[w]);
  }
}
