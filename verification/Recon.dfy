/** The reconciliation job: what its three checks compute and what passing them means. */
module Recon {
  import opened Types
  import opened AtomicLedger
  import opened Protocol
  import opened ProtocolInvariant
  import opened ProtocolSteps
  import opened Refinement
  import opened LedgerLaws
  import opened Sums

  datatype DriftAccount = DriftAccount(id: AccountId, balance: int, postingsSum: int)

  datatype Result = Result(
    conservationOK: bool, conservationSum: int, driftAccounts: seq<DriftAccount>, negativeCount: nat)

  // ------------------------------------------------------------- the queries

  /** SELECT SUM(amount) FROM postings. */
  function JournalSum(ps: seq<Posting>): int {
    if ps == [] then 0 else JournalSum(ps[..|ps| - 1]) + ps[|ps| - 1].amount
  }

  ghost predicate Drifts(db: Db, a: AccountId) {
    a in db.accounts && db.accounts[a].balance != PostingSum(db.postings, a)
  }

  /** The rows of the balance integrity query: every drifting account once, in any order. */
  ghost predicate AreDriftRows(db: Db, rows: seq<DriftAccount>) {
    && (forall i | 0 <= i < |rows| ::
      Drifts(db, rows[i].id) &&
      rows[i] == DriftAccount(rows[i].id, db.accounts[rows[i].id].balance, PostingSum(db.postings, rows[i].id)))
    && (forall a | Drifts(db, a) :: exists i :: 0 <= i < |rows| && rows[i].id == a)
    && (forall i, j | 0 <= i < j < |rows| :: rows[i].id != rows[j].id)
  }

  function Negative(db: Db): set<AccountId> {
    set a | a in db.accounts && db.accounts[a].balance < 0
  }

  method SumPostings(ps: seq<Posting>, a: AccountId) returns (sum: int)
    ensures sum == PostingSum(ps, a)
  {
    sum := 0;
    for i := 0 to |ps|
      invariant sum == PostingSum(ps[..i], a)
    {
      assert ps[..i + 1][..i] == ps[..i];
      if ps[i].account == a {
        sum := sum + ps[i].amount;
      }
    }
    assert ps[..|ps|] == ps;
  }

  method QueryDrift(db: Db) returns (rows: seq<DriftAccount>)
    ensures AreDriftRows(db, rows)
  {
    rows := [];
    var left := db.accounts.Keys;
    while exists a :: a in left
      invariant left <= db.accounts.Keys
      invariant forall i | 0 <= i < |rows| ::
        Drifts(db, rows[i].id) && rows[i].id !in left &&
        rows[i] == DriftAccount(rows[i].id, db.accounts[rows[i].id].balance, PostingSum(db.postings, rows[i].id))
      invariant forall a | Drifts(db, a) && a !in left :: exists i :: 0 <= i < |rows| && rows[i].id == a
      invariant forall i, j | 0 <= i < j < |rows| :: rows[i].id != rows[j].id
      decreases |left|
    {
      ghost var before := rows;
      var a :| a in left;
      var sum := SumPostings(db.postings, a);
      left := left - {a};
      if db.accounts[a].balance != sum {
        rows := rows + [DriftAccount(a, db.accounts[a].balance, sum)];
        assert rows[|before|].id == a;
      }
      assert forall i | 0 <= i < |before| :: rows[i] == before[i];
    }
  }

  /**
   Runs the three checks. The queries are separate statements, so each may read a different
   committed state, and each may fail: then the result is left as far as it had been filled.
   broken says after how many rows the reading of the second query fails, if it does.
   */
  method Run(first: Option<Db>, second: Option<Db>, broken: Option<nat>, third: Option<Db>)
    returns (r: Result, failed: bool)
    ensures failed <==> first.None? || second.None? || broken.Some? || third.None?
    ensures first.None? ==> r == Result(false, 0, [], 0)
    ensures first.Some? ==>
      && r.conservationSum == JournalSum(first.value.postings)
      && (r.conservationOK <==> JournalSum(first.value.postings) == 0)
    ensures first.None? || second.None? ==> r.driftAccounts == []
    ensures first.Some? && second.Some? ==>
      exists rows ::
        AreDriftRows(second.value, rows) && r.driftAccounts <= rows && (broken.None? ==> r.driftAccounts == rows)
    ensures r.negativeCount ==
      if failed then 0 else |set a | a in third.value.accounts && third.value.accounts[a].balance < 0|
  {
    r, failed := Result(false, 0, [], 0), true;
    if first.None? {
      return;
    }
    r := r.(conservationSum := JournalSum(first.value.postings));
    r := r.(conservationOK := r.conservationSum == 0);
    if second.None? {
      return;
    }
    var rows := QueryDrift(second.value);
    for i := 0 to |rows|
      invariant r.conservationSum == JournalSum(first.value.postings) && r.negativeCount == 0
      invariant r.conservationOK <==> JournalSum(first.value.postings) == 0
      invariant r.driftAccounts == rows[..i]
    {
      if broken == Some(i) {
        return;
      }
      r := r.(driftAccounts := r.driftAccounts + [rows[i]]);
    }
    if broken.Some? || third.None? {
      return;
    }
    r, failed := r.(negativeCount := |Negative(third.value)|), false;
  }

  // ------------------------------------------------------- in reachable states

  lemma {:induction false} JournalBalances(transfers: seq<Transfer>, ps: seq<Posting>)
    requires |ps| == 2 * |transfers|
    requires forall i | 0 <= i < |transfers| :: PairOk(transfers[i], ps[2 * i], ps[2 * i + 1])
    ensures JournalSum(ps) == 0
  {
    if transfers != [] {
      var n := |transfers| - 1;
      JournalBalances(transfers[..n], ps[..2 * n]);
      assert PairOk(transfers[n], ps[2 * n], ps[2 * n + 1]);
      assert ps[..|ps| - 1][..2 * n] == ps[..2 * n];
    }
  }

  lemma DriftIffOpening(s: State, ls: seq<Label>, a: AccountId)
    requires Inv(s)
    ensures Drifts(Protocol.Run(s, ls).db, a) <==> a in Protocol.Run(s, ls).db.accounts && Opening(s.db, a) != 0
  {
    RunRefines(s, ls);
    RunKeepsInv(s, ls);
    FoldOpening(s.db, History(s, ls), a);
  }

  lemma NothingNegative(db: Db)
    requires AccountsOk(db)
    ensures Negative(db) == {}
  {
    assert forall a | a in db.accounts :: db.accounts[a].balance >= 0;
  }

  /**
   Over any run, although its queries read three different moments, the job reports a zero
   sum, no negative balance, and as drift exactly the accounts funded outside the journal.
   */
  lemma ReconExact(s: State, toFirst: seq<Label>, toSecond: seq<Label>, toThird: seq<Label>, rows: seq<DriftAccount>)
    requires Inv(s)
    requires AreDriftRows(Protocol.Run(Protocol.Run(s, toFirst), toSecond).db, rows)
    ensures var first := Protocol.Run(s, toFirst);
      var second := Protocol.Run(first, toSecond);
      var third := Protocol.Run(second, toThird);
      && JournalSum(first.db.postings) == 0
      && Negative(third.db) == {}
      && forall a :: (exists i :: 0 <= i < |rows| && rows[i].id == a)
                     <==> a in second.db.accounts && Opening(s.db, a) != 0
  {
    var first := Protocol.Run(s, toFirst);
    var second := Protocol.Run(first, toSecond);
    RunKeepsInv(s, toFirst);
    RunKeepsInv(first, toSecond);
    RunKeepsInv(second, toThird);
    JournalBalances(first.db.transfers, first.db.postings);
    NothingNegative(Protocol.Run(second, toThird).db);
    forall a ensures Drifts(second.db, a) <==> a in second.db.accounts && Opening(s.db, a) != 0 {
      DriftIffOpening(first, toSecond, a);
      OpeningStays(s, toFirst, a);
    }
  }

  lemma OpeningStays(s: State, ls: seq<Label>, a: AccountId)
    requires Inv(s)
    ensures Opening(Protocol.Run(s, ls).db, a) == Opening(s.db, a)
  {
    RunRefines(s, ls);
    FoldOpening(s.db, History(s, ls), a);
  }

  // ----------------------------------------------------- on any table contents

  ghost function PostingSums(accounts: set<AccountId>, ps: seq<Posting>): map<int, int> {
    map a | a in accounts :: PostingSum(ps, a)
  }

  /** Summing per account and then over accounts gives the sum of the journal. */
  lemma {:induction false} SumExchange(accounts: set<AccountId>, ps: seq<Posting>)
    requires forall p | p in ps :: p.account in accounts
    ensures SumMap(PostingSums(accounts, ps)) == JournalSum(ps)
  {
    if ps == [] {
      SumZero(PostingSums(accounts, ps));
    } else {
      var last := ps[|ps| - 1];
      var before := PostingSums(accounts, ps[..|ps| - 1]);
      SumExchange(accounts, ps[..|ps| - 1]);
      assert last in ps;
      assert PostingSums(accounts, ps) == before[last.account := before[last.account] + last.amount];
      SumUpdate(before, last.account, before[last.account] + last.amount);
    }
  }

  ghost predicate AllChecksPass(db: Db) {
    JournalSum(db.postings) == 0 && (forall a :: !Drifts(db, a)) && Negative(db) == {}
  }

  /**
   On any table contents whose postings name existing accounts, all three checks pass exactly
   when every balance and every account's posting sum is zero.
   */
  lemma ChecksPassIffEmpty(db: Db)
    requires forall p | p in db.postings :: p.account in db.accounts
    ensures AllChecksPass(db) <==>
      forall a | a in db.accounts :: db.accounts[a].balance == 0 && PostingSum(db.postings, a) == 0
  {
    SumExchange(db.accounts.Keys, db.postings);
    var sums := PostingSums(db.accounts.Keys, db.postings);
    if AllChecksPass(db) {
      forall a | a in db.accounts ensures sums[a] >= 0 && sums[a] == db.accounts[a].balance {
        assert !Drifts(db, a);
        assert a !in Negative(db);
      }
      SumZeroAll(sums);
    }
    if forall a | a in db.accounts :: db.accounts[a].balance == 0 && PostingSum(db.postings, a) == 0 {
      SumZero(sums);
      assert forall a | a in db.accounts :: a !in Negative(db);
    }
  }
}
