/** Why the version check of Fix C is enough although credits do not bump the version. */
module OptimisticLaws {
  import opened Types
  import opened AtomicLedger
  import opened Statements
  import opened Protocol
  import opened ProtocolInvariant
  import opened ProtocolSteps
  import opened Refinement
  import opened LedgerLaws

  /** A version seen by a reader: while it stands, the balance still covers the amount. */
  ghost predicate SeenOk(db: Db, worker: Worker) {
    worker.pc.OptDebit? ==>
      && worker.req.from in db.accounts
      && worker.pc.version <= db.accounts[worker.req.from].version
      && (worker.pc.version == db.accounts[worker.req.from].version ==>
        db.accounts[worker.req.from].balance >= worker.req.amount)
  }

  ghost predicate AllSeenOk(s: State) {
    forall w | w in s.workers :: SeenOk(s.db, s.workers[w])
  }

  /** Rely: a balance falls only when its version rises. */
  ghost predicate VersionsGuard(db: Db, next: Db) {
    forall a | a in db.accounts ::
      && a in next.accounts
      && db.accounts[a].version <= next.accounts[a].version
      && (db.accounts[a].version == next.accounts[a].version ==>
        db.accounts[a].balance <= next.accounts[a].balance)
  }

  /** Guarantee: every optimistic commit, account opening and webhook change respects that. */
  lemma ApplyGuards(db: Db, op: Op)
    requires CanApply(db, op) && (op.TransferOp? ==> op.strategy.Optimistic?)
    ensures VersionsGuard(db, Apply(db, op))
  {
  }

  lemma CommittedGuards(s: State, l: Label)
    requires Inv(s)
    requires forall op | op in Committed(s, l) :: op.TransferOp? ==> op.strategy.Optimistic?
    ensures VersionsGuard(s.db, Step(s, l).db)
  {
    StepRefines(s, l);
    if Committed(s, l) != [] {
      var op := Committed(s, l)[0];
      assert op in Committed(s, l) && Committed(s, l) == [op];
      FoldOne(s.db, op);
      ApplyGuards(s.db, op);
    }
  }

  lemma OwnSeenOk(s: State, w: WorkerId, e: Effect)
    requires w in s.workers && SeenOk(s.db, s.workers[w])
    requires e.Next? && e.pc.OptDebit? ==> SeenOk(s.db, s.workers[w].(pc := e.pc))
    requires e.Halt? ==> Over(e.pc)
    requires VersionsGuard(s.db, Perform(s, w, e).db)
    ensures SeenOk(Perform(s, w, e).db, Perform(s, w, e).workers[w])
    ensures forall u | u != w :: u in Perform(s, w, e).workers <==> u in s.workers
    ensures forall u | u in s.workers && u != w :: Perform(s, w, e).workers[u] == s.workers[u]
  {
  }

  lemma ReadSeenOk(s: State, w: WorkerId)
    requires w in s.workers && s.workers[w].pc.OptRead? && s.workers[w].tx.rows == map[]
    ensures var e := DebitEffect(s, w); e.Next? ==> SeenOk(s.db, s.workers[w].(pc := e.pc))
  {
    assert View(s.db, s.workers[w].tx).accounts == s.db.accounts;
  }

  lemma OnlyReadEntersDebit(s: State, w: WorkerId, appClock: int)
    requires w in s.workers && !s.workers[w].pc.OptRead?
    ensures var e := Stmt(s, w, appClock); e.Next? ==> !e.pc.OptDebit?
  {
  }

  lemma MoveSeenOk(s: State, l: Label)
    requires Inv(s) && IsMove(s, l)
    ensures var e := Move(s, l); e.Next? && e.pc.OptDebit? ==> SeenOk(s.db, s.workers[l.w].(pc := e.pc))
  {
    if l.Statement? {
      if s.workers[l.w].pc.OptRead? {
        assert WorkerOk(s.db, s.locks, l.w, s.workers[l.w]);
        ReadSeenOk(s, l.w);
      } else {
        OnlyReadEntersDebit(s, l.w, l.appClock);
      }
    }
  }

  lemma StepSeenOk(s: State, l: Label)
    requires Inv(s) && AllSeenOk(s)
    requires forall op | op in Committed(s, l) :: op.TransferOp? ==> op.strategy.Optimistic?
    ensures AllSeenOk(Step(s, l))
  {
    CommittedGuards(s, l);
    if IsMove(s, l) {
      MoveOk(s, l);
      MoveSeenOk(s, l);
      OwnSeenOk(s, l.w, Move(s, l));
      OthersSeenOk(s, Step(s, l), l.w);
    }
  }

  lemma OthersSeenOk(s: State, next: State, w: WorkerId)
    requires AllSeenOk(s) && VersionsGuard(s.db, next.db)
    requires forall u | u in next.workers && u != w :: u in s.workers && next.workers[u] == s.workers[u]
    requires w in next.workers && SeenOk(next.db, next.workers[w])
    ensures AllSeenOk(next)
  {
  }

  lemma {:induction false} RunSeenOk(s: State, ls: seq<Label>)
    requires Inv(s) && AllSeenOk(s) && Uses(s, ls, {Optimistic})
    ensures AllSeenOk(Run(s, ls))
    decreases |ls|
  {
    if ls != [] {
      StepUses(s, ls, {Optimistic});
      StepSeenOk(s, ls[0]);
      StepKeepsInv(s, ls[0]);
      RunSeenOk(Step(s, ls[0]), ls[1..]);
    }
  }

  /**
   In an all-optimistic run, whenever the versioned UPDATE matches, the balance it debits
   covers the amount, so CHECK (balance >= 0) never refuses the debit.
   */
  lemma VersionedDebitIsCovered(s: State, ls: seq<Label>, w: WorkerId)
    requires Inv(s) && AllSeenOk(s) && Uses(s, ls, {Optimistic})
    requires w in Run(s, ls).workers && Run(s, ls).workers[w].pc.OptDebit?
    ensures var end := Run(s, ls);
      var worker := end.workers[w];
      var v := View(end.db, worker.tx);
      && (HasVersion(v, worker.req.from, worker.pc.version) ==> Covers(v, worker.req.from, worker.req.amount))
      && DebitIfVersion(v, worker.tx, worker.req.from, worker.req.amount, worker.pc.version) != Raise(CheckViolation)
  {
    var end := Run(s, ls);
    RunSeenOk(s, ls);
    RunKeepsInv(s, ls);
    assert SeenOk(end.db, end.workers[w]);
    assert WorkerOk(end.db, end.locks, w, end.workers[w]);
    assert View(end.db, end.workers[w].tx).accounts == end.db.accounts;
  }

  // ---------------------------------------------------------- version numbers

  function VersionOf(db: Db, a: AccountId): int {
    if a in db.accounts then db.accounts[a].version else 0
  }

  /** The committed optimistic debits of an account. */
  function OptimisticDebits(log: seq<Op>, a: AccountId): nat {
    if log == [] then 0
    else (if log[0].TransferOp? && log[0].strategy.Optimistic? && log[0].req.from == a then 1 else 0)
         + OptimisticDebits(log[1..], a)
  }

  lemma {:induction false} FoldVersion(db: Db, log: seq<Op>, a: AccountId)
    requires Legal(db, log)
    ensures VersionOf(Fold(db, log), a) == VersionOf(db, a) + OptimisticDebits(log, a)
    decreases |log|
  {
    if log != [] {
      FoldVersion(Apply(db, log[0]), log[1..], a);
    }
  }

  /** A version counts the committed optimistic debits of its account, in every run. */
  lemma RunVersion(s: State, ls: seq<Label>, a: AccountId)
    requires Inv(s)
    ensures VersionOf(Run(s, ls).db, a) == VersionOf(s.db, a) + OptimisticDebits(History(s, ls), a)
  {
    RunRefines(s, ls);
    FoldVersion(s.db, History(s, ls), a);
  }

  // --------------------------------------------------- other strategies at work

  /** What a log adds to a balance: credits less debits, by any strategy. */
  function Net(log: seq<Op>, a: AccountId): int {
    if log == [] then 0
    else (if !log[0].TransferOp? then 0
          else (if log[0].req.to == a then log[0].req.amount else 0)
               - (if log[0].req.from == a then log[0].req.amount else 0))
         + Net(log[1..], a)
  }

  lemma {:induction false} FoldBalance(db: Db, log: seq<Op>, a: AccountId)
    requires Legal(db, log) && a in db.accounts
    ensures a in Fold(db, log).accounts && Fold(db, log).accounts[a].balance == db.accounts[a].balance + Net(log, a)
    decreases |log|
  {
    if log != [] {
      FoldBalance(Apply(db, log[0]), log[1..], a);
    }
  }

  /** The committed debits of Fix A and Fix B have taken what was read, and none of Fix C shows it. */
  predicate Undercut(db: Db, log: seq<Op>, a: AccountId, amount: int)
    requires a in db.accounts
  {
    OptimisticDebits(log, a) == 0 && db.accounts[a].balance + Net(log, a) < amount
  }

  /**
   What the versioned UPDATE of Fix C does after any operations by any strategies have committed
   since its read: it matches nothing exactly when one of them is an optimistic debit of the
   account, and CHECK (balance >= 0) refuses it exactly when none is and what is left does not
   cover the amount.
   */
  lemma CheckFiresIff(db: Db, log: seq<Op>, tx: Tx, a: AccountId, amount: int)
    requires DbInv(db) && Legal(db, log) && Covers(db, a, amount) && tx.rows == map[]
    ensures var e := DebitIfVersion(View(Fold(db, log), tx), tx, a, amount, db.accounts[a].version);
      && (e == Rows(tx, 0) <==> OptimisticDebits(log, a) > 0)
      && (e == Raise(CheckViolation) <==> Undercut(db, log, a, amount))
  {
    FoldVersion(db, log, a);
    FoldBalance(db, log, a);
    FoldKeepsDbInv(db, log);
    assert View(Fold(db, log), tx).accounts == Fold(db, log).accounts;
  }
}
