/** How often a call tries: what leads to another attempt, and that the fifth is the last. */
module Retries {
  import opened Types
  import opened AtomicLedger
  import opened Statements
  import opened Protocol
  import opened ProtocolInvariant
  import opened ProtocolSteps

  /** A deadlock or a serialisation failure at a statement after which the strategy tries again. */
  predicate HitByError(worker: Worker, error: SqlError) {
    && (error == DeadlockDetected || error == SerializationFailure)
    && !worker.pc.Guard? && !worker.pc.Finished? && !worker.pc.Crashed?
    && match worker.strategy
       case Conditional => true
       case ForUpdate => worker.pc != Begin && worker.pc != CompleteClaim
       case Optimistic => worker.pc.OptDebit? || worker.pc.Credit? || worker.pc.Commit?
  }

  /** The versioned UPDATE finds another version than was read. */
  predicate HitByConflict(db: Db, worker: Worker) {
    && worker.pc.OptDebit?
    && !(worker.req.from in db.accounts && db.accounts[worker.req.from].version == worker.pc.version)
  }

  predicate Hit(s: State, l: Label, w: WorkerId) {
    && w in s.workers
    && ((l.Fault? && l.w == w && HitByError(s.workers[w], l.error))
        || (l.Statement? && l.w == w && HitByConflict(s.db, s.workers[w])))
  }

  function Hits(s: State, ls: seq<Label>, w: WorkerId): nat
    decreases |ls|
  {
    if ls == [] then 0 else (if Hit(s, ls[0], w) then 1 else 0) + Hits(Step(s, ls[0]), ls[1..], w)
  }

  // ------------------------------------------------------------- one statement

  /** A statement that is not hit neither begins again nor gives up nor ends with such an error. */
  predicate Carries(e: Effect) {
    match e
    case Again => false
    case Halt(pc) => pc.Finished? ==> NotExhausted(pc.outcome)
    case Install(outcome) => NotExhausted(outcome)
    case Next(pc, _, _) => !Over(pc)
    case _ => true
  }

  predicate NotExhausted(outcome: Outcome) {
    && outcome != Failed(TooManyRetries)
    && outcome != Failed(Sql(DeadlockDetected)) && outcome != Failed(Sql(SerializationFailure))
  }

  lemma DebitCarries(s: State, w: WorkerId)
    requires w in s.workers && IsDebit(s.workers[w].pc)
    requires s.workers[w].pc.OptDebit? ==> s.workers[w].tx.rows == map[]
    ensures if HitByConflict(s.db, s.workers[w]) then DebitEffect(s, w) == Again else Carries(DebitEffect(s, w))
  {
    if s.workers[w].pc.OptDebit? {
      assert View(s.db, s.workers[w].tx).accounts == s.db.accounts;
    }
  }

  lemma ClaimCarries(s: State, w: WorkerId, appClock: int)
    requires w in s.workers && InClaim(s.workers[w].pc)
    ensures Carries(ClaimEffect(s, w, appClock))
  {
  }

  lemma WriteCarries(s: State, w: WorkerId, appClock: int)
    requires w in s.workers && PastDebit(s.workers[w].pc)
    ensures Carries(Stmt(s, w, appClock))
  {
  }

  lemma OtherCarries(s: State, w: WorkerId, appClock: int)
    requires w in s.workers
    requires var pc := s.workers[w].pc; !InClaim(pc) && !IsDebit(pc) && !PastDebit(pc)
    ensures Carries(Stmt(s, w, appClock))
  {
  }

  lemma StmtCarries(s: State, w: WorkerId, appClock: int)
    requires w in s.workers
    requires s.workers[w].pc.OptDebit? ==> s.workers[w].tx.rows == map[]
    ensures if HitByConflict(s.db, s.workers[w]) then Stmt(s, w, appClock) == Again else Carries(Stmt(s, w, appClock))
  {
    var pc := s.workers[w].pc;
    if IsDebit(pc) {
      DebitCarries(s, w);
    } else if InClaim(pc) {
      ClaimCarries(s, w, appClock);
    } else if PastDebit(pc) {
      WriteCarries(s, w, appClock);
    } else {
      OtherCarries(s, w, appClock);
    }
  }

  /** A label that moves the call either hits it, and then it begins again, or carries it on or to its end. */
  lemma MoveCarries(s: State, l: Label)
    requires IsMove(s, l) && (s.workers[l.w].pc.OptDebit? ==> s.workers[l.w].tx.rows == map[])
    ensures if Hit(s, l, l.w) then Move(s, l) == Again
            else Carries(Move(s, l)) || (l.Fault? && Move(s, l) == Halt(Finished(Failed(Sql(l.error)))))
    ensures s.workers[l.w].strategy == Conditional && !Hit(s, l, l.w) ==> Carries(Move(s, l))
  {
    if l.Statement? {
      StmtCarries(s, l.w, l.appClock);
    }
  }

  // ------------------------------------------------------------- a whole call

  /** The attempts of a call are its hits; it gives up at the fifth and only then. */
  ghost predicate Counted(worker: Worker, hits: nat) {
    && worker.attempt < 5 && hits <= 5
    && (!Over(worker.pc) ==> worker.attempt == hits)
    && (worker.pc.Finished? ==> (worker.pc.outcome == Failed(TooManyRetries) <==> hits == 5))
    && (worker.pc.Crashed? ==> hits < 5)
    && (worker.strategy == Conditional && worker.pc.Finished? ==>
      && worker.pc.outcome != Failed(Sql(DeadlockDetected))
      && worker.pc.outcome != Failed(Sql(SerializationFailure)))
  }

  lemma PerformCounts(s: State, w: WorkerId, e: Effect, hits: nat)
    requires w in s.workers && !Over(s.workers[w].pc) && Counted(s.workers[w], hits)
    requires e == Again || Carries(e) || (e.Halt? && e.pc.Finished? && e.pc.outcome.Failed? && e.pc.outcome.reason.Sql?)
    requires s.workers[w].strategy == Conditional ==> e == Again || Carries(e)
    ensures Counted(Perform(s, w, e).workers[w], if e == Again then hits + 1 else hits)
  {
  }

  /** Nothing is written yet when the versioned UPDATE comes. */
  ghost predicate Unwritten(s: State, w: WorkerId) {
    w in s.workers && s.workers[w].pc.OptDebit? ==> s.workers[w].tx.rows == map[]
  }

  lemma InvUnwritten(s: State, w: WorkerId)
    requires Inv(s)
    ensures Unwritten(s, w)
  {
    if w in s.workers {
      assert WorkerOk(s.db, s.locks, w, s.workers[w]);
    }
  }

  lemma OverStays(s: State, l: Label)
    requires IsMove(s, l) && Over(s.workers[l.w].pc)
    ensures Step(s, l).workers[l.w] == s.workers[l.w] && !Hit(s, l, l.w)
  {
  }

  lemma OwnStepCounts(s: State, l: Label, hits: nat)
    requires IsMove(s, l) && Counted(s.workers[l.w], hits) && Unwritten(s, l.w)
    ensures Counted(Step(s, l).workers[l.w], if Hit(s, l, l.w) then hits + 1 else hits)
  {
    if Over(s.workers[l.w].pc) {
      OverStays(s, l);
    } else {
      MoveCarries(s, l);
      PerformCounts(s, l.w, Move(s, l), hits);
    }
  }

  ghost predicate CountedIn(s: State, w: WorkerId, hits: nat) {
    if w in s.workers then Counted(s.workers[w], hits) else hits == 0
  }

  lemma OtherStepCounts(s: State, l: Label, w: WorkerId, hits: nat)
    requires IsMove(s, l) ==> l.w != w
    requires CountedIn(s, w, hits)
    ensures !Hit(s, l, w) && CountedIn(Step(s, l), w, hits)
  {
  }

  lemma StepCounts(s: State, l: Label, w: WorkerId, hits: nat) returns (more: nat)
    requires Unwritten(s, w) && CountedIn(s, w, hits)
    ensures more == hits + (if Hit(s, l, w) then 1 else 0) && CountedIn(Step(s, l), w, more)
  {
    if IsMove(s, l) && l.w == w {
      OwnStepCounts(s, l, hits);
      more := if Hit(s, l, w) then hits + 1 else hits;
    } else {
      OtherStepCounts(s, l, w, hits);
      more := hits;
    }
  }

  lemma {:induction false} RunCounts(s: State, ls: seq<Label>, w: WorkerId, hits: nat)
    requires Inv(s) && CountedIn(s, w, hits)
    ensures CountedIn(Run(s, ls), w, hits + Hits(s, ls, w))
    decreases |ls|
  {
    if ls != [] {
      InvUnwritten(s, w);
      var more := StepCounts(s, ls[0], w, hits);
      StepKeepsInv(s, ls[0]);
      RunCounts(Step(s, ls[0]), ls[1..], w, more);
    }
  }

  /**
   In every run a call is in the attempt that its hits so far make it: deadlocks and serialisation
   failures at the statements where its strategy tries again, and conflicts of Fix C. It never
   tries a sixth time, and it gives up if and only if it was hit five times. Fix A never answers
   with a deadlock or a serialisation failure.
   */
  lemma AttemptsAreHits(s: State, ls: seq<Label>, w: WorkerId)
    requires Init(s) && w in Run(s, ls).workers
    ensures var worker, hits := Run(s, ls).workers[w], Hits(s, ls, w);
      && hits <= 5
      && (!worker.pc.Finished? && !worker.pc.Crashed? ==> worker.attempt == hits < 5)
      && (worker.pc == Finished(Failed(TooManyRetries)) <==> worker.pc.Finished? && hits == 5)
      && (worker.strategy == Conditional ==>
        && worker.pc != Finished(Failed(Sql(DeadlockDetected)))
        && worker.pc != Finished(Failed(Sql(SerializationFailure))))
  {
    InitInv(s);
    RunCounts(s, ls, w, 0);
  }

  /** One such error, early enough: the transaction is rolled back and the call begins again; any other ends it. */
  lemma FaultLeadsToBegin(s: State, w: WorkerId, error: SqlError)
    requires w in s.workers
    requires !s.workers[w].pc.Guard? && !s.workers[w].pc.Finished? && !s.workers[w].pc.Crashed?
    ensures var worker, next := s.workers[w], Step(s, Fault(w, error));
      && next.db == s.db && next.workers[w].tx == NO_TX && (forall r | r in next.locks :: next.locks[r] != w)
      && (HitByError(worker, error) && worker.attempt < 4 ==>
        next.workers[w].pc == Begin && next.workers[w].attempt == worker.attempt + 1)
      && (HitByError(worker, error) && worker.attempt >= 4 ==>
        next.workers[w].pc == Finished(Failed(TooManyRetries)))
      && (!HitByError(worker, error) ==>
        next.workers[w].pc == Finished(Failed(
          if worker.pc == AddTransfer && error == ForeignKeyViolation then AccountNotFound else Sql(error))))
  {
  }
}
