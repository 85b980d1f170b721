/** Idempotency keys: one key, one transfer, over every run with duplicates, retries and crashes. */
module ExactlyOnce {
  import opened Types
  import opened AtomicLedger
  import opened Statements
  import opened Protocol
  import opened ProtocolInvariant
  import opened ProtocolSteps
  import opened Refinement

  // --------------------------------------------------- one key, one transfer

  /** Exactly one pair of postings belongs to the i-th transfer. */
  ghost predicate OnlyPair(db: Db, i: nat)
    requires i < |db.transfers| && |db.postings| == 2 * |db.transfers|
  {
    forall j | 0 <= j < |db.postings| ::
      db.postings[j].transferId == db.transfers[i].id <==> j == 2 * i || j == 2 * i + 1
  }

  ghost predicate OnlyEvent(db: Db, i: nat)
    requires i < |db.transfers| == |db.outbox|
  {
    forall j | 0 <= j < |db.outbox| :: db.outbox[j].payload == db.transfers[i] <==> j == i
  }

  lemma PairIsUnique(db: Db, i: nat)
    requires DbInv(db) && i < |db.transfers|
    ensures OnlyPair(db, i) && OnlyEvent(db, i)
  {
    forall j | 0 <= j < |db.postings|
      ensures db.postings[j].transferId == db.transfers[i].id <==> j == 2 * i || j == 2 * i + 1
    {
      var h := j / 2;
      assert PairOk(db.transfers[h], db.postings[2 * h], db.postings[2 * h + 1]);
    }
  }

  /** The key is answered by one transfer with one posting pair, one event and one stored response. */
  ghost predicate KeyServed(db: Db, key: string, i: nat) {
    && i < |db.transfers| == |db.outbox| && |db.postings| == 2 * |db.transfers|
    && (forall j | 0 <= j < |db.transfers| :: db.transfers[j].key == ClientKey(key) <==> j == i)
    && OnlyPair(db, i) && OnlyEvent(db, i)
    && key in db.keys && db.keys[key].status == Done
    && db.keys[key].code == Some(CREATED) && db.keys[key].body == Some(db.transfers[i])
  }

  ghost predicate Answered(worker: Worker) {
    worker.pc.Finished? && !worker.pc.outcome.Failed?
  }

  /** The transfer an answer of success or replay speaks of. */
  ghost predicate AnswerIs(outcome: Outcome, t: Transfer) {
    outcome == Success(t) || outcome == Replay(CREATED, Some(t))
  }

  lemma TransferServes(db: Db, key: string, t: Transfer) returns (i: nat)
    requires DbInv(db) && t in db.transfers && t.key == ClientKey(key)
    ensures KeyServed(db, key, i) && db.transfers[i] == t
  {
    i :| 0 <= i < |db.transfers| && db.transfers[i] == t;
    PairIsUnique(db, i);
  }

  /**
   All calls with one key that are answered, in any reachable state, are answered with the
   same transfer, and that transfer is the only one with the key.
   */
  lemma OneTransferPerKey(s: State, ls: seq<Label>, u: WorkerId, w: WorkerId)
    requires Inv(s)
    requires var end := Run(s, ls);
      && u in end.workers && w in end.workers
      && Answered(end.workers[u]) && Answered(end.workers[w])
      && end.workers[u].req.key == end.workers[w].req.key != ""
    ensures var end := Run(s, ls);
      exists i: nat :: KeyServed(end.db, end.workers[u].req.key, i)
        && AnswerIs(end.workers[u].pc.outcome, end.db.transfers[i])
        && AnswerIs(end.workers[w].pc.outcome, end.db.transfers[i])
  {
    var end := Run(s, ls);
    RunKeepsInv(s, ls);
    var i := AnswerServes(end, u);
    var j := AnswerServes(end, w);
    assert end.db.transfers[j].key == ClientKey(end.workers[u].req.key);
  }

  lemma AnswerServes(s: State, w: WorkerId) returns (i: nat)
    requires Inv(s) && w in s.workers && Answered(s.workers[w]) && s.workers[w].req.key != ""
    ensures KeyServed(s.db, s.workers[w].req.key, i)
    ensures AnswerIs(s.workers[w].pc.outcome, s.db.transfers[i])
  {
    var worker := s.workers[w];
    assert WorkerOk(s.db, s.locks, w, worker);
    var t := if worker.pc.outcome.Success? then worker.pc.outcome.transfer else worker.pc.outcome.body.value;
    i := TransferServes(s.db, worker.req.key, t);
  }

  /** The UNIQUE key and the primary key of transfers never refuse an insert, nor make it wait. */
  lemma UniqueNeverFires(s: State, w: WorkerId)
    requires Inv(s) && w in s.workers && s.workers[w].pc.AddTransfer?
    ensures !UniqueRace(s, w)
    ensures InsertTransfer(View(s.db, s.workers[w].tx), s.workers[w].tx, s.workers[w].req) != Raise(UniqueViolation)
  {
    forall u, t | u in s.workers && u != w && t in s.workers[u].tx.transfers
      ensures t.id != s.workers[w].tx.stamp && t.key != KeyOf(s.workers[w].req, s.workers[w].tx.stamp)
    {
      OpenInsertsDiffer(s, w, u, t);
    }
    CommittedInsertsDiffer(s, w);
    NewRowInserts(s.db, s.workers[w].tx, s.workers[w].req);
  }

  lemma NewRowInserts(db: Db, tx: Tx, req: Request)
    requires tx.transfers == []
    requires forall t | t in db.transfers :: t.id != tx.stamp && t.key != KeyOf(req, tx.stamp)
    ensures InsertTransfer(View(db, tx), tx, req) != Raise(UniqueViolation)
  {
    assert View(db, tx).transfers == db.transfers;
  }

  lemma CommittedInsertsDiffer(s: State, w: WorkerId)
    requires WorkersOk(s) && StampsOk(s) && KeysOk(s.db)
    requires w in s.workers && s.workers[w].pc.AddTransfer?
    ensures s.workers[w].tx.transfers == []
    ensures forall t | t in s.db.transfers ::
      t.id != s.workers[w].tx.stamp && t.key != KeyOf(s.workers[w].req, s.workers[w].tx.stamp)
  {
    assert WorkerOk(s.db, s.locks, w, s.workers[w]);
    assert FreshStamp(s.db, s.workers[w].tx.stamp);
  }

  lemma OpenInsertsDiffer(s: State, w: WorkerId, u: WorkerId, t: Transfer)
    requires WorkersOk(s) && StampsOk(s)
    requires w in s.workers && s.workers[w].pc.AddTransfer?
    requires u in s.workers && u != w && t in s.workers[u].tx.transfers
    ensures t.id != s.workers[w].tx.stamp && t.key != KeyOf(s.workers[w].req, s.workers[w].tx.stamp)
  {
    assert WorkerOk(s.db, s.locks, w, s.workers[w]);
    assert WorkerOk(s.db, s.locks, u, s.workers[u]);
  }

  // ----------------------------------------------------- logs and their keys

  ghost predicate CommitsKey(op: Op, key: string) {
    op.TransferOp? && op.req.key == key
  }

  lemma {:induction false} SettledKeyStays(db: Db, log: seq<Op>, key: string)
    requires Legal(db, log)
    requires key != "" && key in db.keys && db.keys[key].status == Done
    ensures forall op | op in log :: !CommitsKey(op, key)
    ensures key in Fold(db, log).keys && Fold(db, log).keys[key] == db.keys[key]
    decreases |log|
  {
    if log != [] {
      SettledKeyStays(Apply(db, log[0]), log[1..], key);
    }
  }

  /**
   What a log does to one key: at most one operation commits it, and a row that no operation
   commits is exactly as it was. Two thieves of one stale claim never both commit.
   */
  lemma {:induction false} AtMostOneCommitPerKey(db: Db, log: seq<Op>, key: string)
    requires Legal(db, log) && key != ""
    ensures forall i, j | 0 <= i < j < |log| :: !(CommitsKey(log[i], key) && CommitsKey(log[j], key))
    ensures (forall op | op in log :: !CommitsKey(op, key)) ==>
      (key in Fold(db, log).keys <==> key in db.keys) &&
      (key in db.keys ==> Fold(db, log).keys[key] == db.keys[key])
    ensures (exists op | op in log :: CommitsKey(op, key)) ==>
      key in Fold(db, log).keys && Fold(db, log).keys[key].status == Done
    decreases |log|
  {
    if log != [] {
      var next := Apply(db, log[0]);
      AtMostOneCommitPerKey(next, log[1..], key);
      if CommitsKey(log[0], key) {
        SettledKeyStays(next, log[1..], key);
      }
      assert forall op | op in log :: op == log[0] || op in log[1..];
    }
  }

  /**
   Starting from any table with leftover in_progress rows: over a whole run at most one
   transaction commits per key, a key nobody commits has exactly the row it had (or none, so
   it can be claimed with any hash), and a committed key is done.
   */
  lemma RunKeys(s: State, ls: seq<Label>, key: string)
    requires Inv(s) && key != ""
    ensures var log := History(s, ls);
      var end := Run(s, ls).db;
      && (forall i, j | 0 <= i < j < |log| :: !(CommitsKey(log[i], key) && CommitsKey(log[j], key)))
      && (if exists op | op in log :: CommitsKey(op, key)
          then key in end.keys && end.keys[key].status == Done
          else (key in end.keys <==> key in s.db.keys) && (key in s.db.keys ==> end.keys[key] == s.db.keys[key]))
  {
    RunRefines(s, ls);
    AtMostOneCommitPerKey(s.db, History(s, ls), key);
  }

  // --------------------------------------- nothing left over: no steal, no 409

  ghost predicate NothingInProgress(db: Db) {
    forall k | k in db.keys :: db.keys[k].status == Done
  }

  ghost predicate NeverBlockedByClaim(worker: Worker) {
    && !worker.pc.ClaimSteal?
    && worker.pc != Finished(Failed(KeyInProgress)) && worker.pc != Finished(Failed(CorruptKeyRow))
  }

  ghost predicate Clean(s: State) {
    NothingInProgress(s.db) && forall w | w in s.workers :: NeverBlockedByClaim(s.workers[w])
  }

  ghost predicate CleanEffect(e: Effect) {
    && (e.Next? ==> !Over(e.pc) && !e.pc.ClaimSteal?)
    && (e.Halt? ==> Over(e.pc) && e.pc != Finished(Failed(KeyInProgress)) && e.pc != Finished(Failed(CorruptKeyRow)))
    && (e.Install? ==> e.outcome.Success? || e.outcome == Failed(Sql(ConnectionLost)))
  }

  lemma CleanClaim(s: State, w: WorkerId, appClock: int)
    requires w in s.workers && InClaim(s.workers[w].pc) && !s.workers[w].pc.ClaimSteal?
    requires KeysOk(s.db) && NothingInProgress(s.db) && KeyOk(s.db, s.locks, w, s.workers[w])
    ensures CleanEffect(ClaimEffect(s, w, appClock))
  {
    assert View(s.db, s.workers[w].tx).keys == s.db.keys;
  }

  lemma CleanDebit(s: State, w: WorkerId)
    requires w in s.workers && IsDebit(s.workers[w].pc)
    ensures CleanEffect(DebitEffect(s, w))
  {
  }

  lemma CleanInsert(s: State, w: WorkerId, appClock: int)
    requires w in s.workers && PastDebit(s.workers[w].pc)
    ensures CleanEffect(Stmt(s, w, appClock))
  {
  }

  lemma CleanStmt(s: State, w: WorkerId, appClock: int)
    requires w in s.workers && !InClaim(s.workers[w].pc)
    ensures CleanEffect(Stmt(s, w, appClock))
  {
    if IsDebit(s.workers[w].pc) {
      CleanDebit(s, w);
    } else if PastDebit(s.workers[w].pc) {
      CleanInsert(s, w, appClock);
    }
  }

  lemma CleanPerform(s: State, w: WorkerId, e: Effect)
    requires w in s.workers && NeverBlockedByClaim(s.workers[w]) && CleanEffect(e)
    ensures NeverBlockedByClaim(Perform(s, w, e).workers[w])
    ensures forall u | u != w :: u in Perform(s, w, e).workers <==> u in s.workers
    ensures forall u | u in s.workers && u != w :: Perform(s, w, e).workers[u] == s.workers[u]
  {
  }

  lemma CleanMove(s: State, l: Label)
    requires Inv(s) && Clean(s) && IsMove(s, l)
    ensures CleanEffect(Move(s, l))
  {
    if l.Statement? {
      assert WorkerOk(s.db, s.locks, l.w, s.workers[l.w]);
      if InClaim(s.workers[l.w].pc) {
        CleanClaim(s, l.w, l.appClock);
      } else {
        CleanStmt(s, l.w, l.appClock);
      }
    }
  }

  lemma CleanStep(s: State, l: Label)
    requires Inv(s) && Clean(s)
    ensures Clean(Step(s, l))
  {
    StepRefines(s, l);
    CleanDb(s.db, Committed(s, l));
    if IsMove(s, l) {
      CleanMove(s, l);
      CleanPerform(s, l.w, Move(s, l));
    }
  }

  lemma CleanDb(db: Db, log: seq<Op>)
    requires |log| <= 1 && Legal(db, log) && NothingInProgress(db)
    ensures NothingInProgress(Fold(db, log))
  {
    if log != [] {
      assert log == [log[0]];
      FoldOne(db, log[0]);
    }
  }

  /**
   From a table without in_progress rows none is ever committed, so no call reaches the steal
   or is turned away because its key is in progress, whatever the interleaving. Every
   committed key row holds the response of the transfer with that key.
   */
  lemma {:induction false} StealUnreachable(s: State, ls: seq<Label>)
    requires Inv(s) && Clean(s)
    ensures Clean(Run(s, ls)) && KeysOk(Run(s, ls).db)
    decreases |ls|
  {
    if ls != [] {
      CleanStep(s, ls[0]);
      StepKeepsInv(s, ls[0]);
      StealUnreachable(Step(s, ls[0]), ls[1..]);
    }
  }

  /** A claim of an unbound key that nobody holds succeeds, whatever the request hash. */
  lemma UnboundKeyIsClaimed(s: State, w: WorkerId, appClock: int)
    requires w in s.workers && s.workers[w].pc.ClaimInsert?
    requires s.workers[w].req.key != "" && s.workers[w].tx.keys == map[]
    requires s.workers[w].req.key !in s.db.keys && LockedKey(s.workers[w].req.key) !in s.locks
    ensures var next := Step(s, Statement(w, appClock));
      && w in next.workers && Claimed(next.workers[w])
      && Held(next.locks, LockedKey(s.workers[w].req.key), w)
  {
    assert View(s.db, s.workers[w].tx).keys == s.db.keys;
  }

  /** A call that was not told of a success, and whose connection was not lost at commit. */
  predicate Failing(worker: Worker) {
    worker.pc.Finished? ==> !worker.pc.outcome.Success? && worker.pc.outcome != Failed(Sql(ConnectionLost))
  }

  lemma {:induction false} CommitterListed(log: seq<Op>, op: Op)
    requires op in log && op.TransferOp?
    ensures op in CommitsBy(log, op.caller)
    decreases |log|
  {
    if op != log[0] {
      CommitterListed(log[1..], op);
    }
  }

  /** If every call with a key has failed or is still at work, nothing was committed for the key. */
  lemma FailuresCommitNothing(s: State, ls: seq<Label>, key: string)
    requires Init(s) && key != ""
    requires var workers := Run(s, ls).workers;
      forall u | u in workers && workers[u].req.key == key :: Failing(workers[u])
    ensures forall op | op in History(s, ls) :: !CommitsKey(op, key)
  {
    InitInv(s);
    forall op | op in History(s, ls) ensures !CommitsKey(op, key) {
      if op.TransferOp? {
        CommitterListed(History(s, ls), op);
        OneCommitPerCall(s, ls, op.caller);
        assert CommitsBy(History(s, ls), op.caller) == [op];
      }
    }
  }

  /**
   Failed calls leave their key unbound: a new call wins the claim whatever its hash, as soon
   as no call still at work holds the key.
   */
  lemma FailureFreesKey(s: State, ls: seq<Label>, key: string, w: WorkerId, appClock: int)
    requires Init(s) && key != "" && key !in s.db.keys
    requires var workers := Run(s, ls).workers;
      forall u | u in workers && workers[u].req.key == key :: Failing(workers[u])
    requires var end := Run(s, ls);
      && w in end.workers && end.workers[w].pc.ClaimInsert? && end.workers[w].req.key == key
      && LockedKey(key) !in end.locks
    ensures var next := Step(Run(s, ls), Statement(w, appClock));
      key !in Run(s, ls).db.keys && w in next.workers && Claimed(next.workers[w]) && Held(next.locks, LockedKey(key), w)
  {
    var end := Run(s, ls);
    InitInv(s);
    FailuresCommitNothing(s, ls, key);
    RunKeys(s, ls, key);
    RunKeepsInv(s, ls);
    assert WorkerOk(end.db, end.locks, w, end.workers[w]);
    UnboundKeyIsClaimed(end, w, appClock);
  }
}
