/** A claim left in progress is taken over only when it has stood for thirty seconds. */
module Takeovers {
  import opened Types
  import opened AtomicLedger
  import opened Statements
  import opened Protocol
  import opened ProtocolInvariant
  import opened ProtocolSteps
  import opened Refinement
  import ExactlyOnce

  /** A transaction that holds a key over a row left in progress began thirty seconds after that row was claimed. */
  ghost predicate Late(db: Db, worker: Worker) {
    Claimed(worker) && worker.req.key in db.keys ==>
      worker.tx.start - db.keys[worker.req.key].claimedAt > 30_000_000
  }

  ghost predicate LateIn(s: State, w: WorkerId) {
    w in s.workers ==> Late(s.db, s.workers[w])
  }

  /** An effect keeps the start of the transaction, and claims an existing row only when it is old. */
  ghost predicate TakesLate(db: Db, worker: Worker, e: Effect) {
    match e
    case Next(pc, tx, _) => tx.start == worker.tx.start && Late(db, worker.(pc := pc, tx := tx))
    case Halt(pc) => Over(pc)
    case _ => true
  }

  lemma ClaimTakesLate(s: State, w: WorkerId, appClock: int)
    requires w in s.workers && InClaim(s.workers[w].pc) && s.workers[w].tx.keys == map[]
    ensures TakesLate(s.db, s.workers[w], ClaimEffect(s, w, appClock))
  {
    assert View(s.db, s.workers[w].tx).keys == s.db.keys;
  }

  lemma DebitTakesLate(s: State, w: WorkerId)
    requires w in s.workers && IsDebit(s.workers[w].pc) && Late(s.db, s.workers[w])
    ensures TakesLate(s.db, s.workers[w], DebitEffect(s, w))
  {
  }

  lemma InsertTakesLate(s: State, w: WorkerId, appClock: int)
    requires w in s.workers && PastDebit(s.workers[w].pc) && Late(s.db, s.workers[w])
    ensures TakesLate(s.db, s.workers[w], Stmt(s, w, appClock))
  {
  }

  lemma OtherTakesLate(s: State, w: WorkerId, appClock: int)
    requires w in s.workers && Late(s.db, s.workers[w])
    requires var pc := s.workers[w].pc; !InClaim(pc) && !IsDebit(pc) && !PastDebit(pc)
    ensures TakesLate(s.db, s.workers[w], Stmt(s, w, appClock))
  {
  }

  lemma MoveTakesLate(s: State, l: Label)
    requires IsMove(s, l) && Late(s.db, s.workers[l.w])
    requires InClaim(s.workers[l.w].pc) ==> s.workers[l.w].tx.keys == map[]
    ensures TakesLate(s.db, s.workers[l.w], Move(s, l))
  {
    if l.Statement? {
      var pc := s.workers[l.w].pc;
      if InClaim(pc) {
        ClaimTakesLate(s, l.w, l.appClock);
      } else if IsDebit(pc) {
        DebitTakesLate(s, l.w);
      } else if PastDebit(pc) {
        InsertTakesLate(s, l.w, l.appClock);
      } else {
        OtherTakesLate(s, l.w, l.appClock);
      }
    }
  }

  lemma PerformKeepsLate(s: State, w: WorkerId, e: Effect)
    requires w in s.workers && TakesLate(s.db, s.workers[w], e) && Late(s.db, s.workers[w])
    ensures LateIn(Perform(s, w, e), w)
  {
  }

  lemma OwnStepKeepsLate(s: State, l: Label)
    requires IsMove(s, l) && Late(s.db, s.workers[l.w])
    requires InClaim(s.workers[l.w].pc) ==> s.workers[l.w].tx.keys == map[]
    ensures LateIn(Step(s, l), l.w)
  {
    MoveTakesLate(s, l);
    PerformKeepsLate(s, l.w, Move(s, l));
  }

  lemma InvNothingClaimed(s: State, w: WorkerId)
    requires Inv(s) && w in s.workers && InClaim(s.workers[w].pc)
    ensures s.workers[w].tx.keys == map[]
  {
    assert WorkerOk(s.db, s.locks, w, s.workers[w]);
  }

  lemma OthersCommitOtherKeys(s: State, l: Label, w: WorkerId, op: Op)
    requires w in s.workers && Claimed(s.workers[w]) && (IsMove(s, l) ==> l.w != w)
    requires op in Committed(s, l) && (op.TransferOp? ==> l.w in s.workers && s.workers[l.w].pc.Commit?)
    requires KeyOk(s.db, s.locks, w, s.workers[w])
    requires op.TransferOp? ==> KeyOk(s.db, s.locks, l.w, s.workers[l.w])
    ensures !ExactlyOnce.CommitsKey(op, s.workers[w].req.key)
  {
  }

  lemma CommitterOk(s: State, l: Label, op: Op)
    requires Inv(s) && op in Committed(s, l) && op.TransferOp?
    ensures l.w in s.workers && s.workers[l.w].pc.Commit? && KeyOk(s.db, s.locks, l.w, s.workers[l.w])
    ensures op == CommitOp(l.w, s.workers[l.w])
  {
    MoveOk(s, l);
    assert WorkerOk(s.db, s.locks, l.w, s.workers[l.w]);
  }

  /** Nobody else commits a key that a call has claimed. */
  lemma HeldKeyStays(s: State, l: Label, w: WorkerId)
    requires Inv(s) && w in s.workers && Claimed(s.workers[w]) && (IsMove(s, l) ==> l.w != w)
    ensures var key := s.workers[w].req.key;
      && (key in Step(s, l).db.keys <==> key in s.db.keys)
      && (key in s.db.keys ==> Step(s, l).db.keys[key] == s.db.keys[key])
  {
    var key := s.workers[w].req.key;
    StepRefines(s, l);
    var ops := Committed(s, l);
    assert WorkerOk(s.db, s.locks, w, s.workers[w]);
    forall op | op in ops ensures !ExactlyOnce.CommitsKey(op, key) {
      if op.TransferOp? {
        CommitterOk(s, l, op);
      }
      OthersCommitOtherKeys(s, l, w, op);
    }
    ExactlyOnce.AtMostOneCommitPerKey(s.db, ops, key);
  }

  lemma OtherStepKeeps(s: State, l: Label, w: WorkerId)
    requires (IsMove(s, l) ==> l.w != w) && w in Step(s, l).workers
    ensures if w in s.workers then Step(s, l).workers[w] == s.workers[w] else Step(s, l).workers[w].pc.Guard?
  {
  }

  lemma OtherStepKeepsLate(s: State, l: Label, w: WorkerId)
    requires Inv(s) && LateIn(s, w) && (IsMove(s, l) ==> l.w != w)
    ensures LateIn(Step(s, l), w)
  {
    if w in Step(s, l).workers {
      OtherStepKeeps(s, l, w);
      if w in s.workers && Claimed(s.workers[w]) {
        HeldKeyStays(s, l, w);
      }
    }
  }

  lemma StepKeepsLate(s: State, l: Label, w: WorkerId)
    requires Inv(s) && LateIn(s, w)
    ensures LateIn(Step(s, l), w)
  {
    if IsMove(s, l) && l.w == w {
      if InClaim(s.workers[w].pc) {
        InvNothingClaimed(s, w);
      }
      OwnStepKeepsLate(s, l);
    } else {
      OtherStepKeepsLate(s, l, w);
    }
  }

  lemma {:induction false} RunKeepsLate(s: State, ls: seq<Label>, w: WorkerId)
    requires Inv(s) && LateIn(s, w)
    ensures LateIn(Run(s, ls), w)
    decreases |ls|
  {
    if ls != [] {
      StepKeepsLate(s, ls[0], w);
      StepKeepsInv(s, ls[0]);
      RunKeepsLate(Step(s, ls[0]), ls[1..], w);
    }
  }

  lemma CommitIsLate(db: Db, locks: map<Resource, WorkerId>, w: WorkerId, worker: Worker)
    requires worker.pc.Commit? && KeyOk(db, locks, w, worker) && Late(db, worker)
    requires worker.req.key != "" && worker.req.key in db.keys
    ensures var row := db.keys[worker.req.key];
      row.status == InProgress && row.hash == worker.req.hash && worker.tx.start - row.claimedAt > 30_000_000
  {
  }

  lemma CommittedLate(s: State, l: Label, op: Op)
    requires Inv(s) && op in Committed(s, l) && op.TransferOp? && LateIn(s, op.caller)
    requires op.req.key != "" && op.req.key in s.db.keys
    ensures var row := s.db.keys[op.req.key];
      row.status == InProgress && row.hash == op.req.hash && op.at - row.claimedAt > 30_000_000
  {
    CommitterOk(s, l, op);
    CommitIsLate(s.db, s.locks, op.caller, s.workers[op.caller]);
  }

  /**
   Whoever commits a key over a row that another claim left in progress sent the hash of that
   claim, in a transaction that began more than thirty seconds after it, in any interleaving.
   */
  lemma TakeoversAreLate(s: State, ls: seq<Label>, l: Label, op: Op)
    requires Init(s) && op in Committed(Run(s, ls), l)
    requires op.TransferOp? && op.req.key != "" && op.req.key in Run(s, ls).db.keys
    ensures var row := Run(s, ls).db.keys[op.req.key];
      row.status == InProgress && row.hash == op.req.hash && op.at - row.claimedAt > 30_000_000
  {
    InitInv(s);
    RunKeepsInv(s, ls);
    RunKeepsLate(s, ls, op.caller);
    CommittedLate(Run(s, ls), l, op);
  }
}
