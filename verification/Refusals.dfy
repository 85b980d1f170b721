/** Every refusal is justified by the committed tables at some moment while the call was at work. */
module Refusals {
  import opened Types
  import opened AtomicLedger
  import opened Statements
  import opened Protocol
  import opened ProtocolInvariant
  import opened ProtocolSteps

  /** The committed tables justify telling the caller so. */
  predicate Grounds(db: Db, req: Request, reason: LedgerError) {
    match reason
    case InsufficientFunds => req.from in db.accounts && db.accounts[req.from].balance < req.amount
    case AccountNotFound => req.from !in db.accounts || req.to !in db.accounts
    case CurrencyMismatch =>
      && req.from in db.accounts && req.to in db.accounts
      && (db.accounts[req.from].currency != req.currency || db.accounts[req.to].currency != req.currency)
    case DuplicateRequest => req.key in db.keys && db.keys[req.key].hash != req.hash
    case KeyInProgress => req.key in db.keys && db.keys[req.key].status == InProgress
    case CorruptKeyRow => req.key in db.keys && db.keys[req.key].status == Done && db.keys[req.key].code == None
    case InvalidAmount => req.amount <= 0
    case SameAccount => req.from == req.to
    case InvalidCurrency => |req.currency| != 3
    case KeyNotSupported => req.key != ""
    case TooManyRetries => true
    case Sql(_) => true
  }

  ghost predicate Grounded(moments: seq<Db>, req: Request, reason: LedgerError) {
    exists m | m in moments :: Grounds(m, req, reason)
  }

  /** What a call has seen at one of these moments: the grounds of its refusal, present or to come. */
  ghost predicate Seen(moments: seq<Db>, worker: Worker) {
    && (worker.pc.DebitMissed? ==> Grounded(moments, worker.req, InsufficientFunds))
    && (worker.pc.ClaimSteal? ==> Grounded(moments, worker.req, KeyInProgress))
    && (worker.pc.Finished? && worker.pc.outcome.Failed? ==> Grounded(moments, worker.req, worker.pc.outcome.reason))
  }

  /** What the next statement of a call does is grounded, if the tables are added to the moments. */
  ghost predicate EffectGrounded(moments: seq<Db>, worker: Worker, e: Effect) {
    match e
    case Next(pc, _, _) => Seen(moments, worker.(pc := pc))
    case Halt(pc) => Seen(moments, worker.(pc := pc))
    case Install(outcome) => outcome.Failed? ==> Grounded(moments, worker.req, outcome.reason)
    case _ => true
  }

  lemma Now(before: seq<Db>, db: Db, req: Request)
    ensures forall reason | Grounds(db, req, reason) :: Grounded(before + [db], req, reason)
  {
    assert (before + [db])[|before|] == db;
  }

  lemma ClaimGrounded(s: State, w: WorkerId, appClock: int, before: seq<Db>)
    requires w in s.workers && InClaim(s.workers[w].pc) && KeyOk(s.db, s.locks, w, s.workers[w])
    requires HasTx(s.workers[w].pc) && Seen(before, s.workers[w])
    ensures EffectGrounded(before + [s.db], s.workers[w], ClaimEffect(s, w, appClock))
  {
    assert View(s.db, s.workers[w].tx).keys == s.db.keys;
    Now(before, s.db, s.workers[w].req);
  }

  lemma DebitGrounded(s: State, w: WorkerId, before: seq<Db>)
    requires w in s.workers && IsDebit(s.workers[w].pc) && RowsOk(s.db, s.locks, w, s.workers[w])
    requires PcFits(s.workers[w]) && Seen(before, s.workers[w])
    ensures EffectGrounded(before + [s.db], s.workers[w], DebitEffect(s, w))
  {
    assert View(s.db, s.workers[w].tx).accounts == s.db.accounts;
    Now(before, s.db, s.workers[w].req);
  }

  lemma CheckGrounded(s: State, w: WorkerId, appClock: int, before: seq<Db>)
    requires w in s.workers && s.workers[w].pc.CheckCurrency? && s.workers[w].tx.rows == map[]
    ensures EffectGrounded(before + [s.db], s.workers[w], Stmt(s, w, appClock))
  {
    assert View(s.db, s.workers[w].tx).accounts == s.db.accounts;
    Now(before, s.db, s.workers[w].req);
  }

  lemma InsertGrounded(s: State, w: WorkerId, appClock: int, before: seq<Db>)
    requires w in s.workers && PastDebit(s.workers[w].pc)
    ensures EffectGrounded(before + [s.db], s.workers[w], Stmt(s, w, appClock))
  {
    var v := View(s.db, s.workers[w].tx);
    assert forall a | a in s.db.accounts :: a in v.accounts;
    Now(before, s.db, s.workers[w].req);
  }

  lemma OtherGrounded(s: State, w: WorkerId, appClock: int, before: seq<Db>)
    requires w in s.workers
    requires var pc := s.workers[w].pc; pc.Guard? || pc.Begin? || pc.PreLock? || pc.LockRows? || Over(pc)
    ensures EffectGrounded(before + [s.db], s.workers[w], Stmt(s, w, appClock))
  {
    Now(before, s.db, s.workers[w].req);
  }

  lemma StmtGrounded(s: State, w: WorkerId, appClock: int, before: seq<Db>)
    requires w in s.workers && WorkerOk(s.db, s.locks, w, s.workers[w]) && Seen(before, s.workers[w])
    ensures EffectGrounded(before + [s.db], s.workers[w], Stmt(s, w, appClock))
  {
    var pc := s.workers[w].pc;
    if InClaim(pc) {
      ClaimGrounded(s, w, appClock, before);
    } else if IsDebit(pc) {
      DebitGrounded(s, w, before);
    } else if pc.CheckCurrency? {
      CheckGrounded(s, w, appClock, before);
    } else if PastDebit(pc) {
      InsertGrounded(s, w, appClock, before);
    } else {
      OtherGrounded(s, w, appClock, before);
    }
  }

  /** Outside errors are not taken for the database's answer on a missing account. */
  predicate Genuine(l: Label) {
    l.Fault? ==> !l.error.ForeignKeyViolation?
  }

  lemma MoveGrounded(s: State, l: Label, before: seq<Db>)
    requires IsMove(s, l) && Genuine(l)
    requires WorkerOk(s.db, s.locks, l.w, s.workers[l.w]) && Seen(before, s.workers[l.w])
    ensures EffectGrounded(before + [s.db], s.workers[l.w], Move(s, l))
  {
    if l.Statement? {
      StmtGrounded(s, l.w, l.appClock, before);
    } else {
      Now(before, s.db, s.workers[l.w].req);
    }
  }

  lemma PerformSeen(s: State, w: WorkerId, e: Effect, before: seq<Db>)
    requires w in s.workers && Seen(before, s.workers[w]) && EffectGrounded(before + [s.db], s.workers[w], e)
    ensures Seen(before + [s.db], Perform(s, w, e).workers[w])
  {
    Now(before, s.db, s.workers[w].req);
    assert forall m | m in before :: m in before + [s.db];
  }

  /** The committed tables at the moments when the call is at work. */
  function CallMoments(s: State, ls: seq<Label>, w: WorkerId): seq<Db>
    decreases |ls|
  {
    if ls == [] then []
    else (if w in s.workers && !Over(s.workers[w].pc) then [s.db] else []) + CallMoments(Step(s, ls[0]), ls[1..], w)
  }

  function Moment(s: State, w: WorkerId): seq<Db> {
    if w in s.workers && !Over(s.workers[w].pc) then [s.db] else []
  }

  lemma SeenLonger(before: seq<Db>, more: seq<Db>, worker: Worker)
    requires Seen(before, worker)
    ensures Seen(before + more, worker)
  {
    assert forall m | m in before :: m in before + more;
  }

  lemma OwnStepSeen(s: State, l: Label, before: seq<Db>)
    requires Inv(s) && IsMove(s, l) && Genuine(l) && !Over(s.workers[l.w].pc) && Seen(before, s.workers[l.w])
    ensures l.w in Step(s, l).workers && Seen(before + [s.db], Step(s, l).workers[l.w])
  {
    assert WorkerOk(s.db, s.locks, l.w, s.workers[l.w]);
    MoveGrounded(s, l, before);
    PerformSeen(s, l.w, Move(s, l), before);
  }

  lemma OtherStep(s: State, l: Label, w: WorkerId)
    requires w in Step(s, l).workers && (IsMove(s, l) ==> l.w != w || Over(s.workers[w].pc))
    ensures if w in s.workers then Step(s, l).workers[w] == s.workers[w] else Step(s, l).workers[w].pc.Guard?
  {
  }

  lemma StepSeen(s: State, l: Label, w: WorkerId, before: seq<Db>)
    requires Inv(s) && Genuine(l) && (w in s.workers ==> Seen(before, s.workers[w]))
    ensures w in Step(s, l).workers ==> Seen(before + Moment(s, w), Step(s, l).workers[w])
  {
    if IsMove(s, l) && l.w == w && !Over(s.workers[w].pc) {
      OwnStepSeen(s, l, before);
    } else if w in Step(s, l).workers {
      OtherStep(s, l, w);
      if w in s.workers {
        SeenLonger(before, Moment(s, w), s.workers[w]);
      }
    }
  }

  lemma {:induction false} RunSeen(s: State, ls: seq<Label>, w: WorkerId, before: seq<Db>)
    requires Inv(s) && (w in s.workers ==> Seen(before, s.workers[w]))
    requires forall l | l in ls :: Genuine(l)
    ensures w in Run(s, ls).workers ==> Seen(before + CallMoments(s, ls, w), Run(s, ls).workers[w])
    decreases |ls|
  {
    if ls == [] {
      assert before + [] == before;
    } else {
      var next := Step(s, ls[0]);
      StepSeen(s, ls[0], w, before);
      StepKeepsInv(s, ls[0]);
      RunSeen(next, ls[1..], w, before + Moment(s, w));
      assert before + Moment(s, w) + CallMoments(next, ls[1..], w) == before + CallMoments(s, ls, w);
    }
  }

  /** The call is at work after the first i steps, and the tables are then these. */
  ghost predicate AtWork(s: State, ls: seq<Label>, w: WorkerId, i: nat, db: Db) {
    && i <= |ls| && Run(s, ls[..i]).db == db
    && w in Run(s, ls[..i]).workers && !Over(Run(s, ls[..i]).workers[w].pc)
  }

  lemma {:induction false} MomentIsState(s: State, ls: seq<Label>, w: WorkerId, m: Db) returns (i: nat)
    requires m in CallMoments(s, ls, w)
    ensures AtWork(s, ls, w, i, m)
    decreases |ls|
  {
    if m in Moment(s, w) {
      i := 0;
      assert ls[..0] == [];
    } else {
      i := MomentIsState(Step(s, ls[0]), ls[1..], w, m);
      i := i + 1;
      assert ls[..i][0] == ls[0] && ls[..i][1..] == ls[1..][..i - 1];
    }
  }

  /**
   A call that was refused was refused rightly: at some moment while it was at work the committed
   tables were such as its answer says, whatever others were doing.
   */
  lemma RefusalsAreGrounded(s: State, ls: seq<Label>, w: WorkerId) returns (i: nat, db: Db)
    requires Init(s) && forall l | l in ls :: Genuine(l)
    requires w in Run(s, ls).workers
    requires Run(s, ls).workers[w].pc.Finished? && Run(s, ls).workers[w].pc.outcome.Failed?
    ensures AtWork(s, ls, w, i, db)
    ensures Grounds(db, Run(s, ls).workers[w].req, Run(s, ls).workers[w].pc.outcome.reason)
  {
    InitInv(s);
    RunSeen(s, ls, w, []);
    assert [] + CallMoments(s, ls, w) == CallMoments(s, ls, w);
    var worker := Run(s, ls).workers[w];
    db :| db in CallMoments(s, ls, w) && Grounds(db, worker.req, worker.pc.outcome.reason);
    i := MomentIsState(s, ls, w, db);
  }
}
