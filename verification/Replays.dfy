/** A key keeps the hash of the request that completed it: repeats are replayed, other requests are refused. */
module Replays {
  import opened Types
  import opened AtomicLedger
  import opened Statements
  import opened LedgerSpec
  import opened Protocol
  import opened ProtocolInvariant
  import opened ProtocolSteps
  import opened Refinement
  import ExactlyOnce
  import Records

  // ------------------------------------------------------- call after call

  /**
   Once a keyed call has succeeded, and whatever is committed after it, the key answers: a request
   with the same hash is given the stored response, any other is a duplicate, and nothing changes.
   */
  lemma KeyAnswersAgain(db: Db, first: Strategy, req: Request, stamp: Id, now: int, appClock: int, log: seq<Op>,
                        second: Strategy, other: Request, stamp2: Id, now2: int, appClock2: int)
    requires AccountsOk(db) && FreshStamp(db, stamp) && req.key != ""
    requires var done := Call(db, first, req, stamp, now, appClock);
      done.1.Success? && Legal(done.0, log) && AccountsOk(Fold(done.0, log)) && FreshStamp(Fold(done.0, log), stamp2)
    requires other.key == req.key && second != Optimistic
    requires second == Conditional ==> other.amount > 0 && other.from != other.to && |other.currency| == 3
    ensures var done := Call(db, first, req, stamp, now, appClock);
      var later := Fold(done.0, log);
      Call(later, second, other, stamp2, now2, appClock2) ==
        (later, if other.hash == req.hash then Replay(201, Some(done.1.transfer)) else Failed(DuplicateRequest))
  {
    var done := Call(db, first, req, stamp, now, appClock);
    AcceptedCanTransfer(db, first, req, stamp, now, appClock);
    ExactlyOnce.SettledKeyStays(done.0, log, req.key);
  }

  /** The same request once more, by Fix A or Fix B, at any later time: the stored response, and no change. */
  lemma RepeatIsReplayed(db: Db, first: Strategy, req: Request, stamp: Id, now: int, appClock: int,
                         second: Strategy, stamp2: Id, now2: int, appClock2: int)
    requires DbInv(db) && FreshFrom(db, stamp) && req.key != "" && stamp2 > stamp && second != Optimistic
    requires AccountsOk(db) && FreshStamp(db, stamp) && Call(db, first, req, stamp, now, appClock).1.Success?
    ensures var done := Call(db, first, req, stamp, now, appClock);
      && AccountsOk(done.0) && FreshStamp(done.0, stamp2)
      && Call(done.0, second, req, stamp2, now2, appClock2) == (done.0, Replay(201, Some(done.1.transfer)))
  {
    var done := Call(db, first, req, stamp, now, appClock);
    AcceptedCanTransfer(db, first, req, stamp, now, appClock);
    CallKeepsAccounts(db, first, req, stamp, now, appClock);
    CallKeepsFresh(db, first, req, stamp, now, appClock);
    assert |db.accounts[req.from].currency| == 3;
    KeyAnswersAgain(db, first, req, stamp, now, appClock, [], second, req, stamp2, now2, appClock2);
  }

  // --------------------------------------------------- one hash for one key

  /** The key row and all calls with the key carry this hash, and none of them was called a duplicate. */
  ghost predicate OneHash(s: State, key: string, hash: string) {
    && (key in s.db.keys ==> s.db.keys[key].hash == hash)
    && (forall w | w in s.workers && s.workers[w].req.key == key :: Undisputed(s.workers[w], hash))
  }

  ghost predicate Undisputed(worker: Worker, hash: string) {
    worker.req.hash == hash && worker.pc != Finished(Failed(DuplicateRequest))
  }

  ghost predicate NoDispute(e: Effect) {
    && (e.Next? ==> !Over(e.pc))
    && (e.Halt? ==> e.pc != Finished(Failed(DuplicateRequest)))
    && (e.Install? ==> e.outcome != Failed(DuplicateRequest))
  }

  lemma ClaimNoDispute(s: State, w: WorkerId, appClock: int)
    requires w in s.workers && InClaim(s.workers[w].pc) && s.workers[w].tx.keys == map[]
    requires s.workers[w].req.key in s.db.keys ==> s.db.keys[s.workers[w].req.key].hash == s.workers[w].req.hash
    ensures NoDispute(ClaimEffect(s, w, appClock))
  {
    assert View(s.db, s.workers[w].tx).keys == s.db.keys;
  }

  lemma DebitNoDispute(s: State, w: WorkerId)
    requires w in s.workers && IsDebit(s.workers[w].pc)
    ensures NoDispute(DebitEffect(s, w))
  {
  }

  lemma InsertNoDispute(s: State, w: WorkerId, appClock: int)
    requires w in s.workers && PastDebit(s.workers[w].pc)
    ensures NoDispute(Stmt(s, w, appClock))
  {
  }

  lemma OtherNoDispute(s: State, w: WorkerId, appClock: int)
    requires w in s.workers && !InClaim(s.workers[w].pc)
    ensures NoDispute(Stmt(s, w, appClock))
  {
    if IsDebit(s.workers[w].pc) {
      DebitNoDispute(s, w);
    } else if PastDebit(s.workers[w].pc) {
      InsertNoDispute(s, w, appClock);
    }
  }

  /** A call about to claim has written no key yet. */
  ghost predicate KeysUnwritten(worker: Worker) {
    InClaim(worker.pc) ==> worker.tx.keys == map[]
  }

  lemma InvKeysUnwritten(s: State, w: WorkerId)
    requires Inv(s) && w in s.workers
    ensures KeysUnwritten(s.workers[w])
  {
    assert WorkerOk(s.db, s.locks, w, s.workers[w]);
  }

  lemma MoveNoDispute(s: State, l: Label, hash: string)
    requires IsMove(s, l) && KeysUnwritten(s.workers[l.w]) && OneHash(s, s.workers[l.w].req.key, hash)
    ensures NoDispute(Move(s, l))
  {
    if l.Statement? {
      if InClaim(s.workers[l.w].pc) {
        assert Undisputed(s.workers[l.w], hash);
        ClaimNoDispute(s, l.w, l.appClock);
      } else {
        OtherNoDispute(s, l.w, l.appClock);
      }
    }
  }

  lemma CommittedHash(db: Db, op: Op, key: string, hash: string)
    requires CanApply(db, op) && key != "" && (key in db.keys ==> db.keys[key].hash == hash)
    requires op.TransferOp? && op.req.key == key ==> op.req.hash == hash
    ensures key in Apply(db, op).keys ==> Apply(db, op).keys[key].hash == hash
  {
    if op.TransferOp? {
      var t := TransferIsRecorded(db, op);
    }
  }

  lemma TablesOneHash(s: State, l: Label, key: string, hash: string)
    requires Inv(s) && key != "" && OneHash(s, key, hash)
    ensures key in Step(s, l).db.keys ==> Step(s, l).db.keys[key].hash == hash
  {
    StepRefines(s, l);
    var ops := Committed(s, l);
    if ops != [] {
      assert ops == [ops[0]];
      FoldOne(s.db, ops[0]);
      if ops[0].TransferOp? && ops[0].req.key == key {
        assert Undisputed(s.workers[l.w], hash);
      }
      CommittedHash(s.db, ops[0], key, hash);
    }
  }

  lemma CallsOneHash(s: State, l: Label, key: string, hash: string)
    requires key != "" && OneHash(s, key, hash) && (l.Spawn? && l.req.key == key ==> l.req.hash == hash)
    requires IsMove(s, l) ==> KeysUnwritten(s.workers[l.w])
    ensures forall w | w in Step(s, l).workers && Step(s, l).workers[w].req.key == key ::
      Undisputed(Step(s, l).workers[w], hash)
  {
    if IsMove(s, l) && s.workers[l.w].req.key == key {
      MoveNoDispute(s, l, hash);
      assert Undisputed(s.workers[l.w], hash);
    }
  }

  lemma StepOneHash(s: State, l: Label, key: string, hash: string)
    requires Inv(s) && key != "" && OneHash(s, key, hash) && (l.Spawn? && l.req.key == key ==> l.req.hash == hash)
    ensures OneHash(Step(s, l), key, hash)
  {
    if IsMove(s, l) {
      InvKeysUnwritten(s, l.w);
    }
    TablesOneHash(s, l, key, hash);
    CallsOneHash(s, l, key, hash);
  }

  /**
   If all calls with a key carry one hash, and so does its row where it has one at the start, none
   of them is ever told that it is a duplicate, in any interleaving.
   */
  lemma {:induction false} RunOneHash(s: State, ls: seq<Label>, key: string, hash: string)
    requires Inv(s) && key != "" && OneHash(s, key, hash)
    requires forall l | l in ls && l.Spawn? && l.req.key == key :: l.req.hash == hash
    ensures OneHash(Run(s, ls), key, hash)
    decreases |ls|
  {
    if ls != [] {
      assert ls[0] in ls && forall l | l in ls[1..] :: l in ls;
      StepOneHash(s, ls[0], key, hash);
      StepKeepsInv(s, ls[0]);
      RunOneHash(Step(s, ls[0]), ls[1..], key, hash);
    }
  }

  lemma NoDuplicates(s: State, ls: seq<Label>, key: string, hash: string, w: WorkerId)
    requires Init(s) && key != "" && (key in s.db.keys ==> s.db.keys[key].hash == hash)
    requires forall l | l in ls && l.Spawn? && l.req.key == key :: l.req.hash == hash
    requires w in Run(s, ls).workers && Run(s, ls).workers[w].req.key == key
    ensures Run(s, ls).workers[w].pc != Finished(Failed(DuplicateRequest))
  {
    InitInv(s);
    RunOneHash(s, ls, key, hash);
  }

  // ------------------------------------------------------ answers and hashes

  ghost predicate Answered(worker: Worker) {
    worker.pc.Finished? && !worker.pc.outcome.Failed? && worker.req.key != ""
  }

  /** The key of an answered call is done, under the hash that the call sent. */
  ghost predicate HashKept(db: Db, worker: Worker) {
    Answered(worker) ==>
      worker.req.key in db.keys && db.keys[worker.req.key].status == Done
      && db.keys[worker.req.key].hash == worker.req.hash
  }

  /** A statement that replays has found the key done, under the hash of the call. */
  ghost predicate ReplaysOwn(db: Db, worker: Worker, e: Effect) {
    && (e.Next? ==> !Over(e.pc))
    && (e.Install? ==> !e.outcome.Replay?)
    && (e.Halt? && e.pc.Finished? ==> !e.pc.outcome.Success?)
    && (e.Halt? && e.pc.Finished? && e.pc.outcome.Replay? ==> HashKept(db, worker.(pc := e.pc)))
  }

  lemma ClaimReplaysOwn(s: State, w: WorkerId, appClock: int)
    requires w in s.workers && InClaim(s.workers[w].pc) && s.workers[w].tx.keys == map[]
    ensures ReplaysOwn(s.db, s.workers[w], ClaimEffect(s, w, appClock))
  {
    assert View(s.db, s.workers[w].tx).keys == s.db.keys;
  }

  lemma InsertReplaysOwn(s: State, w: WorkerId, appClock: int)
    requires w in s.workers && PastDebit(s.workers[w].pc)
    ensures ReplaysOwn(s.db, s.workers[w], Stmt(s, w, appClock))
  {
  }

  lemma OtherReplaysOwn(s: State, w: WorkerId, appClock: int)
    requires w in s.workers && !InClaim(s.workers[w].pc) && !PastDebit(s.workers[w].pc)
    ensures ReplaysOwn(s.db, s.workers[w], Stmt(s, w, appClock))
  {
  }

  lemma MoveReplaysOwn(s: State, l: Label)
    requires IsMove(s, l) && KeysUnwritten(s.workers[l.w])
    ensures ReplaysOwn(s.db, s.workers[l.w], Move(s, l))
  {
    if l.Statement? {
      if InClaim(s.workers[l.w].pc) {
        ClaimReplaysOwn(s, l.w, l.appClock);
      } else if PastDebit(s.workers[l.w].pc) {
        InsertReplaysOwn(s, l.w, l.appClock);
      } else {
        OtherReplaysOwn(s, l.w, l.appClock);
      }
    }
  }

  lemma NewReplayKeepsHash(s: State, l: Label)
    requires IsMove(s, l) && KeysUnwritten(s.workers[l.w]) && !Answered(s.workers[l.w])
    requires Answered(Step(s, l).workers[l.w]) && Step(s, l).workers[l.w].pc.outcome.Replay?
    ensures HashKept(Step(s, l).db, Step(s, l).workers[l.w])
  {
    MoveReplaysOwn(s, l);
  }

  lemma NotNewlyAnswered(s: State, l: Label, w: WorkerId)
    requires (IsMove(s, l) ==> l.w != w) && w in Step(s, l).workers && Answered(Step(s, l).workers[w])
    ensures w in s.workers && Step(s, l).workers[w] == s.workers[w]
  {
  }

  lemma OldAnswerKeepsHash(s: State, l: Label, worker: Worker)
    requires Inv(s) && Answered(worker) && HashKept(s.db, worker)
    ensures HashKept(Step(s, l).db, worker)
  {
    StepRefines(s, l);
    ExactlyOnce.SettledKeyStays(s.db, Committed(s, l), worker.req.key);
  }

  ghost predicate HashKeptIn(s: State, w: WorkerId) {
    w in s.workers ==> HashKept(s.db, s.workers[w])
  }

  lemma NewAnswerKeepsHash(s: State, l: Label, w: WorkerId)
    requires Inv(s) && IsMove(s, l) && l.w == w && !Answered(s.workers[w])
    ensures HashKeptIn(Step(s, l), w)
  {
    if w in Step(s, l).workers && Answered(Step(s, l).workers[w]) {
      if Step(s, l).workers[w].pc.outcome.Success? {
        Records.StepOnRecord(s, l, w);
      } else {
        InvKeysUnwritten(s, w);
        NewReplayKeepsHash(s, l);
      }
    }
  }

  lemma AnsweredStays(s: State, l: Label, w: WorkerId)
    requires Inv(s) && w in s.workers && Answered(s.workers[w])
    ensures w in Step(s, l).workers && Step(s, l).workers[w] == s.workers[w]
  {
    StepCommits(s, l, w);
  }

  lemma StepKeepsHash(s: State, l: Label, w: WorkerId)
    requires Inv(s) && HashKeptIn(s, w)
    ensures HashKeptIn(Step(s, l), w)
  {
    if w in s.workers && Answered(s.workers[w]) {
      AnsweredStays(s, l, w);
      OldAnswerKeepsHash(s, l, s.workers[w]);
    } else if IsMove(s, l) && l.w == w {
      NewAnswerKeepsHash(s, l, w);
    } else if w in Step(s, l).workers && Answered(Step(s, l).workers[w]) {
      NotNewlyAnswered(s, l, w);
    }
  }

  lemma {:induction false} RunKeepsHash(s: State, ls: seq<Label>, w: WorkerId)
    requires Inv(s) && HashKeptIn(s, w)
    ensures HashKeptIn(Run(s, ls), w)
    decreases |ls|
  {
    if ls != [] {
      StepKeepsHash(s, ls[0], w);
      StepKeepsInv(s, ls[0]);
      RunKeepsHash(Step(s, ls[0]), ls[1..], w);
    }
  }

  /**
   All calls with one key that are answered, by success or replay, in any interleaving, sent the
   same hash: a key never answers for a request other than the one that completed it.
   */
  lemma AnsweredKeyHasOneHash(s: State, ls: seq<Label>, u: WorkerId, w: WorkerId)
    requires Init(s)
    requires var workers := Run(s, ls).workers;
      && u in workers && workers[u].pc.Finished? && !workers[u].pc.outcome.Failed?
      && w in workers && workers[w].pc.Finished? && !workers[w].pc.outcome.Failed?
      && workers[u].req.key == workers[w].req.key != ""
    ensures Run(s, ls).workers[u].req.hash == Run(s, ls).workers[w].req.hash
  {
    InitInv(s);
    RunKeepsHash(s, ls, u);
    RunKeepsHash(s, ls, w);
  }
}
