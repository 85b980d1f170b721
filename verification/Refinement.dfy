/** Every interleaving of the protocol is a run of the atomic ledger. */
module Refinement {
  import opened Types
  import opened AtomicLedger
  import opened Statements
  import opened Protocol
  import opened ProtocolInvariant
  import opened ProtocolSteps

  lemma StepRefines(s: State, l: Label)
    requires Inv(s)
    ensures |Committed(s, l)| <= 1
    ensures Legal(s.db, Committed(s, l))
    ensures Step(s, l).db == Fold(s.db, Committed(s, l))
  {
    if IsMove(s, l) {
      var e := Move(s, l);
      MoveOk(s, l);
      if e.Install? {
        InstallKeepsInv(s, l.w, e);
        FoldOne(s.db, CommitOp(l.w, s.workers[l.w]));
      }
    } else if Committed(s, l) != [] {
      FoldOne(s.db, Committed(s, l)[0]);
    }
  }

  /** The committed tables are the fold of the committed operations, each allowed at its point. */
  lemma {:induction false} RunRefines(s: State, ls: seq<Label>)
    requires Inv(s)
    ensures Legal(s.db, History(s, ls))
    ensures Run(s, ls).db == Fold(s.db, History(s, ls))
    decreases |ls|
  {
    if ls != [] {
      StepRefines(s, ls[0]);
      StepKeepsInv(s, ls[0]);
      RunRefines(Step(s, ls[0]), ls[1..]);
      FoldConcat(s.db, Committed(s, ls[0]), History(Step(s, ls[0]), ls[1..]));
    }
  }

  /** The transfers a call committed. */
  function CommitsBy(log: seq<Op>, w: WorkerId): seq<Op> {
    if log == [] then []
    else (if log[0].TransferOp? && log[0].caller == w then [log[0]] else []) + CommitsBy(log[1..], w)
  }

  /** The one operation of a call, and what the caller was told: its transfer, or a lost connection. */
  ghost predicate CommitAnswered(worker: Worker, commits: seq<Op>) {
    && |commits| == 1 && commits[0].TransferOp?
    && commits[0].req == worker.req && commits[0].strategy == worker.strategy
    && worker.pc.Finished?
    && (worker.pc.outcome == Success(TransferRow(commits[0].req, commits[0].stamp, commits[0].at))
        || worker.pc.outcome == Failed(Sql(ConnectionLost)))
  }

  /** One step, seen by one call. */
  ghost predicate StepSeen(s: State, next: State, w: WorkerId, commits: seq<Op>) {
    if w in s.workers && Over(s.workers[w].pc)
    then w in next.workers && next.workers[w] == s.workers[w] && commits == []
    else
      && (commits != [] ==> w in next.workers && Over(next.workers[w].pc) && CommitAnswered(next.workers[w], commits))
      && (w in next.workers && next.workers[w].pc.Finished? && next.workers[w].pc.outcome.Success? ==> commits != [])
  }

  lemma OwnStepSeen(s: State, l: Label)
    requires IsMove(s, l) && EffectOk(s, l.w, Move(s, l))
    ensures StepSeen(s, Step(s, l), l.w, CommitsBy(Committed(s, l), l.w))
  {
    var worker := s.workers[l.w];
    if Move(s, l).Install? {
      assert Committed(s, l) == [CommitOp(l.w, worker)];
      assert CommitsBy(Committed(s, l), l.w) == [CommitOp(l.w, worker)];
    }
  }

  lemma OtherStepSeen(s: State, l: Label, w: WorkerId)
    requires IsMove(s, l) ==> l.w != w
    ensures StepSeen(s, Step(s, l), w, CommitsBy(Committed(s, l), w))
  {
    assert CommitsBy(Committed(s, l), w) == [];
  }

  lemma StepCommits(s: State, l: Label, w: WorkerId)
    requires Inv(s)
    ensures StepSeen(s, Step(s, l), w, CommitsBy(Committed(s, l), w))
  {
    if IsMove(s, l) && l.w == w {
      MoveOk(s, l);
      OwnStepSeen(s, l);
    } else {
      OtherStepSeen(s, l, w);
    }
  }

  lemma {:induction false} OverStays(s: State, ls: seq<Label>, w: WorkerId)
    requires Inv(s) && w in s.workers && Over(s.workers[w].pc)
    ensures w in Run(s, ls).workers && Run(s, ls).workers[w] == s.workers[w]
    ensures CommitsBy(History(s, ls), w) == []
    decreases |ls|
  {
    if ls != [] {
      StepCommits(s, ls[0], w);
      StepKeepsInv(s, ls[0]);
      OverStays(Step(s, ls[0]), ls[1..], w);
      CommitsByConcat(Committed(s, ls[0]), History(Step(s, ls[0]), ls[1..]), w);
    }
  }

  lemma {:induction false} CommitsByConcat(a: seq<Op>, b: seq<Op>, w: WorkerId)
    ensures CommitsBy(a + b, w) == CommitsBy(a, w) + CommitsBy(b, w)
    decreases |a|
  {
    if a == [] {
      assert a + b == b;
    } else {
      assert (a + b)[0] == a[0] && (a + b)[1..] == a[1..] + b;
      CommitsByConcat(a[1..], b, w);
    }
  }

  /**
   A call commits at most one transfer, whatever its retries, and exactly when it is told so:
   an answer of success names that transfer, and only a lost connection leaves it open.
   Every other ending, and every unfinished call, has committed nothing.
   */
  lemma {:induction false} OneCommitPerCall(s: State, ls: seq<Label>, w: WorkerId)
    requires Inv(s) && (w in s.workers ==> !Over(s.workers[w].pc))
    ensures var commits := CommitsBy(History(s, ls), w);
      var end := Run(s, ls);
      && (commits != [] ==> w in end.workers && CommitAnswered(end.workers[w], commits))
      && (w in end.workers && end.workers[w].pc.Finished? && end.workers[w].pc.outcome.Success? ==> commits != [])
    decreases |ls|
  {
    if ls != [] {
      var next := Step(s, ls[0]);
      StepCommits(s, ls[0], w);
      StepKeepsInv(s, ls[0]);
      CommitsByConcat(Committed(s, ls[0]), History(next, ls[1..]), w);
      if w in next.workers && Over(next.workers[w].pc) {
        OverStays(next, ls[1..], w);
      } else {
        OneCommitPerCall(next, ls[1..], w);
      }
    }
  }
}
