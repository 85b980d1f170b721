/** Five attempts bound every run, and under the lock order of Fix B every run can be finished. */
module StepBound {
  import opened Types
  import opened AtomicLedger
  import opened Statements
  import opened Protocol
  import opened ProtocolInvariant
  import opened ProtocolSteps
  import opened LockOrder
  import opened Sums

  /** Statements per attempt. */
  const STATEMENTS: nat := 18

  function PcRank(pc: Pc): nat {
    match pc
    case Guard => 0
    case Begin => 0
    case ClaimInsert => 1
    case ClaimRead => 2
    case ClaimSteal => 3
    case PreLock => 4
    case LockRows(todo) => if |todo| >= 2 then 5 else if |todo| == 1 then 6 else 7
    case CheckCurrency => 8
    case DebitConditional => 9
    case DebitRead => 9
    case OptRead => 9
    case DebitMissed => 10
    case DebitWrite => 10
    case OptDebit(_) => 10
    case Credit => 11
    case AddTransfer => 12
    case AddPostings => 13
    case ReadUrl => 14
    case AddEvent(_) => 15
    case CompleteClaim => 16
    case Commit => 17
    case Finished(_) => 17
    case Crashed => 17
  }

  /** The checks up front and five attempts: 1 + 5 * 18. */
  const MAX_STEPS: nat := 91

  /** How many more statements a call can perform, over all attempts left to it. */
  function Fuel(worker: Worker): int {
    if Over(worker.pc) then 0
    else if worker.pc.Guard? then MAX_STEPS
    else 1 + (MAX_RETRIES - 1 - worker.attempt) * STATEMENTS + (STATEMENTS - 1 - PcRank(worker.pc))
  }

  lemma FuelBounds(worker: Worker)
    requires worker.attempt < MAX_RETRIES
    ensures 0 <= Fuel(worker) <= MAX_STEPS
    ensures !Over(worker.pc) ==> Fuel(worker) >= 1
  {
  }

  ghost predicate Advances(worker: Worker, e: Effect) {
    match e
    case Wait => true
    case Open => worker.pc.Begin?
    case Next(pc, _, _) => Fuel(worker.(pc := pc)) < Fuel(worker)
    case Again => HasTx(worker.pc) || worker.pc.Begin?
    case Halt(pc) => Over(pc) && !Over(worker.pc)
    case Install(_) => !Over(worker.pc)
  }

  lemma ClaimAdvances(s: State, w: WorkerId, appClock: int)
    requires w in s.workers && InClaim(s.workers[w].pc)
    ensures Advances(s.workers[w], ClaimEffect(s, w, appClock))
  {
  }

  lemma DebitAdvances(s: State, w: WorkerId)
    requires w in s.workers && IsDebit(s.workers[w].pc)
    ensures Advances(s.workers[w], DebitEffect(s, w))
  {
  }

  lemma InsertAdvances(s: State, w: WorkerId, appClock: int)
    requires w in s.workers && PastDebit(s.workers[w].pc)
    ensures Advances(s.workers[w], Stmt(s, w, appClock))
  {
  }

  lemma StmtAdvances(s: State, w: WorkerId, appClock: int)
    requires w in s.workers && s.workers[w].attempt < MAX_RETRIES
    requires s.workers[w].pc.LockRows? ==> |s.workers[w].pc.todo| <= 2
    ensures Advances(s.workers[w], Stmt(s, w, appClock))
  {
    if InClaim(s.workers[w].pc) {
      ClaimAdvances(s, w, appClock);
    } else if IsDebit(s.workers[w].pc) {
      DebitAdvances(s, w);
    } else if PastDebit(s.workers[w].pc) {
      InsertAdvances(s, w, appClock);
    }
  }

  lemma MoveAdvances(s: State, l: Label)
    requires IsMove(s, l) && s.workers[l.w].attempt < MAX_RETRIES
    requires s.workers[l.w].pc.LockRows? ==> |s.workers[l.w].pc.todo| <= 2
    ensures Advances(s.workers[l.w], Move(s, l))
  {
    if l.Statement? {
      StmtAdvances(s, l.w, l.appClock);
    }
  }

  /** A label that moves a call forward: not a wait, not a label for a finished call. */
  predicate Active(s: State, l: Label) {
    IsMove(s, l) && !Move(s, l).Wait?
  }

  lemma ActiveBurnsFuel(s: State, l: Label)
    requires Active(s, l) && s.workers[l.w].attempt < MAX_RETRIES
    requires s.workers[l.w].pc.LockRows? ==> |s.workers[l.w].pc.todo| <= 2
    ensures var next := Step(s, l);
      && l.w in next.workers && next.workers == s.workers[l.w := next.workers[l.w]]
      && Fuel(next.workers[l.w]) < Fuel(s.workers[l.w])
  {
    MoveAdvances(s, l);
  }

  // --------------------------------------------------------------- whole runs

  function Fuels(workers: map<WorkerId, Worker>): map<int, int> {
    map w: int | w in workers :: Fuel(workers[w])
  }

  ghost function TotalFuel(s: State): int {
    SumMap(Fuels(s.workers))
  }

  predicate Starts(s: State, l: Label) {
    l.Spawn? && l.w !in s.workers
  }

  function ActiveSteps(s: State, ls: seq<Label>): nat
    decreases |ls|
  {
    if ls == [] then 0 else (if Active(s, ls[0]) then 1 else 0) + ActiveSteps(Step(s, ls[0]), ls[1..])
  }

  function CallsStarted(s: State, ls: seq<Label>): nat
    decreases |ls|
  {
    if ls == [] then 0 else (if Starts(s, ls[0]) then 1 else 0) + CallsStarted(Step(s, ls[0]), ls[1..])
  }

  lemma ActiveFuel(s: State, l: Label)
    requires WorkersOk(s) && Active(s, l)
    ensures TotalFuel(Step(s, l)) <= TotalFuel(s) - 1
  {
    var next := Step(s, l);
    assert WorkerOk(s.db, s.locks, l.w, s.workers[l.w]);
    ActiveBurnsFuel(s, l);
    assert Fuels(next.workers) == Fuels(s.workers)[l.w := Fuel(next.workers[l.w])];
    SumUpdate(Fuels(s.workers), l.w, Fuel(next.workers[l.w]));
  }

  lemma StartFuel(s: State, l: Label)
    requires Starts(s, l)
    ensures TotalFuel(Step(s, l)) == TotalFuel(s) + MAX_STEPS
  {
    assert Fuels(Step(s, l).workers) == Fuels(s.workers)[l.w := MAX_STEPS];
    SumUpdate(Fuels(s.workers), l.w, MAX_STEPS);
  }

  lemma IdleFuel(s: State, l: Label)
    requires !Active(s, l) && !Starts(s, l)
    ensures Step(s, l).workers == s.workers
  {
  }

  lemma StepFuel(s: State, l: Label)
    requires WorkersOk(s)
    ensures TotalFuel(Step(s, l))
         <= TotalFuel(s) + (if Starts(s, l) then MAX_STEPS else 0) - (if Active(s, l) then 1 else 0)
  {
    if Active(s, l) {
      ActiveFuel(s, l);
    } else if Starts(s, l) {
      StartFuel(s, l);
    } else {
      IdleFuel(s, l);
    }
  }

  lemma TotalFuelNonNegative(s: State)
    requires Inv(s)
    ensures TotalFuel(s) >= 0
  {
    forall w: WorkerId | w in s.workers ensures Fuel(s.workers[w]) >= 0 {
      assert WorkerOk(s.db, s.locks, w, s.workers[w]);
      FuelBounds(s.workers[w]);
    }
    SumNonNegative(Fuels(s.workers));
  }

  lemma {:induction false} RunFuel(s: State, ls: seq<Label>)
    requires Inv(s)
    ensures ActiveSteps(s, ls) + TotalFuel(Run(s, ls)) <= TotalFuel(s) + 91 * CallsStarted(s, ls)
    decreases |ls|
  {
    if ls != [] {
      var l, next, rest := ls[0], Step(s, ls[0]), ls[1..];
      StepFuel(s, l);
      StepKeepsInv(s, l);
      RunFuel(next, rest);
      assert ActiveSteps(s, ls) == (if Active(s, l) then 1 else 0) + ActiveSteps(next, rest);
      assert CallsStarted(s, ls) == (if Starts(s, l) then 1 else 0) + CallsStarted(next, rest);
      assert Run(s, ls) == Run(next, rest);
    }
  }

  /** Every run of any mix of strategies performs at most 91 statements per call. */
  lemma StepsAreBounded(s: State, ls: seq<Label>)
    requires Init(s)
    ensures ActiveSteps(s, ls) <= 91 * CallsStarted(s, ls)
  {
    InitInv(s);
    RunFuel(s, ls);
    RunKeepsInv(s, ls);
    TotalFuelNonNegative(Run(s, ls));
    assert TotalFuel(s) == 0 by {
      assert Fuels(s.workers) == map[];
    }
  }

  predicate AllOver(s: State) {
    forall w | w in s.workers :: Over(s.workers[w].pc)
  }

  lemma AdvanceOne(s: State) returns (l: Label)
    requires Inv(s) && OrderInv(s) && !AllOver(s)
    ensures l.Statement? && Inv(Step(s, l)) && OrderInv(Step(s, l))
    ensures TotalFuel(Step(s, l)) <= TotalFuel(s) - 1
  {
    var some :| some in s.workers && !Over(s.workers[some].pc);
    assert Unfinished(s, some);
    SomeoneCanStep(s);
    var w :| Unfinished(s, w) && forall appClock :: !Stmt(s, w, appClock).Wait?;
    l := Statement(w, 0);
    ActiveFuel(s, l);
    StepKeepsInv(s, l);
    StepKeepsOrder(s, l);
  }

  /**
   From every state that calls of Fix B can reach, statements alone finish every call, without
   aborting anyone: there is always somebody who can go on, and not for ever.
   */
  lemma {:induction false} EveryCallCanFinish(s: State) returns (ls: seq<Label>)
    requires Inv(s) && OrderInv(s)
    ensures AllOver(Run(s, ls)) && |ls| <= TotalFuel(s)
    ensures forall l | l in ls :: l.Statement?
    decreases TotalFuel(s)
  {
    TotalFuelNonNegative(s);
    if AllOver(s) {
      ls := [];
    } else {
      var l := AdvanceOne(s);
      TotalFuelNonNegative(Step(s, l));
      var rest := EveryCallCanFinish(Step(s, l));
      ls := [l] + rest;
      assert ls[1..] == rest;
    }
  }
}
