/** Requests served one after another on the machine: what the one-call specification says, call by call. */
module Sequences {
  import opened Types
  import opened AtomicLedger
  import opened Protocol
  import opened ProtocolInvariant
  import opened ProtocolSteps
  import opened LedgerSpec
  import opened SoloRun
  import opened StepBound

  /** A request, the time before it arrives, and the application's clock then. */
  datatype Visit = Visit(req: Request, delay: nat, appClock: int)

  function ArrivalsOf(clock: int, visits: seq<Visit>): seq<Arrival>
    decreases |visits|
  {
    if visits == [] then []
    else
      var now := clock + visits[0].delay;
      [Arrival(visits[0].req, now, visits[0].appClock)] + ArrivalsOf(now, visits[1..])
  }

  /** Nobody is at work, the tables are consistent, and workers from this number on are still to come. */
  ghost predicate Resting(s: State, first: WorkerId) {
    && (forall w | w in s.workers :: w < first && s.workers[w].tx == NO_TX)
    && s.locks == map[] && DbInv(s.db) && FreshFrom(s.db, s.nextStamp)
  }

  /** Every reachable state in which all calls are over is at rest. */
  lemma RestingWhenOver(s: State, first: WorkerId)
    requires Inv(s) && AllOver(s) && forall w | w in s.workers :: w < first
    ensures Resting(s, first)
  {
    forall w | w in s.workers ensures s.workers[w].tx == NO_TX {
      assert WorkerOk(s.db, s.locks, w, s.workers[w]);
    }
  }

  ghost predicate OthersSame(s: State, end: State) {
    forall u | u in s.workers :: u in end.workers && end.workers[u] == s.workers[u]
  }

  function Arriving(strategy: Strategy, v: Visit, first: WorkerId): seq<Label> {
    [Tick(v.delay), Spawn(first, strategy, v.req)]
  }

  lemma ArrivedIs(s: State, strategy: Strategy, v: Visit, first: WorkerId)
    requires first !in s.workers
    ensures Run(s, Arriving(strategy, v, first)) ==
      s.(clock := s.clock + v.delay, workers := s.workers[first := Worker(strategy, v.req, Guard, 0, NO_TX)])
  {
    var ls := Arriving(strategy, v, first);
    var mid := Step(s, ls[0]);
    assert ls[1..] == [Spawn(first, strategy, v.req)] && ls[1..][1..] == [];
    assert Run(s, ls) == Run(mid, ls[1..]) == Run(Step(mid, ls[1..][0]), ls[1..][1..]);
  }

  lemma Arrive(s: State, strategy: Strategy, v: Visit, first: WorkerId) returns (arrived: State)
    requires Resting(s, first)
    ensures arrived == Run(s, Arriving(strategy, v, first)) && Starting(arrived, first) && FreshStamp(s.db, s.nextStamp)
    ensures arrived.workers.Keys == s.workers.Keys + {first} && OthersSame(s, arrived)
    ensures arrived.workers[first] == Worker(strategy, v.req, Guard, 0, NO_TX)
    ensures arrived.db == s.db && arrived.clock == s.clock + v.delay && arrived.nextStamp == s.nextStamp
  {
    arrived := Run(s, Arriving(strategy, v, first));
    ArrivedIs(s, strategy, v, first);
    assert FreshStamp(s.db, s.nextStamp);
  }

  /** Nobody is at work again. */
  lemma RestsAgain(s: State, arrived: State, end: State, first: WorkerId)
    requires (forall w | w in s.workers :: w < first && s.workers[w].tx == NO_TX)
    requires arrived.workers.Keys == s.workers.Keys + {first} && OthersSame(s, arrived)
    requires OnlyCall(arrived, end, first) && end.workers[first].tx == NO_TX
    ensures (forall w | w in end.workers :: w < first + 1 && end.workers[w].tx == NO_TX) && OthersSame(s, end)
  {
  }

  /** The call that has arrived runs alone to its end. */
  lemma VisitCall(s: State, w: WorkerId, strategy: Strategy, req: Request, appClock: int)
    returns (end: State, moves: seq<Label>)
    requires Starting(s, w) && s.workers[w] == Worker(strategy, req, Guard, 0, NO_TX) && GuardError(strategy, req).None?
    ensures end == Run(s, moves) && OnlyCall(s, end, w) && end.nextStamp == s.nextStamp + 1
    ensures EndsAs(end, w, Call(s.db, strategy, req, s.nextStamp, s.clock, appClock))
  {
    var n := SoloCall(s, w, appClock);
    moves := Moves(w, appClock, n);
    end := Run(s, moves);
    RunIsOnlyCall(s, w, appClock, n);
  }

  /** The tables a call leaves are consistent, and so is the supply of ids. */
  lemma TablesAfter(end: State, w: WorkerId, db: Db, strategy: Strategy, req: Request, stamp: Id, now: int,
                    appClock: int)
    requires DbInv(db) && FreshFrom(db, stamp) && FreshStamp(db, stamp)
    requires EndsAs(end, w, Call(db, strategy, req, stamp, now, appClock)) && end.nextStamp == stamp + 1
    ensures DbInv(end.db) && FreshFrom(end.db, end.nextStamp)
  {
    CallKeepsDbInv(db, strategy, req, stamp, now, appClock);
    CallKeepsFresh(db, strategy, req, stamp, now, appClock);
  }

  /** The tables and the answer a call has left. */
  ghost predicate ReturnsTo(end: State, w: WorkerId, after: (Db, Outcome)) {
    w in end.workers && end.workers[w].pc == Finished(after.1) && end.db == after.0
  }

  /** The call that has arrived leaves the system at rest. */
  lemma VisitRests(s: State, arrived: State, strategy: Strategy, v: Visit, first: WorkerId, now: int,
                   after: (Db, Outcome))
    returns (end: State, moves: seq<Label>)
    requires Resting(s, first) && GuardError(strategy, v.req).None? && FreshStamp(s.db, s.nextStamp)
    requires Starting(arrived, first) && arrived.workers[first] == Worker(strategy, v.req, Guard, 0, NO_TX)
    requires arrived.workers.Keys == s.workers.Keys + {first} && OthersSame(s, arrived)
    requires arrived.db == s.db && arrived.nextStamp == s.nextStamp && arrived.clock == now
    requires after == Call(s.db, strategy, v.req, s.nextStamp, now, v.appClock)
    ensures end == Run(arrived, moves) && Resting(end, first + 1) && OthersSame(s, end)
    ensures end.clock == now && end.nextStamp == s.nextStamp + 1
    ensures ReturnsTo(end, first, after)
  {
    end, moves := VisitCall(arrived, first, strategy, v.req, v.appClock);
    RestsAgain(s, arrived, end, first);
    TablesAfter(end, first, s.db, strategy, v.req, s.nextStamp, now, v.appClock);
  }

  /** One visit: the call arrives, runs alone, and leaves the system at rest. */
  lemma OneVisit(s: State, strategy: Strategy, v: Visit, first: WorkerId)
    returns (end: State, ls: seq<Label>, after: (Db, Outcome))
    requires Resting(s, first) && GuardError(strategy, v.req).None?
    ensures end == Run(s, ls) && Resting(end, first + 1) && OthersSame(s, end)
    ensures end.clock == s.clock + v.delay && end.nextStamp == s.nextStamp + 1 && FreshStamp(s.db, s.nextStamp)
    ensures ReturnsTo(end, first, after)
    ensures after == Call(s.db, strategy, v.req, s.nextStamp, s.clock + v.delay, v.appClock)
  {
    var arrived := Arrive(s, strategy, v, first);
    after := Call(s.db, strategy, v.req, s.nextStamp, s.clock + v.delay, v.appClock);
    var moves;
    end, moves := VisitRests(s, arrived, strategy, v, first, s.clock + v.delay, after);
    ls := Arriving(strategy, v, first) + moves;
    RunConcat(s, Arriving(strategy, v, first), moves);
  }

  /** What the calls from this number on have answered. */
  ghost predicate AnsweredFrom(s: State, first: WorkerId, outcomes: seq<Outcome>) {
    forall i | first <= i < first + |outcomes| ::
      i in s.workers && s.workers[i].pc == Finished(outcomes[i - first])
  }

  lemma AnsweredMore(mid: State, end: State, first: WorkerId, o: Outcome, rest: seq<Outcome>)
    requires first in mid.workers && mid.workers[first].pc == Finished(o) && OthersSame(mid, end)
    requires AnsweredFrom(end, first + 1, rest)
    ensures AnsweredFrom(end, first, [o] + rest)
  {
  }

  /** The machine ends a sequence as CallAll says. */
  ghost predicate Served(s: State, end: State, strategy: Strategy, visits: seq<Visit>, first: WorkerId)
    requires AccountsOk(s.db) && FreshFrom(s.db, s.nextStamp)
  {
    var all := CallAll(s.db, strategy, ArrivalsOf(s.clock, visits), s.nextStamp);
    end.db == all.0 && |all.1| == |visits| && AnsweredFrom(end, first, all.1)
  }

  lemma ServedMore(s: State, mid: State, end: State, strategy: Strategy, visits: seq<Visit>, first: WorkerId)
    requires visits != [] && AccountsOk(s.db) && FreshFrom(s.db, s.nextStamp) && FreshStamp(s.db, s.nextStamp)
    requires AccountsOk(mid.db) && FreshFrom(mid.db, mid.nextStamp)
    requires mid.clock == s.clock + visits[0].delay && mid.nextStamp == s.nextStamp + 1
    requires ReturnsTo(mid, first, Call(s.db, strategy, visits[0].req, s.nextStamp, mid.clock, visits[0].appClock))
    requires OthersSame(mid, end) && Served(mid, end, strategy, visits[1..], first + 1)
    ensures Served(s, end, strategy, visits, first)
  {
    var arrivals := ArrivalsOf(s.clock, visits);
    assert arrivals[1..] == ArrivalsOf(mid.clock, visits[1..]);
    var rest := CallAll(mid.db, strategy, arrivals[1..], mid.nextStamp);
    AnsweredMore(mid, end, first, mid.workers[first].pc.outcome, rest.1);
  }

  /** Requests served one after another: the machine leaves the tables and the answers of CallAll. */
  lemma {:induction false} SoloSequence(s: State, strategy: Strategy, visits: seq<Visit>, first: WorkerId)
    returns (end: State, ls: seq<Label>)
    requires Resting(s, first)
    requires forall v | v in visits :: GuardError(strategy, v.req).None?
    ensures AccountsOk(s.db) && FreshFrom(s.db, s.nextStamp)
    ensures end == Run(s, ls) && OthersSame(s, end) && Served(s, end, strategy, visits, first)
    decreases |visits|
  {
    if visits == [] {
      end, ls := s, [];
    } else {
      var mid, a, after := OneVisit(s, strategy, visits[0], first);
      var b;
      end, b := SoloSequence(mid, strategy, visits[1..], first + 1);
      RunConcat(s, a, b);
      ServedMore(s, mid, end, strategy, visits, first);
      ls := a + b;
    }
  }

  lemma {:induction false} GuardsOf(clock: int, visits: seq<Visit>)
    requires forall v | v in visits :: GuardError(Conditional, v.req).None?
    ensures forall a | a in ArrivalsOf(clock, visits) :: GuardError(Conditional, a.req).None?
    decreases |visits|
  {
    if visits != [] {
      GuardsOf(clock + visits[0].delay, visits[1..]);
    }
  }

  /**
   On the machine, every sequence of requests that pass the checks of Execute is served alike by
   Fix A and by Fix B: the same tables in the end, and the same answers on the way.
   */
  lemma SequencesRunAlike(s: State, visits: seq<Visit>, first: WorkerId)
    returns (x: State, y: State, a: seq<Label>, b: seq<Label>)
    requires Resting(s, first)
    requires forall v | v in visits :: GuardError(Conditional, v.req).None?
    ensures x == Run(s, a) && y == Run(s, b) && x.db == y.db
    ensures forall i | first <= i < first + |visits| ::
      i in x.workers && i in y.workers && x.workers[i].pc.Finished? && x.workers[i].pc == y.workers[i].pc
    ensures AccountsOk(s.db) && FreshFrom(s.db, s.nextStamp)
    ensures Served(s, x, Conditional, visits, first) && Served(s, y, ForUpdate, visits, first)
  {
    x, a := SoloSequence(s, Conditional, visits, first);
    y, b := SoloSequence(s, ForUpdate, visits, first);
    GuardsOf(s.clock, visits);
    StrategiesEquivalent(s.db, ArrivalsOf(s.clock, visits), s.nextStamp);
  }
}
