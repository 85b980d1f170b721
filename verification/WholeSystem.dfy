/** Transfers and their delivery together: the outbox table is where the two meet. */
module WholeSystem {
  import opened Types
  import opened AtomicLedger
  import opened Outbox
  import P = Protocol
  import D = Delivery
  import ProtocolInvariant
  import ProtocolSteps
  import Refinement

  datatype System = System(ledger: P.State, delivery: D.State)

  datatype Move = LedgerMove(l: P.Label) | PollerMove(d: D.Label)

  /** Committed outbox inserts become rows for the pollers in the same step. */
  function InsertAll(delivery: D.State, events: seq<Event>): D.State
    decreases |events|
  {
    if events == [] then delivery else InsertAll(D.Step(delivery, D.Insert(events[0])), events[1..])
  }

  function NewEvents(before: Db, after: Db): seq<Event> {
    if |before.outbox| <= |after.outbox| then after.outbox[|before.outbox|..] else []
  }

  function Step(s: System, m: Move): System {
    match m
    case LedgerMove(l) =>
      var next := P.Step(s.ledger, l);
      System(next, InsertAll(s.delivery, NewEvents(s.ledger.db, next.db)))
    case PollerMove(d) => if d.Insert? then s else s.(delivery := D.Step(s.delivery, d))
  }

  function Run(s: System, ms: seq<Move>): System
    decreases |ms|
  {
    if ms == [] then s else Run(Step(s, ms[0]), ms[1..])
  }

  /** Each event is one row, unchanged, and each row is one of the events. */
  ghost predicate Mirrored(events: seq<Event>, rows: map<Id, Row>) {
    && (forall e | e in events :: e.id in rows && rows[e.id].event == e)
    && (forall id | id in rows :: rows[id].event in events && rows[id].event.id == id)
  }

  ghost predicate Mirrors(db: Db, rows: map<Id, Row>) {
    Mirrored(db.outbox, rows)
  }

  ghost predicate SystemInv(s: System) {
    && ProtocolInvariant.Inv(s.ledger)
    && D.SafeInv(s.delivery)
    && Mirrors(s.ledger.db, s.delivery.rows)
  }

  lemma {:induction false} InsertAllMirrors(delivery: D.State, done: seq<Event>, events: seq<Event>)
    requires D.SafeInv(delivery) && Mirrored(done, delivery.rows)
    requires forall i, j | 0 <= i < j < |done + events| :: (done + events)[i].id != (done + events)[j].id
    ensures D.SafeInv(InsertAll(delivery, events)) && Mirrored(done + events, InsertAll(delivery, events).rows)
    decreases |events|
  {
    if events == [] {
      assert done + events == done;
    } else {
      var e := events[0];
      assert done + events == done + [e] + events[1..];
      forall d | d in done ensures d.id != e.id {
        var i :| 0 <= i < |done| && done[i] == d;
        assert (done + events)[i] == d && (done + events)[|done|] == e;
      }
      D.StepKeepsSafe(delivery, D.Insert(e));
      assert Mirrored(done + [e], D.Step(delivery, D.Insert(e)).rows);
      InsertAllMirrors(D.Step(delivery, D.Insert(e)), done + [e], events[1..]);
    }
  }

  /** Before the first call, with the pollers' rows those of the events already committed. */
  lemma StartSystem(ledger: P.State, clock: int)
    requires ProtocolInvariant.Init(ledger)
    ensures SystemInv(System(ledger, InsertAll(D.Start(clock), ledger.db.outbox)))
  {
    ProtocolInvariant.InitInv(ledger);
    D.StartSafe(clock);
    assert [] + ledger.db.outbox == ledger.db.outbox;
    InsertAllMirrors(D.Start(clock), [], ledger.db.outbox);
  }

  lemma OutboxGrows(s: P.State, l: P.Label)
    requires ProtocolInvariant.Inv(s)
    ensures var next := P.Step(s, l).db;
      next.outbox == s.db.outbox || (|next.outbox| == |s.db.outbox| + 1 && next.outbox[..|s.db.outbox|] == s.db.outbox)
  {
    Refinement.StepRefines(s, l);
    var ops := P.Committed(s, l);
    if ops != [] {
      assert ops == [ops[0]];
      FoldOne(s.db, ops[0]);
    }
  }

  lemma InsertMirrors(before: Db, after: Db, delivery: D.State)
    requires Mirrors(before, delivery.rows) && D.SafeInv(delivery) && OutboxOk(after)
    requires |after.outbox| == |before.outbox| + 1 && after.outbox[..|before.outbox|] == before.outbox
    ensures var next := InsertAll(delivery, NewEvents(before, after));
      Mirrors(after, next.rows) && D.SafeInv(next)
  {
    var e := after.outbox[|before.outbox|];
    assert NewEvents(before, after) == [e];
    assert after.outbox == before.outbox + [e];
    InsertAllMirrors(delivery, before.outbox, [e]);
  }

  lemma LedgerMoveKeeps(s: System, l: P.Label)
    requires SystemInv(s)
    ensures SystemInv(Step(s, LedgerMove(l)))
  {
    var next := P.Step(s.ledger, l);
    ProtocolSteps.StepKeepsInv(s.ledger, l);
    OutboxGrows(s.ledger, l);
    if next.db.outbox == s.ledger.db.outbox {
      assert NewEvents(s.ledger.db, next.db) == [];
    } else {
      InsertMirrors(s.ledger.db, next.db, s.delivery);
    }
  }

  lemma PollerKeepsEvents(s: D.State, d: D.Label)
    requires !d.Insert?
    ensures D.Step(s, d).rows.Keys == s.rows.Keys
    ensures forall id | id in s.rows :: D.Step(s, d).rows[id].event == s.rows[id].event
  {
  }

  lemma PollerMoveKeeps(s: System, d: D.Label)
    requires SystemInv(s) && !d.Insert?
    ensures SystemInv(Step(s, PollerMove(d)))
  {
    D.StepKeepsSafe(s.delivery, d);
    PollerKeepsEvents(s.delivery, d);
  }

  lemma {:induction false} RunKeepsSystem(s: System, ms: seq<Move>)
    requires SystemInv(s)
    ensures SystemInv(Run(s, ms))
    decreases |ms|
  {
    if ms != [] {
      match ms[0] {
        case LedgerMove(l) => LedgerMoveKeeps(s, l);
        case PollerMove(d) =>
          if !d.Insert? {
            PollerMoveKeeps(s, d);
          }
      }
      RunKeepsSystem(Step(s, ms[0]), ms[1..]);
    }
  }

  /** The i-th transfer and its event, as the pollers see it. */
  ghost predicate Corresponds(db: Db, rows: map<Id, Row>, i: nat)
    requires i < |db.transfers| == |db.outbox|
  {
    var e := db.outbox[i];
    e.id in rows && rows[e.id].event == e && e.kind == TRANSFER_CREATED && e.payload == db.transfers[i]
  }

  /** A row belongs to the i-th transfer and no other. */
  ghost predicate RowOf(db: Db, id: Id, i: nat) {
    i < |db.outbox| && forall j | 0 <= j < |db.outbox| :: db.outbox[j].id == id <==> j == i
  }

  ghost predicate OneToOne(db: Db, rows: map<Id, Row>) {
    && |db.transfers| == |db.outbox|
    && (forall i | 0 <= i < |db.transfers| :: Corresponds(db, rows, i))
    && (forall id | id in rows :: exists i: nat :: RowOf(db, id, i))
  }

  lemma MirrorsOneToOne(db: Db, rows: map<Id, Row>)
    requires Mirrors(db, rows) && OutboxOk(db)
    ensures OneToOne(db, rows)
  {
    forall i | 0 <= i < |db.transfers| ensures Corresponds(db, rows, i) {
      assert db.outbox[i] in db.outbox;
    }
    forall id | id in rows ensures exists i: nat :: RowOf(db, id, i) {
      var i :| 0 <= i < |db.outbox| && db.outbox[i] == rows[id].event;
      assert RowOf(db, id, i);
    }
  }

  /**
   In every reachable state, with any number of calls, pollers, crashes and late marks,
   transfers and outbox rows correspond one to one: every transfer has its row with matching
   payload, and every row is the row of exactly one transfer.
   */
  lemma EventsMatchTransfers(s: System, ms: seq<Move>)
    requires SystemInv(s)
    ensures OneToOne(Run(s, ms).ledger.db, Run(s, ms).delivery.rows)
  {
    RunKeepsSystem(s, ms);
    MirrorsOneToOne(Run(s, ms).ledger.db, Run(s, ms).delivery.rows);
  }
}
