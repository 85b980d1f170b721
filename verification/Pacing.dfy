/** The backoff as a law of the clock: how long an event that failed is left alone. */
module Pacing {
  import opened Types
  import opened Outbox
  import opened Delivery
  import opened Leases
  import opened Settling
  import opened Sums

  // ------------------------------------------------------- from one failure on

  /** A pending row stays as it is until its time has come, unless a mark reaches it. */
  lemma {:induction false} PendingStands(s: State, ls: seq<Label>, id: Id, next: int)
    requires id in s.rows && s.rows[id].status.Pending? && s.rows[id].next == Some(next)
    requires Run(s, ls).clock < next && Unmarked(s, ls, id)
    ensures id in Run(s, ls).rows && Run(s, ls).rows[id] == s.rows[id]
    decreases |ls|
  {
    if ls != [] {
      ClockGrows(Step(s, ls[0]), ls[1..]);
      PendingStands(Step(s, ls[0]), ls[1..], id, next);
    }
  }

  /**
   When a failure mark leaves an event pending after its k-th attempt, no poller claims it again
   for 5 * 2^k seconds, whatever all of them do meanwhile, unless another mark reaches it.
   */
  lemma FailureRests(s: State, p: PollerId, jitter: int, ls: seq<Label>, q: PollerId, ids: seq<Id>)
    requires CanLand(s, p, jitter) && s.batches[p][0].mark == Some(AsFailed)
    requires var id := s.batches[p][0].id;
      var after := Step(s, Land(p, jitter));
      after.rows[id].status.Pending? && Unmarked(after, ls, id) && id in ids
    requires CanPoll(Run(Step(s, Land(p, jitter)), ls), q, ids)
    ensures var id := s.batches[p][0].id;
      var k := Step(s, Land(p, jitter)).rows[id].attempts;
      && k == s.rows[id].attempts + 1
      && Run(Step(s, Land(p, jitter)), ls).clock >= s.clock + 5_000_000 * Power2(k)
  {
    var id := s.batches[p][0].id;
    var after := Step(s, Land(p, jitter));
    var end := Run(after, ls);
    var next := after.rows[id].next.value;
    if end.clock < next {
      PendingStands(after, ls, id, next);
    }
  }

  // ------------------------------------------------ from the event to its end

  /** The shortest time in which k failures can follow one another. */
  function Paced(k: nat): int {
    5_000_000 * (Power2(k + 1) - 2)
  }

  /** An event that did not exist before this moment has kept its distance from every failure. */
  predicate PaceOk(row: Row, t: Tally, now: int, start: int) {
    match row.status
    case Pending => row.attempts > 0 ==> row.next.Some? && row.next.value >= start + Paced(row.attempts)
    case InFlight => now >= start + Paced(row.attempts)
    case Delivered => true
    case DeadLetter => t.dead == 0 ==> now >= start + 1_270_000_000
  }

  predicate Pace(s: State, id: Id, start: int) {
    start <= s.clock && (id in s.rows ==> PaceOk(s.rows[id], TallyOf(s, id), s.clock, start))
  }

  lemma PacedEnds()
    ensures Paced(0) == 0 && Paced(7) == 1_270_000_000
  {
    assert Power2(1) == 2;
    assert Power2(8) == 256 by {
      assert Power2(4) == 16;
    }
  }

  lemma ClaimKeepsPace(row: Row, t: Tally, now: int, start: int)
    requires Claimable(row, now) && PaceOk(row, t, now, start) && start <= now
    ensures PaceOk(ClaimRow(row, now), t.(claims := t.claims + 1), now, start)
  {
    PacedEnds();
  }

  lemma MarkKeepsPace(row: Row, mark: Mark, t: Tally, now: int, jitter: int, start: int)
    requires row.status.InFlight? && row.attempts < 8 && PaceOk(row, t, now, start) && IsJitter(jitter)
    ensures PaceOk(MarkRow(row, mark, now, MAX_DELIVERIES, jitter), CountMark(t, mark), now, start)
  {
    PacedEnds();
    assert Paced(row.attempts + 1) == Paced(row.attempts) + 5_000_000 * Power2(row.attempts + 1);
  }

  lemma PollKeepsPace(s: State, p: PollerId, ids: seq<Id>, id: Id, start: int)
    requires CanPoll(s, p, ids) && Pace(s, id, start) && s.tallies.Keys == s.rows.Keys
    ensures Pace(PollStep(s, p, ids), id, start)
  {
    if id in ids {
      ClaimKeepsPace(s.rows[id], s.tallies[id], s.clock, start);
    }
  }

  lemma LandKeepsPace(solo: bool, s: State, p: PollerId, jitter: int, id: Id, start: int)
    requires SafeInv(s) && LeaseInv(solo, s) && CanLand(s, p, jitter) && Disciplined(solo, s, Land(p, jitter))
    requires Pace(s, id, start)
    ensures Pace(LandStep(s, p, jitter), id, start)
  {
    LandKeepsLease(solo, s, p, jitter);
    if id == s.batches[p][0].id {
      assert RowOk(s.rows[id], s.clock);
      MarkKeepsPace(s.rows[id], s.batches[p][0].mark.value, s.tallies[id], s.clock, jitter, start);
    }
  }

  lemma StepKeepsPace(solo: bool, s: State, l: Label, id: Id, start: int)
    requires SafeInv(s) && LeaseInv(solo, s) && Disciplined(solo, s, l) && Pace(s, id, start)
    ensures Pace(Step(s, l), id, start)
  {
    if l.Poll? && CanPoll(s, l.p, l.ids) {
      PollKeepsPace(s, l.p, l.ids, id, start);
    } else if l.Land? && CanLand(s, l.p, l.jitter) {
      LandKeepsPace(solo, s, l.p, l.jitter, id, start);
    }
  }

  lemma {:induction false} RunKeepsPace(solo: bool, s: State, ls: seq<Label>, id: Id, start: int)
    requires SafeInv(s) && LeaseInv(solo, s) && DisciplinedRun(solo, s, ls) && Pace(s, id, start)
    ensures Pace(Run(s, ls), id, start)
    decreases |ls|
  {
    if ls != [] {
      StepKeepsPace(solo, s, ls[0], id, start);
      StepKeepsSafe(s, ls[0]);
      StepKeepsLease(solo, s, ls[0]);
      RunKeepsPace(solo, Step(s, ls[0]), ls[1..], id, start);
    }
  }

  /**
   Under the lease discipline an event that is given up, although no answer rejected it, has been
   tried for at least 1270 seconds since it was inserted.
   */
  lemma GivenUpAfter(solo: bool, clock: int, before: seq<Label>, ls: seq<Label>, id: Id)
    requires DisciplinedRun(solo, Start(clock), before) && id !in Run(Start(clock), before).rows
    requires DisciplinedRun(solo, Run(Start(clock), before), ls) && id in Run(Run(Start(clock), before), ls).rows
    ensures var end := Run(Run(Start(clock), before), ls);
      end.rows[id].status.DeadLetter? && TallyOf(end, id).rejected == 0 ==>
        end.clock >= Run(Start(clock), before).clock + 1_270_000_000
  {
    var s := Run(Start(clock), before);
    StartSafe(clock);
    StartLease(solo, clock);
    RunEarns(Start(clock), before);
    LeasesExclusive(solo, Start(clock), before);
    RunEarns(s, ls);
    RunKeepsPace(solo, s, ls, id, s.clock);
    assert Earned(Run(s, ls), id);
    SumNonNegative(DueCounts(Run(s, ls).batches, id, AsDeadLetter));
  }
}
