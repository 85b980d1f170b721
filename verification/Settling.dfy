/** Counting claims: how many it can take before an event is delivered or given up. */
module Settling {
  import opened Types
  import opened Outbox
  import opened Delivery
  import opened Leases
  import opened Sums

  function HeldCounts(batches: map<PollerId, seq<Claim>>, id: Id): map<int, int> {
    map p: int | p in batches :: ClaimsOn(batches[p], id)
  }

  /** Claims on an event still in the hands of some poller. */
  ghost function Held(s: State, id: Id): int {
    SumMap(HeldCounts(s.batches, id))
  }

  /** Every claim was marked, was abandoned, or is still held. */
  ghost predicate Accounted(s: State, id: Id) {
    var t := TallyOf(s, id);
    t.claims == t.delivered + t.dead + t.failed + t.abandoned + Held(s, id)
  }

  ghost predicate AllAccounted(s: State) {
    forall id | id in s.rows :: Accounted(s, id)
  }

  lemma BatchChanges(batches: map<PollerId, seq<Claim>>, p: PollerId, batch: seq<Claim>, id: Id)
    ensures SumMap(HeldCounts(batches[p := batch], id))
         == SumMap(HeldCounts(batches, id)) + ClaimsOn(batch, id)
          - (if p in batches then ClaimsOn(batches[p], id) else 0)
  {
    assert HeldCounts(batches[p := batch], id) == HeldCounts(batches, id)[p := ClaimsOn(batch, id)];
    SumUpdate(HeldCounts(batches, id), p, ClaimsOn(batch, id));
  }

  lemma {:induction false} NewClaimsOn(ids: seq<Id>, now: int, id: Id)
    requires Distinct(ids)
    ensures ClaimsOn(ClaimsFor(ids, now), id) == if id in ids then 1 else 0
    decreases |ids|
  {
    if ids != [] {
      assert ClaimsFor(ids, now)[1..] == ClaimsFor(ids[1..], now);
      NewClaimsOn(ids[1..], now, id);
      assert ids == [ids[0]] + ids[1..];
      assert forall i | 0 <= i < |ids[1..]| :: ids[1..][i] == ids[i + 1];
    }
  }

  lemma {:induction false} NoClaimsOn(batch: seq<Claim>, id: Id)
    requires forall c | c in batch :: c.id != id
    ensures ClaimsOn(batch, id) == 0
  {
    if batch != [] {
      NoClaimsOn(batch[1..], id);
    }
  }

  lemma InsertAccounted(s: State, event: Event)
    requires SafeInv(s) && event.id !in s.rows
    ensures Held(s, event.id) == 0
  {
    forall p: PollerId | p in s.batches ensures ClaimsOn(s.batches[p], event.id) == 0 {
      NoClaimsOn(s.batches[p], event.id);
    }
    SumZero(HeldCounts(s.batches, event.id));
  }

  lemma PollAccounted(s: State, p: PollerId, ids: seq<Id>, id: Id)
    requires SafeInv(s) && CanPoll(s, p, ids) && id in s.rows && Accounted(s, id)
    ensures Accounted(PollStep(s, p, ids), id)
  {
    NewClaimsOn(ids, s.clock, id);
    BatchChanges(s.batches, p, ClaimsFor(ids, s.clock), id);
  }

  lemma AnswerAccounted(s: State, p: PollerId, response: Response, id: Id)
    requires CanAnswer(s, p) && Accounted(s, id)
    ensures Accounted(AnswerStep(s, p, response), id)
  {
    var batch := AnswerStep(s, p, response).batches[p];
    assert batch[1..] == s.batches[p][1..];
    BatchChanges(s.batches, p, batch, id);
  }

  lemma LandAccounted(s: State, p: PollerId, jitter: int, id: Id)
    requires CanLand(s, p, jitter) && Accounted(s, id)
    ensures Accounted(LandStep(s, p, jitter), id)
  {
    BatchChanges(s.batches, p, s.batches[p][1..], id);
  }

  lemma DropAccounted(s: State, l: Label, id: Id)
    requires SafeInv(s) && (l.Lose? || l.Stop?) && Busy(s, l.p) && id in s.rows && Accounted(s, id)
    ensures Accounted(Step(s, l), id)
  {
    if l.Lose? {
      var batch := s.batches[l.p];
      assert batch[..1][1..] == [] && ClaimsOn(batch[..1], id) == (if batch[0].id == id then 1 else 0);
      BatchChanges(s.batches, l.p, s.batches[l.p][1..], id);
    } else {
      BatchChanges(s.batches, l.p, [], id);
    }
  }

  lemma StepAccounted(s: State, l: Label)
    requires SafeInv(s) && AllAccounted(s)
    ensures AllAccounted(Step(s, l))
  {
    forall id | id in Step(s, l).rows ensures Accounted(Step(s, l), id) {
      if id !in s.rows {
        InsertAccounted(s, l.event);
      } else {
        assert Accounted(s, id);
        if l.Poll? && CanPoll(s, l.p, l.ids) {
          PollAccounted(s, l.p, l.ids, id);
        } else if l.Answer? && CanAnswer(s, l.p) {
          AnswerAccounted(s, l.p, l.response, id);
        } else if l.Land? && CanLand(s, l.p, l.jitter) {
          LandAccounted(s, l.p, l.jitter, id);
        } else if (l.Lose? || l.Stop?) && Busy(s, l.p) {
          DropAccounted(s, l, id);
        }
      }
    }
  }

  // ------------------------------------------------------- marks and answers

  /** Claims of the batch for which this mark has been decided on but not yet written. */
  function DueOn(batch: seq<Claim>, id: Id, mark: Mark): nat {
    if batch == [] then 0
    else (if batch[0].id == id && batch[0].mark == Some(mark) then 1 else 0) + DueOn(batch[1..], id, mark)
  }

  function DueCounts(batches: map<PollerId, seq<Claim>>, id: Id, mark: Mark): map<int, int> {
    map p: int | p in batches :: DueOn(batches[p], id, mark)
  }

  ghost function Due(s: State, id: Id, mark: Mark): int {
    SumMap(DueCounts(s.batches, id, mark))
  }

  /** Every failure mark, written or due, has an answer of its own that earned it. */
  ghost predicate Earned(s: State, id: Id) {
    var t := TallyOf(s, id);
    && t.failed + Due(s, id, AsFailed) <= t.unserved
    && t.dead + Due(s, id, AsDeadLetter) <= t.rejected
  }

  ghost predicate AllEarned(s: State) {
    forall id | id in s.rows :: Earned(s, id)
  }

  lemma DueChanges(batches: map<PollerId, seq<Claim>>, p: PollerId, batch: seq<Claim>, id: Id, mark: Mark)
    ensures SumMap(DueCounts(batches[p := batch], id, mark))
         == SumMap(DueCounts(batches, id, mark)) + DueOn(batch, id, mark)
          - (if p in batches then DueOn(batches[p], id, mark) else 0)
  {
    assert DueCounts(batches[p := batch], id, mark) == DueCounts(batches, id, mark)[p := DueOn(batch, id, mark)];
    SumUpdate(DueCounts(batches, id, mark), p, DueOn(batch, id, mark));
  }

  lemma {:induction false} NoneDueOn(batch: seq<Claim>, id: Id, mark: Mark)
    requires forall c | c in batch :: c.id != id || c.mark != Some(mark)
    ensures DueOn(batch, id, mark) == 0
  {
    if batch != [] {
      NoneDueOn(batch[1..], id, mark);
    }
  }

  lemma NothingDue(s: State, id: Id, mark: Mark)
    requires SafeInv(s) && id !in s.rows
    ensures Due(s, id, mark) == 0
  {
    forall p: PollerId | p in s.batches ensures DueOn(s.batches[p], id, mark) == 0 {
      NoneDueOn(s.batches[p], id, mark);
    }
    SumZero(DueCounts(s.batches, id, mark));
  }

  lemma InsertEarned(s: State, event: Event)
    requires SafeInv(s) && event.id !in s.rows
    ensures Earned(Step(s, Insert(event)), event.id)
  {
    NothingDue(s, event.id, AsFailed);
    NothingDue(s, event.id, AsDeadLetter);
  }

  lemma PollEarned(s: State, p: PollerId, ids: seq<Id>, id: Id)
    requires SafeInv(s) && CanPoll(s, p, ids) && id in s.rows && Earned(s, id)
    ensures Earned(PollStep(s, p, ids), id)
  {
    var batch := ClaimsFor(ids, s.clock);
    forall mark: Mark ensures Due(PollStep(s, p, ids), id, mark) == Due(s, id, mark) {
      NoneDueOn(batch, id, mark);
      DueChanges(s.batches, p, batch, id, mark);
    }
  }

  lemma AnswerDue(s: State, p: PollerId, response: Response, id: Id, mark: Mark)
    requires CanAnswer(s, p)
    ensures var c := s.batches[p][0];
      Due(AnswerStep(s, p, response), id, mark) ==
        Due(s, id, mark) + if c.id == id && Verdict(s.rows[c.id], response) == mark then 1 else 0
  {
    var batch := AnswerStep(s, p, response).batches[p];
    assert batch[1..] == s.batches[p][1..];
    DueChanges(s.batches, p, batch, id, mark);
  }

  /** An answer is filed under what its verdict needs. */
  lemma AnswerIsFiled(t: Tally, row: Row, response: Response)
    ensures var u := CountAnswer(t, row.event.target, response);
      && u.failed == t.failed && u.dead == t.dead
      && u.unserved == t.unserved + (if Verdict(row, response) == AsFailed then 1 else 0)
      && u.rejected == t.rejected + (if Verdict(row, response) == AsDeadLetter then 1 else 0)
  {
  }

  lemma AnswerEarned(s: State, p: PollerId, response: Response, id: Id)
    requires CanAnswer(s, p) && Earned(s, id)
    ensures Earned(AnswerStep(s, p, response), id)
  {
    var c := s.batches[p][0];
    AnswerIsFiled(TallyOf(s, c.id), s.rows[c.id], response);
    AnswerDue(s, p, response, id, AsFailed);
    AnswerDue(s, p, response, id, AsDeadLetter);
  }

  lemma LandDue(s: State, p: PollerId, jitter: int, id: Id, mark: Mark)
    requires CanLand(s, p, jitter)
    ensures var c := s.batches[p][0];
      Due(LandStep(s, p, jitter), id, mark) == Due(s, id, mark) - if c.id == id && c.mark == Some(mark) then 1 else 0
  {
    DueChanges(s.batches, p, s.batches[p][1..], id, mark);
  }

  lemma LandEarned(s: State, p: PollerId, jitter: int, id: Id)
    requires CanLand(s, p, jitter) && Earned(s, id)
    ensures Earned(LandStep(s, p, jitter), id)
  {
    LandDue(s, p, jitter, id, AsFailed);
    LandDue(s, p, jitter, id, AsDeadLetter);
  }

  lemma DropEarned(s: State, l: Label, id: Id)
    requires SafeInv(s) && (l.Lose? || l.Stop?) && Busy(s, l.p) && id in s.rows && Earned(s, id)
    ensures Earned(Step(s, l), id)
  {
    var batch := if l.Lose? then s.batches[l.p][1..] else [];
    DueChanges(s.batches, l.p, batch, id, AsFailed);
    DueChanges(s.batches, l.p, batch, id, AsDeadLetter);
  }

  lemma StepEarned(s: State, l: Label)
    requires SafeInv(s) && AllEarned(s)
    ensures AllEarned(Step(s, l))
  {
    forall id | id in Step(s, l).rows ensures Earned(Step(s, l), id) {
      if id !in s.rows {
        InsertEarned(s, l.event);
      } else {
        assert Earned(s, id);
        if l.Poll? && CanPoll(s, l.p, l.ids) {
          PollEarned(s, l.p, l.ids, id);
        } else if l.Answer? && CanAnswer(s, l.p) {
          AnswerEarned(s, l.p, l.response, id);
        } else if l.Land? && CanLand(s, l.p, l.jitter) {
          LandEarned(s, l.p, l.jitter, id);
        } else if (l.Lose? || l.Stop?) && Busy(s, l.p) {
          DropEarned(s, l, id);
        }
      }
    }
  }

  lemma {:induction false} RunEarns(s: State, ls: seq<Label>)
    requires SafeInv(s) && AllEarned(s)
    ensures SafeInv(Run(s, ls)) && AllEarned(Run(s, ls))
    decreases |ls|
  {
    if ls != [] {
      StepKeepsSafe(s, ls[0]);
      StepEarned(s, ls[0]);
      RunEarns(Step(s, ls[0]), ls[1..]);
    }
  }

  /**
   Who gives up on an event: in every run from the start, whatever pollers, crashes and late
   marks do, a dead_letter row has had an answer of 4xx or a bad URL, or eight deliveries without
   an answer that settles it. A delivered one was accepted, or had no webhook to send to.
   */
  lemma VerdictsAreEarned(clock: int, ls: seq<Label>, id: Id)
    requires id in Run(Start(clock), ls).rows
    ensures var end := Run(Start(clock), ls);
      var row, t := end.rows[id], TallyOf(end, id);
      && (row.status.DeadLetter? ==> t.rejected >= 1 || t.unserved >= 8)
      && (row.status.Delivered? ==> row.event.target == None || row.event.target == Some("") || t.accepted >= 1)
      && row.attempts <= t.rejected + t.unserved
  {
    StartSafe(clock);
    RunEarns(Start(clock), ls);
    var end := Run(Start(clock), ls);
    assert Earned(end, id) && TallyOk(end.rows[id], end.tallies[id]);
    SumNonNegative(DueCounts(end.batches, id, AsFailed));
    SumNonNegative(DueCounts(end.batches, id, AsDeadLetter));
  }

  // ------------------------------------------------------------- under leases

  /** How the marks of an event add up to its status when no mark comes late. */
  predicate MarksOk(row: Row, t: Tally) {
    match row.status
    case Pending => t.delivered == 0 && t.dead == 0 && t.failed < MAX_DELIVERIES
    case InFlight => t.delivered == 0 && t.dead == 0 && t.failed < MAX_DELIVERIES
    case Delivered => t.delivered == 1 && t.dead == 0 && t.failed < MAX_DELIVERIES
    case DeadLetter => t.delivered == 0 && t.dead <= 1 && t.failed + t.dead <= MAX_DELIVERIES
                       && (t.dead == 0 ==> t.failed == MAX_DELIVERIES)
  }

  predicate AllMarksOk(s: State) {
    s.tallies.Keys == s.rows.Keys && forall id | id in s.rows :: MarksOk(s.rows[id], s.tallies[id])
  }

  lemma MarkMarksOk(row: Row, mark: Mark, t: Tally, now: int, jitter: int)
    requires row.status.InFlight? && row.attempts == t.failed + t.dead && MarksOk(row, t)
    ensures MarksOk(MarkRow(row, mark, now, MAX_DELIVERIES, jitter), CountMark(t, mark))
  {
  }

  lemma LandMarksOk(solo: bool, s: State, p: PollerId, jitter: int)
    requires SafeInv(s) && LeaseInv(solo, s) && CanLand(s, p, jitter) && Disciplined(solo, s, Land(p, jitter))
    requires AllMarksOk(s)
    ensures AllMarksOk(LandStep(s, p, jitter))
  {
    var c := s.batches[p][0];
    LandKeepsLease(solo, s, p, jitter);
    assert TallyOk(s.rows[c.id], s.tallies[c.id]);
    MarkMarksOk(s.rows[c.id], c.mark.value, s.tallies[c.id], s.clock, jitter);
  }

  lemma AnswerMarksOk(s: State, p: PollerId, response: Response)
    requires AllMarksOk(s) && CanAnswer(s, p)
    ensures AllMarksOk(AnswerStep(s, p, response))
  {
  }

  /** Only marks change what the marks add up to. */
  lemma OtherMarksOk(s: State, l: Label)
    requires AllMarksOk(s) && !(l.Land? && CanLand(s, l.p, l.jitter))
    ensures AllMarksOk(Step(s, l))
  {
    if l.Answer? && CanAnswer(s, l.p) {
      AnswerMarksOk(s, l.p, l.response);
    }
  }

  lemma StepMarksOk(solo: bool, s: State, l: Label)
    requires SafeInv(s) && LeaseInv(solo, s) && Disciplined(solo, s, l) && AllMarksOk(s)
    ensures AllMarksOk(Step(s, l))
  {
    if l.Land? && CanLand(s, l.p, l.jitter) {
      LandMarksOk(solo, s, l.p, l.jitter);
    } else {
      OtherMarksOk(s, l);
    }
  }

  /** All that runs under the discipline keep. */
  ghost predicate SettlingInv(solo: bool, s: State) {
    SafeInv(s) && LeaseInv(solo, s) && AllAccounted(s) && AllMarksOk(s)
  }

  /** Before the first event all of it holds. */
  lemma StartSettling(solo: bool, clock: int)
    ensures SettlingInv(solo, Start(clock))
  {
    StartSafe(clock);
    StartLease(solo, clock);
  }

  lemma {:induction false} RunSettles(solo: bool, s: State, ls: seq<Label>)
    requires SettlingInv(solo, s) && DisciplinedRun(solo, s, ls)
    ensures SettlingInv(solo, Run(s, ls))
    decreases |ls|
  {
    if ls != [] {
      StepKeepsSafe(s, ls[0]);
      StepKeepsLease(solo, s, ls[0]);
      StepAccounted(s, ls[0]);
      StepMarksOk(solo, s, ls[0]);
      RunSettles(solo, Step(s, ls[0]), ls[1..]);
    }
  }

  /**
   Under the discipline the attempt count is the number of failure marks, and an event that
   has been claimed eight times more than it was abandoned, and is held by nobody, is
   settled. It is delivered only after a 2xx answer or for want of a URL.
   */
  lemma EventSettles(solo: bool, s: State, ls: seq<Label>, id: Id)
    requires SettlingInv(solo, s) && DisciplinedRun(solo, s, ls)
    requires id in Run(s, ls).rows
    ensures var end := Run(s, ls);
      var row, t := end.rows[id], TallyOf(end, id);
      && row.attempts == t.failed + t.dead
      && t.claims == t.delivered + t.dead + t.failed + t.abandoned + Held(end, id)
      && t.claims <= 8 + t.abandoned + Held(end, id)
      && (t.claims >= 8 + t.abandoned + Held(end, id) ==> row.status.Delivered? || row.status.DeadLetter?)
      && (row.status.Delivered? ==> Unaddressed(row) || t.accepted > 0)
  {
    RunSettles(solo, s, ls);
    var end := Run(s, ls);
    assert Accounted(end, id) && MarksOk(end.rows[id], end.tallies[id]) && TallyOk(end.rows[id], end.tallies[id]);
  }
}
