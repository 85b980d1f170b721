/** One owner per event, settled events staying settled, and an end to retrying. */
module Leases {
  import opened Types
  import opened Outbox
  import opened Delivery
  import opened Sums

  // ---------------------------------------------------------- the discipline

  /**
   Either every mark lands before the deadline of its claim, or only one poller works at a
   time (solo). The statements themselves enforce neither.
   */
  predicate Disciplined(solo: bool, s: State, l: Label) {
    if solo then l.Poll? ==> forall q | q in s.batches && q != l.p :: s.batches[q] == []
    else l.Land? && Busy(s, l.p) ==> s.clock < Deadline(s.batches[l.p][0])
  }

  predicate DisciplinedRun(solo: bool, s: State, ls: seq<Label>)
    decreases |ls|
  {
    ls != [] ==> Disciplined(solo, s, ls[0]) && DisciplinedRun(solo, Step(s, ls[0]), ls[1..])
  }

  /** A claim that may still be marked. */
  predicate Live(solo: bool, s: State, c: Claim) {
    solo || s.clock < Deadline(c)
  }

  /** The row still carries the lease of this claim. */
  predicate Owns(s: State, c: Claim) {
    c.id in s.rows && s.rows[c.id].status.InFlight? && s.rows[c.id].next == Some(Deadline(c))
  }

  ghost predicate OwnersOk(solo: bool, s: State) {
    forall p, i | p in s.batches && 0 <= i < |s.batches[p]| ::
      Live(solo, s, s.batches[p][i]) ==> Owns(s, s.batches[p][i])
  }

  ghost predicate OneOwner(solo: bool, s: State) {
    forall p, i, q, j |
      p in s.batches && 0 <= i < |s.batches[p]| && q in s.batches && 0 <= j < |s.batches[q]| ::
      Live(solo, s, s.batches[p][i]) && Live(solo, s, s.batches[q][j]) && s.batches[p][i].id == s.batches[q][j].id
      ==> p == q && i == j
  }

  ghost predicate LeaseInv(solo: bool, s: State) {
    && OwnersOk(solo, s)
    && OneOwner(solo, s)
    && (solo ==> forall p, q |
      p in s.batches && q in s.batches && s.batches[p] != [] && s.batches[q] != [] :: p == q)
  }

  lemma StartLease(solo: bool, clock: int)
    ensures LeaseInv(solo, Start(clock))
  {
  }

  lemma PollKeepsLease(solo: bool, s: State, p: PollerId, ids: seq<Id>)
    requires LeaseInv(solo, s) && CanPoll(s, p, ids) && Disciplined(solo, s, Poll(p, ids))
    ensures LeaseInv(solo, PollStep(s, p, ids))
  {
    var next := PollStep(s, p, ids);
    forall q, i | q in s.batches && q != p && 0 <= i < |s.batches[q]| && Live(solo, s, s.batches[q][i])
      ensures s.batches[q][i].id !in ids
    {
      assert Owns(s, s.batches[q][i]);
    }
    forall i | 0 <= i < |next.batches[p]| ensures Owns(next, next.batches[p][i]) && next.batches[p][i].id in ids {
      assert ids[i] in ids;
    }
  }

  lemma AnswerKeepsLease(solo: bool, s: State, p: PollerId, response: Response)
    requires LeaseInv(solo, s) && CanAnswer(s, p)
    ensures LeaseInv(solo, AnswerStep(s, p, response))
  {
    var next := AnswerStep(s, p, response);
    forall i | 0 <= i < |next.batches[p]|
      ensures next.batches[p][i].id == s.batches[p][i].id && next.batches[p][i].at == s.batches[p][i].at
    {
    }
  }

  lemma LandKeepsLease(solo: bool, s: State, p: PollerId, jitter: int)
    requires LeaseInv(solo, s) && CanLand(s, p, jitter) && Disciplined(solo, s, Land(p, jitter))
    ensures Owns(s, s.batches[p][0])
    ensures LeaseInv(solo, LandStep(s, p, jitter))
  {
    var next := LandStep(s, p, jitter);
    var c := s.batches[p][0];
    assert Owns(s, c);
    forall q, i | q in next.batches && 0 <= i < |next.batches[q]| && Live(solo, next, next.batches[q][i])
      ensures Owns(next, next.batches[q][i])
    {
      var k := if q == p then i + 1 else i;
      assert next.batches[q][i] == s.batches[q][k];
      assert s.batches[q][k].id != c.id;
    }
    PopKeepsOneOwner(solo, s, next, p);
  }

  lemma PopKeepsOneOwner(solo: bool, s: State, next: State, p: PollerId)
    requires OneOwner(solo, s) && Busy(s, p) && next.clock == s.clock
    requires next.batches == s.batches[p := s.batches[p][1..]]
    ensures OneOwner(solo, next)
  {
    forall q, i, r, j |
      q in next.batches && 0 <= i < |next.batches[q]| && r in next.batches && 0 <= j < |next.batches[r]| &&
      Live(solo, next, next.batches[q][i]) && Live(solo, next, next.batches[r][j]) &&
      next.batches[q][i].id == next.batches[r][j].id
      ensures q == r && i == j
    {
      var k := if q == p then i + 1 else i;
      var m := if r == p then j + 1 else j;
      assert next.batches[q][i] == s.batches[q][k] && next.batches[r][j] == s.batches[r][m];
    }
  }

  lemma LoseKeepsLease(solo: bool, s: State, p: PollerId)
    requires LeaseInv(solo, s) && Busy(s, p)
    ensures LeaseInv(solo, Step(s, Lose(p)))
  {
    var next := Step(s, Lose(p));
    forall q, i | q in next.batches && 0 <= i < |next.batches[q]| && Live(solo, next, next.batches[q][i])
      ensures Owns(next, next.batches[q][i])
    {
      var k := if q == p then i + 1 else i;
      assert next.batches[q][i] == s.batches[q][k];
    }
    PopKeepsOneOwner(solo, s, next, p);
  }

  lemma StepKeepsLease(solo: bool, s: State, l: Label)
    requires LeaseInv(solo, s) && Disciplined(solo, s, l)
    ensures LeaseInv(solo, Step(s, l))
  {
    match l
    case Poll(p, ids) =>
      if CanPoll(s, p, ids) {
        PollKeepsLease(solo, s, p, ids);
      }
    case Answer(p, response) =>
      if CanAnswer(s, p) {
        AnswerKeepsLease(solo, s, p, response);
      }
    case Land(p, jitter) =>
      if CanLand(s, p, jitter) {
        LandKeepsLease(solo, s, p, jitter);
      }
    case Lose(p) =>
      if Busy(s, p) {
        LoseKeepsLease(solo, s, p);
      }
    case _ =>
  }

  /** Under the discipline every live claim owns its event and no event has two live claims. */
  lemma {:induction false} LeasesExclusive(solo: bool, s: State, ls: seq<Label>)
    requires LeaseInv(solo, s) && DisciplinedRun(solo, s, ls)
    ensures LeaseInv(solo, Run(s, ls))
    decreases |ls|
  {
    if ls != [] {
      StepKeepsLease(solo, s, ls[0]);
      LeasesExclusive(solo, Step(s, ls[0]), ls[1..]);
    }
  }

  lemma StepKeepsSettled(solo: bool, s: State, l: Label, id: Id)
    requires LeaseInv(solo, s) && Disciplined(solo, s, l)
    requires id in s.rows && Settled(s.rows[id])
    ensures id in Step(s, l).rows && Step(s, l).rows[id] == s.rows[id]
  {
    if l.Land? && CanLand(s, l.p, l.jitter) {
      LandKeepsLease(solo, s, l.p, l.jitter);
    }
  }

  /** Under the discipline delivered and dead_letter are final. */
  lemma {:induction false} SettledStays(solo: bool, s: State, ls: seq<Label>, id: Id)
    requires LeaseInv(solo, s) && DisciplinedRun(solo, s, ls)
    requires id in s.rows && Settled(s.rows[id])
    ensures id in Run(s, ls).rows && Run(s, ls).rows[id] == s.rows[id]
    decreases |ls|
  {
    if ls != [] {
      StepKeepsSettled(solo, s, ls[0], id);
      StepKeepsLease(solo, s, ls[0]);
      SettledStays(solo, Step(s, ls[0]), ls[1..], id);
    }
  }

  /** No mark reaches the event while this runs. */
  predicate Unmarked(s: State, ls: seq<Label>, id: Id)
    decreases |ls|
  {
    ls != [] ==>
      && !(ls[0].Land? && CanLand(s, ls[0].p, ls[0].jitter) && s.batches[ls[0].p][0].id == id)
      && Unmarked(Step(s, ls[0]), ls[1..], id)
  }

  lemma {:induction false} LeaseStands(s: State, ls: seq<Label>, id: Id, deadline: int)
    requires id in s.rows && s.rows[id].status.InFlight? && s.rows[id].next == Some(deadline)
    requires Run(s, ls).clock < deadline && Unmarked(s, ls, id)
    ensures id in Run(s, ls).rows && Run(s, ls).rows[id] == s.rows[id]
    decreases |ls|
  {
    if ls != [] {
      ClockGrows(Step(s, ls[0]), ls[1..]);
      LeaseStands(Step(s, ls[0]), ls[1..], id, deadline);
    }
  }

  /**
   Whatever other pollers do in between, two claims share no event unless its lease has run out
   or a mark has reached it.
   */
  lemma ClaimsAreDisjoint(s: State, p: PollerId, ids: seq<Id>, ls: seq<Label>, q: PollerId, others: seq<Id>)
    requires CanPoll(s, p, ids)
    requires var end := Run(Step(s, Poll(p, ids)), ls); end.clock < s.clock + 30_000_000 && CanPoll(end, q, others)
    ensures forall id | id in ids && Unmarked(Step(s, Poll(p, ids)), ls, id) :: id !in others
  {
    var mid := Step(s, Poll(p, ids));
    forall id | id in ids && Unmarked(mid, ls, id) ensures id !in others {
      assert mid.rows[id] == ClaimRow(s.rows[id], s.clock);
      LeaseStands(mid, ls, id, s.clock + LEASE);
    }
  }

  // ------------------------------------------------- without the discipline

  /** A mark that lands on a settled row leaves it alone only when it repeats a delivery. */
  lemma LateMarkIsHarmlessIff(row: Row, mark: Mark, now: int, jitter: int)
    requires Settled(row) && row.next.None?
    ensures MarkRow(row, mark, now, MAX_DELIVERIES, jitter) == row <==> row.status.Delivered? && mark.AsDelivered?
  {
  }
}
