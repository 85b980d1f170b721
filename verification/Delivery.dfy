/**
 Pollers delivering outbox events: each claims a batch under one lease and works through it
 in order. Pollers may crash, marks may be late or lost, and time passes freely.
 */
module Delivery {
  import opened Types
  import opened Outbox

  type PollerId = nat

  /** A claimed event in the hands of a poller; mark is what it will write, once it has an answer. */
  datatype Claim = Claim(id: Id, at: int, mark: Option<Mark>)

  /**
   What has happened to an event so far: its claims and those given up, the marks written, and the
   answers of its merchant, where a 4xx and a bad URL count as rejected.
   */
  datatype Tally = Tally(
    claims: nat, abandoned: nat, delivered: nat, dead: nat, failed: nat,
    accepted: nat, rejected: nat, unserved: nat)

  datatype State = State(
    rows: map<Id, Row>, clock: int, batches: map<PollerId, seq<Claim>>, tallies: map<Id, Tally>)

  datatype Label =
    | Insert(event: Event)
    | Elapse(time: nat)
    | Poll(p: PollerId, ids: seq<Id>)
    | Answer(p: PollerId, response: Response)
    | Land(p: PollerId, jitter: int)
    | Lose(p: PollerId)
    | Stop(p: PollerId)

  const NO_TALLY: Tally := Tally(0, 0, 0, 0, 0, 0, 0, 0)

  function Deadline(c: Claim): int {
    c.at + LEASE
  }

  predicate Distinct(ids: seq<Id>) {
    forall i, j | 0 <= i < j < |ids| :: ids[i] != ids[j]
  }

  predicate Idle(s: State, p: PollerId) {
    p in s.batches ==> s.batches[p] == []
  }

  predicate Busy(s: State, p: PollerId) {
    p in s.batches && s.batches[p] != []
  }

  /** ClaimPendingEvents picks any rows that can be claimed, up to the limit. */
  predicate CanPoll(s: State, p: PollerId, ids: seq<Id>) {
    && Idle(s, p)
    && |ids| <= BATCH_SIZE && Distinct(ids)
    && forall id | id in ids :: id in s.rows && Claimable(s.rows[id], s.clock)
  }

  predicate CanAnswer(s: State, p: PollerId) {
    Busy(s, p) && s.batches[p][0].mark.None? && s.batches[p][0].id in s.rows
  }

  predicate CanLand(s: State, p: PollerId, jitter: int) {
    Busy(s, p) && s.batches[p][0].mark.Some? && s.batches[p][0].id in s.rows && IsJitter(jitter)
  }

  function TallyOf(s: State, id: Id): Tally {
    if id in s.tallies then s.tallies[id] else NO_TALLY
  }

  function CountMark(t: Tally, mark: Mark): Tally {
    match mark
    case AsDelivered => t.(delivered := t.delivered + 1)
    case AsDeadLetter => t.(dead := t.dead + 1)
    case AsFailed => t.(failed := t.failed + 1)
  }

  /** Files the answer of a merchant; an event without a webhook asks nobody. */
  function CountAnswer(t: Tally, target: Option<Url>, response: Response): Tally {
    if target == None || target == Some("") then t
    else match response
         case BadUrl => t.(rejected := t.rejected + 1)
         case NetworkError => t.(unserved := t.unserved + 1)
         case HttpStatus(code) =>
           if 200 <= code <= 299 then t.(accepted := t.accepted + 1)
           else if 400 <= code <= 499 then t.(rejected := t.rejected + 1)
           else t.(unserved := t.unserved + 1)
  }

  function ClaimsOn(batch: seq<Claim>, id: Id): nat {
    if batch == [] then 0 else (if batch[0].id == id then 1 else 0) + ClaimsOn(batch[1..], id)
  }

  function Abandon(tallies: map<Id, Tally>, batch: seq<Claim>): map<Id, Tally> {
    map id | id in tallies :: tallies[id].(abandoned := tallies[id].abandoned + ClaimsOn(batch, id))
  }

  function ClaimsFor(ids: seq<Id>, now: int): (batch: seq<Claim>)
    ensures |batch| == |ids|
    ensures forall i | 0 <= i < |ids| :: batch[i] == Claim(ids[i], now, None)
  {
    seq(|ids|, i requires 0 <= i < |ids| => Claim(ids[i], now, None))
  }

  function PollStep(s: State, p: PollerId, ids: seq<Id>): State {
    s.(rows := map id | id in s.rows :: if id in ids then ClaimRow(s.rows[id], s.clock) else s.rows[id],
       batches := s.batches[p := ClaimsFor(ids, s.clock)],
       tallies := map id | id in s.tallies ::
         if id in ids then s.tallies[id].(claims := s.tallies[id].claims + 1) else s.tallies[id])
  }

  function AnswerStep(s: State, p: PollerId, response: Response): State
    requires CanAnswer(s, p)
  {
    var c := s.batches[p][0];
    s.(batches := s.batches[p := [c.(mark := Some(Verdict(s.rows[c.id], response)))] + s.batches[p][1..]],
       tallies := s.tallies[c.id := CountAnswer(TallyOf(s, c.id), s.rows[c.id].event.target, response)])
  }

  function LandStep(s: State, p: PollerId, jitter: int): State
    requires CanLand(s, p, jitter)
  {
    var c := s.batches[p][0];
    s.(rows := s.rows[c.id := MarkRow(s.rows[c.id], c.mark.value, s.clock, MAX_DELIVERIES, jitter)],
       batches := s.batches[p := s.batches[p][1..]],
       tallies := s.tallies[c.id := CountMark(TallyOf(s, c.id), c.mark.value)])
  }

  function Step(s: State, l: Label): State {
    match l
    case Insert(event) =>
      if event.id in s.rows then s
      else s.(rows := s.rows[event.id := NewRow(event)], tallies := s.tallies[event.id := NO_TALLY])
    case Elapse(time) => s.(clock := s.clock + time)
    case Poll(p, ids) => if CanPoll(s, p, ids) then PollStep(s, p, ids) else s
    case Answer(p, response) => if CanAnswer(s, p) then AnswerStep(s, p, response) else s
    case Land(p, jitter) => if CanLand(s, p, jitter) then LandStep(s, p, jitter) else s
    case Lose(p) =>
      if Busy(s, p)
      then s.(batches := s.batches[p := s.batches[p][1..]], tallies := Abandon(s.tallies, s.batches[p][..1]))
      else s
    case Stop(p) =>
      if Busy(s, p)
      then s.(batches := s.batches[p := []], tallies := Abandon(s.tallies, s.batches[p]))
      else s
  }

  function Run(s: State, ls: seq<Label>): State
    decreases |ls|
  {
    if ls == [] then s else Run(Step(s, ls[0]), ls[1..])
  }

  // ---------------------------------------------- kept by every run whatever

  /** No delay between attempts is longer than this: 5 * 2^7 + 5 seconds. */
  const LONGEST_WAIT: int := 645 * SECOND

  predicate RowOk(row: Row, now: int) {
    && (Settled(row) ==> row.next.None?)
    && (!Settled(row) ==> row.attempts < MAX_DELIVERIES)
    && (row.status.InFlight? ==> row.next.Some?)
    && (row.next.Some? ==> row.next.value < now + LONGEST_WAIT)
  }

  /** There is no one to send the event to. */
  predicate Unaddressed(row: Row) {
    row.event.target == None || row.event.target == Some("")
  }

  /** Bookkeeping of one event: its marks, and where its last status came from. */
  predicate TallyOk(row: Row, t: Tally) {
    && row.attempts == t.failed + t.dead
    && (row.status.Delivered? ==> Unaddressed(row) || t.accepted > 0)
    && (row.status.DeadLetter? ==> t.dead > 0 || t.failed >= 8)
  }

  predicate ClaimOk(s: State, c: Claim) {
    && c.id in s.rows && c.at <= s.clock
    && (c.mark == Some(AsDelivered) ==> Unaddressed(s.rows[c.id]) || TallyOf(s, c.id).accepted > 0)
  }

  predicate SafeInv(s: State) {
    && s.tallies.Keys == s.rows.Keys
    && (forall id | id in s.rows :: s.rows[id].event.id == id && RowOk(s.rows[id], s.clock))
    && (forall id | id in s.rows :: TallyOk(s.rows[id], s.tallies[id]))
    && (forall p | p in s.batches :: forall c | c in s.batches[p] :: ClaimOk(s, c))
  }

  /** Before the first event. */
  function Start(clock: int): State {
    State(map[], clock, map[], map[])
  }

  lemma StartSafe(clock: int)
    ensures SafeInv(Start(clock))
  {
  }

  lemma MarkKeepsRow(row: Row, mark: Mark, now: int, jitter: int)
    requires RowOk(row, now) && IsJitter(jitter)
    ensures RowOk(MarkRow(row, mark, now, MAX_DELIVERIES, jitter), now)
  {
    if mark.AsFailed? && row.attempts + 1 < MAX_DELIVERIES {
      Power2AtMost(row.attempts + 1);
    }
  }

  lemma Power2AtMost(k: nat)
    requires k <= 7
    ensures Power2(k) <= 128
  {
    if k > 0 {
      assert Power2(7) == 128 by {
        assert Power2(4) == 16;
      }
      Power2Grows(k, 7);
    }
  }

  lemma {:induction false} Power2Grows(j: nat, k: nat)
    requires j <= k
    ensures Power2(j) <= Power2(k)
  {
    if j < k {
      Power2Grows(j, k - 1);
    }
  }

  lemma PollKeepsSafe(s: State, p: PollerId, ids: seq<Id>)
    requires SafeInv(s) && CanPoll(s, p, ids)
    ensures SafeInv(PollStep(s, p, ids))
  {
    var next := PollStep(s, p, ids);
    forall c | c in next.batches[p] ensures ClaimOk(next, c) {
      var i :| 0 <= i < |next.batches[p]| && next.batches[p][i] == c;
      assert ids[i] in ids;
    }
  }

  lemma AnswerKeepsSafe(s: State, p: PollerId, response: Response)
    requires SafeInv(s) && CanAnswer(s, p)
    ensures SafeInv(AnswerStep(s, p, response))
  {
    var next := AnswerStep(s, p, response);
    var c := s.batches[p][0];
    assert c in s.batches[p];
    forall d | d in next.batches[p] ensures ClaimOk(next, d) {
      assert d == next.batches[p][0] || d in s.batches[p];
    }
  }

  lemma LandKeepsSafe(s: State, p: PollerId, jitter: int)
    requires SafeInv(s) && CanLand(s, p, jitter)
    ensures SafeInv(LandStep(s, p, jitter))
  {
    var c := s.batches[p][0];
    var next := LandStep(s, p, jitter);
    assert c in s.batches[p];
    MarkKeepsRow(s.rows[c.id], c.mark.value, s.clock, jitter);
    forall d | d in next.batches[p] ensures ClaimOk(next, d) {
      assert d in s.batches[p];
    }
  }

  lemma StepKeepsSafe(s: State, l: Label)
    requires SafeInv(s)
    ensures SafeInv(Step(s, l))
  {
    match l
    case Poll(p, ids) =>
      if CanPoll(s, p, ids) {
        PollKeepsSafe(s, p, ids);
      }
    case Answer(p, response) =>
      if CanAnswer(s, p) {
        AnswerKeepsSafe(s, p, response);
      }
    case Land(p, jitter) =>
      if CanLand(s, p, jitter) {
        LandKeepsSafe(s, p, jitter);
      }
    case Lose(p) =>
      if Busy(s, p) {
        assert forall c | c in s.batches[p][1..] :: c in s.batches[p];
      }
    case _ =>
  }

  lemma {:induction false} RunKeepsSafe(s: State, ls: seq<Label>)
    requires SafeInv(s)
    ensures SafeInv(Run(s, ls))
    decreases |ls|
  {
    if ls != [] {
      StepKeepsSafe(s, ls[0]);
      RunKeepsSafe(Step(s, ls[0]), ls[1..]);
    }
  }

  /** From this moment on an untouched unsettled row can be claimed. */
  function ReadyAt(row: Row, now: int): int {
    if row.next.Some? then row.next.value else now
  }

  lemma {:induction false} ClockGrows(s: State, ls: seq<Label>)
    ensures s.clock <= Run(s, ls).clock
    decreases |ls|
  {
    if ls != [] {
      ClockGrows(Step(s, ls[0]), ls[1..]);
    }
  }

  lemma OneCanBeClaimed(s: State, p: PollerId, id: Id)
    requires id in s.rows && Claimable(s.rows[id], s.clock) && Idle(s, p)
    ensures CanPoll(s, p, [id])
    ensures Step(s, Poll(p, [id])).rows[id] == s.rows[id].(status := InFlight, next := Some(s.clock + 30_000_000))
  {
  }

  lemma UnsettledIsReady(row: Row, now: int, later: int)
    requires RowOk(row, now) && !Settled(row) && now <= later
    ensures row.attempts < 8 && ReadyAt(row, now) < now + 645_000_000
    ensures later >= ReadyAt(row, now) ==> Claimable(row, later)
  {
  }

  lemma ReadyFrom(mid: State, end: State, id: Id, p: PollerId)
    requires SafeInv(mid) && mid.clock <= end.clock
    requires id in mid.rows && !Settled(mid.rows[id]) && id in end.rows && end.rows[id] == mid.rows[id] && Idle(end, p)
    ensures mid.rows[id].attempts < 8 && ReadyAt(mid.rows[id], mid.clock) < mid.clock + 645_000_000
    ensures end.clock >= ReadyAt(mid.rows[id], mid.clock) ==>
      && CanPoll(end, p, [id])
      && Step(end, Poll(p, [id])).rows[id] == end.rows[id].(status := InFlight, next := Some(end.clock + 30_000_000))
  {
    UnsettledIsReady(mid.rows[id], mid.clock, end.clock);
    if end.clock >= ReadyAt(mid.rows[id], mid.clock) {
      OneCanBeClaimed(end, p, id);
    }
  }

  /**
   Nothing is ever stuck: whatever pollers, crashes and late marks did before, an unsettled
   event has a moment, less than 645 seconds away, from which any idle poller can claim it
   unless some step touches it first.
   */
  lemma NeverStuck(s: State, ls: seq<Label>, mid: State, more: seq<Label>, end: State, id: Id, p: PollerId)
    requires SafeInv(s) && mid == Run(s, ls) && end == Run(mid, more)
    requires id in mid.rows && !Settled(mid.rows[id]) && id in end.rows && end.rows[id] == mid.rows[id] && Idle(end, p)
    ensures mid.rows[id].attempts < 8 && ReadyAt(mid.rows[id], mid.clock) < mid.clock + 645_000_000
    ensures end.clock >= ReadyAt(mid.rows[id], mid.clock) ==>
      && CanPoll(end, p, [id])
      && Step(end, Poll(p, [id])).rows[id] == end.rows[id].(status := InFlight, next := Some(end.clock + 30_000_000))
  {
    RunKeepsSafe(s, ls);
    ClockGrows(mid, more);
    ReadyFrom(mid, end, id, p);
  }

  /** No step of any poller, crash or late mark removes an event or changes what it says. */
  lemma {:induction false} EventsStay(s: State, ls: seq<Label>, id: Id)
    requires id in s.rows
    ensures id in Run(s, ls).rows && Run(s, ls).rows[id].event == s.rows[id].event
    decreases |ls|
  {
    if ls != [] {
      EventsStay(Step(s, ls[0]), ls[1..], id);
    }
  }
}
