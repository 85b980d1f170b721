/**
 The outbox statements and the poller as written: row updates in place, the branches of
 deliver, the three-try mark loop and the sequential batch. Every poll is a run of the
 delivery machine, and its steps are those of PollerTiming.
 */
module OutboxCode {
  import opened Types
  import opened Outbox
  import opened PollerTiming
  import D = Delivery
  import Leases

  /** A pending row at or past its time, if it has one; an in_flight row whose lease has run out. */
  ghost predicate IsDue(status: Status, next: Option<int>, now: int) {
    match status
    case Pending => next == None || next.value <= now
    case InFlight => next != None && next.value <= now
    case Delivered => false
    case DeadLetter => false
  }

  /** These rows, and no others, are in flight until the deadline; nothing else about them is changed. */
  ghost predicate TakenOver(before: map<Id, Row>, after: map<Id, Row>, ids: seq<Id>, deadline: int) {
    && after.Keys == before.Keys
    && (forall id | id in before && id !in ids :: after[id] == before[id])
    && (forall id | id in before && id in ids ::
      after[id] == Row(before[id].event, InFlight, before[id].attempts, Some(deadline)))
  }

  /** The outbox table. history is the delivery machine it follows. */
  class Table {
    var rows: map<Id, Row>
    var clock: int
    ghost var history: D.State

    ghost predicate Valid()
      reads this
    {
      D.SafeInv(history) && history.rows == rows && history.clock == clock
    }

    constructor (clock: int)
      ensures Valid() && rows == map[] && this.clock == clock && history == D.Start(clock)
    {
      this.rows, this.clock, this.history := map[], clock, D.Start(clock);
      D.StartSafe(clock);
    }

    /** A committed event; the id is new. */
    method Insert(event: Event)
      requires Valid() && event.id !in rows
      modifies this`rows, this`history
      ensures Valid() && rows == old(rows)[event.id := NewRow(event)]
      ensures history == D.Step(old(history), D.Insert(event))
    {
      rows := rows[event.id := NewRow(event)];
      Follow(D.Insert(event));
    }

    method Wait(time: nat)
      requires Valid()
      modifies this`clock, this`history
      ensures Valid() && clock == old(clock) + time && history == D.Step(old(history), D.Elapse(time))
    {
      D.StepKeepsSafe(history, D.Elapse(time));
      clock := clock + time;
      history := D.Step(history, D.Elapse(time));
    }

    /** Lets the machine take a step that the rows have already taken. */
    ghost method Follow(l: D.Label)
      requires D.SafeInv(history) && history.clock == clock
      requires D.Step(history, l).rows == rows && D.Step(history, l).clock == clock
      modifies this`history
      ensures Valid() && history == D.Step(old(history), l)
    {
      D.StepKeepsSafe(history, l);
      history := D.Step(history, l);
    }

    /** The subquery: claimable rows, met in the planner's order, up to the limit. */
    method SelectClaimable(limit: nat, order: seq<Id>) returns (ids: seq<Id>)
      requires D.Distinct(order) && forall id :: id in order <==> id in rows
      ensures D.Distinct(ids) && |ids| <= limit
      ensures forall id | id in ids :: id in rows && IsDue(rows[id].status, rows[id].next, clock)
      ensures |ids| == limit || forall id | id in rows && IsDue(rows[id].status, rows[id].next, clock) :: id in ids
    {
      ids := [];
      var k := 0;
      while k < |order| && |ids| < limit
        invariant 0 <= k <= |order| && |ids| <= limit && D.Distinct(ids)
        invariant forall id | id in ids :: id in order[..k] && id in rows && Claimable(rows[id], clock)
        invariant forall id | id in order[..k] && Claimable(rows[id], clock) :: id in ids
      {
        assert order[k] !in order[..k];
        if Claimable(rows[order[k]], clock) {
          ids := ids + [order[k]];
        }
        k := k + 1;
      }
      assert k == |order| ==> order[..k] == order;
    }

    /** The statement takes effect: the chosen rows are claimed from this moment on. */
    method ClaimRows(p: D.PollerId, ids: seq<Id>)
      requires Valid() && D.CanPoll(history, p, ids)
      modifies this`rows, this`history
      ensures Valid() && history == D.Step(old(history), D.Poll(p, ids))
      ensures history.batches == old(history).batches[p := D.ClaimsFor(ids, clock)]
      ensures rows == Claimed(old(rows), ids, clock)
    {
      rows := Claimed(rows, ids, clock);
      Follow(D.Poll(p, ids));
    }

    /** The statement takes effect or not; the answer, or an error, comes lag later. */
    method TakeRows(p: D.PollerId, ids: seq<Id>, lag: nat, fate: Fate)
      requires Valid() && D.CanPoll(history, p, ids)
      modifies this`rows, this`clock, this`history
      ensures Valid() && clock == old(clock) + lag
      ensures rows == if fate.Refused? then old(rows) else Claimed(old(rows), ids, old(clock))
      ensures history == D.Run(old(history), ClaimLabels(p, ids, lag, fate))
      ensures !fate.Applied? ==> D.Idle(history, p)
      ensures fate.Applied? ==> p in history.batches && history.batches[p] == D.ClaimsFor(ids, old(clock))
    {
      ghost var start := history;
      if !fate.Refused? {
        ClaimRows(p, ids);
      }
      Wait(lag);
      if fate.Unheard? {
        Follow(D.Stop(p));
      }
      ClaimRuns(start, p, ids, lag, fate);
    }

    /**
     Claims up to limit rows: any that are due, and all of them if there are no more than the
     limit. The lease starts when the statement does; the answer comes lag later, or an error
     does. A claim that takes effect unheard is abandoned.
     */
    method ClaimPendingEvents(p: D.PollerId, limit: nat, order: seq<Id>, lag: nat, fate: Fate)
      returns (events: seq<Event>, ids: seq<Id>, err: bool)
      requires Valid() && D.Idle(history, p) && limit <= BATCH_SIZE
      requires D.Distinct(order) && forall id :: id in order <==> id in rows
      modifies this`rows, this`clock, this`history
      ensures Valid() && clock == old(clock) + lag && err == !fate.Applied?
      ensures D.CanPoll(old(history), p, ids)
      ensures rows == if fate.Refused? then old(rows) else Claimed(old(rows), ids, old(clock))
      ensures history == D.Run(old(history), ClaimLabels(p, ids, lag, fate))
      ensures |ids| <= limit
      ensures forall id | id in ids :: id in old(rows) && IsDue(old(rows)[id].status, old(rows)[id].next, old(clock))
      ensures |ids| == limit ||
        forall id | id in old(rows) && IsDue(old(rows)[id].status, old(rows)[id].next, old(clock)) :: id in ids
      ensures if fate.Refused? then rows == old(rows) else TakenOver(old(rows), rows, ids, old(clock) + 30_000_000)
      ensures err ==> D.Idle(history, p) && events == []
      ensures !err ==>
        && p in history.batches && history.batches[p] == D.ClaimsFor(ids, old(clock))
        && |events| == |ids| && forall i | 0 <= i < |ids| :: ids[i] in rows && events[i] == rows[ids[i]].event
    {
      ids := SelectClaimable(limit, order);
      events, err := [], !fate.Applied?;
      ClaimedIsTaken(rows, ids, clock);
      TakeRows(p, ids, lag, fate);
      if !err {
        events := EventsOf(ids);
      }
    }

    /** The loop over the returned rows. */
    method EventsOf(ids: seq<Id>) returns (events: seq<Event>)
      requires forall id | id in ids :: id in rows
      ensures |events| == |ids|
      ensures forall i | 0 <= i < |ids| :: ids[i] in rows && events[i] == rows[ids[i]].event
    {
      events := [];
      for i := 0 to |ids|
        invariant |events| == i && forall j | 0 <= j < i :: ids[j] in rows && events[j] == rows[ids[j]].event
      {
        assert ids[i] in ids;
        events := events + [rows[ids[i]].event];
      }
    }

    /** A mark statement: it names the row by id only, whatever its status. */
    method Update(id: Id, mark: Mark, maxRetries: int, jitter: int, fate: Fate) returns (err: bool)
      modifies this`rows
      ensures err == !fate.Applied?
      ensures rows == if !fate.Refused? && id in old(rows)
                      then old(rows)[id := MarkRow(old(rows)[id], mark, clock, maxRetries, jitter)] else old(rows)
    {
      if !fate.Refused? && id in rows {
        rows := rows[id := MarkRow(rows[id], mark, clock, maxRetries, jitter)];
      }
      err := !fate.Applied?;
    }

    method MarkDelivered(id: Id, fate: Fate) returns (err: bool)
      modifies this`rows
      ensures err == !fate.Applied?
      ensures rows == if !fate.Refused? && id in old(rows)
                      then old(rows)[id := old(rows)[id].(status := Delivered, next := None)] else old(rows)
    {
      err := Update(id, AsDelivered, MAX_DELIVERIES, 0, fate);
    }

    method MarkDeadLetter(id: Id, fate: Fate) returns (err: bool)
      modifies this`rows
      ensures err == !fate.Applied?
      ensures !fate.Refused? && id in old(rows) ==>
        var row := old(rows)[id];
        rows == old(rows)[id := row.(status := DeadLetter, next := None, attempts := row.attempts + 1)]
      ensures fate.Refused? || id !in old(rows) ==> rows == old(rows)
    {
      err := Update(id, AsDeadLetter, MAX_DELIVERIES, 0, fate);
    }

    method MarkFailed(id: Id, maxRetries: int, jitter: int, fate: Fate) returns (err: bool)
      requires 0 <= jitter < 5_000_000
      modifies this`rows
      ensures err == !fate.Applied?
      ensures !fate.Refused? && id in old(rows) ==>
        && id in rows && rows == old(rows)[id := rows[id]]
        && rows[id].attempts == old(rows)[id].attempts + 1
        && (rows[id].status.DeadLetter? <==> old(rows)[id].attempts + 1 >= maxRetries)
        && (rows[id].status.DeadLetter? ==> rows[id].next.None?)
        && (!rows[id].status.DeadLetter? ==>
          rows[id].status.Pending? &&
          rows[id].next == Some(clock + 5_000_000 * Power2(rows[id].attempts) + jitter))
        && rows[id].event == old(rows)[id].event
      ensures fate.Refused? || id !in old(rows) ==> rows == old(rows)
    {
      err := Update(id, AsFailed, maxRetries, jitter, fate);
    }
  }

  /** The rows once some of them have been claimed. */
  function Claimed(rows: map<Id, Row>, ids: seq<Id>, now: int): map<Id, Row> {
    map id | id in rows :: if id in ids then ClaimRow(rows[id], now) else rows[id]
  }

  lemma ClaimedIsTaken(rows: map<Id, Row>, ids: seq<Id>, now: int)
    ensures TakenOver(rows, Claimed(rows, ids, now), ids, now + 30_000_000)
  {
  }

  /** The steps of a claim. */
  function ClaimLabels(p: D.PollerId, ids: seq<Id>, lag: nat, fate: Fate): seq<D.Label> {
    match fate
    case Applied => [D.Poll(p, ids), D.Elapse(lag)]
    case Unheard => [D.Poll(p, ids), D.Elapse(lag), D.Stop(p)]
    case Refused => [D.Elapse(lag)]
  }

  lemma ClaimRuns(s: D.State, p: D.PollerId, ids: seq<Id>, lag: nat, fate: Fate)
    ensures D.Run(s, ClaimLabels(p, ids, lag, fate)) ==
      match fate
      case Applied => D.Step(D.Step(s, D.Poll(p, ids)), D.Elapse(lag))
      case Unheard => D.Step(D.Step(D.Step(s, D.Poll(p, ids)), D.Elapse(lag)), D.Stop(p))
      case Refused => D.Step(s, D.Elapse(lag))
  {
    var poll, wait, stop := D.Poll(p, ids), D.Elapse(lag), D.Stop(p);
    match fate
    case Refused => RunOne(s, wait);
    case Applied =>
      RunOne(s, poll);
      RunThen(s, [poll], wait);
      assert [poll] + [wait] == [poll, wait];
    case Unheard =>
      RunOne(s, poll);
      RunThen(s, [poll], wait);
      assert [poll] + [wait] == [poll, wait];
      RunThen(s, [poll, wait], stop);
      assert [poll, wait] + [stop] == [poll, wait, stop];
  }

  // ------------------------------------------------------------------ poller

  /** The claim a poller is working on. */
  predicate Head(s: D.State, p: D.PollerId, c: D.Claim) {
    D.Busy(s, p) && s.batches[p][0] == c
  }

  /** One claim less in the poller's hands, and nobody else's touched. */
  ghost predicate Handled(before: D.State, after: D.State, p: D.PollerId) {
    D.Busy(before, p) && after.batches == before.batches[p := before.batches[p][1..]]
  }

  lemma RunOne(s: D.State, l: D.Label)
    ensures D.Run(s, [l]) == D.Step(s, l)
  {
    assert [l][1..] == [];
  }

  lemma RunThen(s: D.State, ls: seq<D.Label>, l: D.Label)
    ensures D.Run(s, ls + [l]) == D.Step(D.Run(s, ls), l)
  {
    RunConcat(s, ls, [l]);
    RunOne(D.Run(s, ls), l);
  }

  /** A mark that has taken effect already changes nothing the second time. */
  ghost predicate Marked(t: Table, c: D.Claim)
    reads t
  {
    c.mark == Some(AsDelivered) && c.id in t.rows && t.rows[c.id].status.Delivered? && t.rows[c.id].next.None?
  }

  /** One mark under its timeout: the row changes unless the write has no effect or repeats one. */
  method TryMark(t: Table, p: D.PollerId, c: D.Claim, w: Write, jitter: int, ghost landed: bool) returns (err: bool)
    requires t.Valid() && c.mark.Some? && c.id in t.rows && IsJitter(jitter)
    requires if landed then Marked(t, c) else Head(t.history, p, c)
    modifies t
    ensures t.Valid() && err == !w.fate.Applied? && t.clock == old(t.clock) + w.time
    ensures t.history == D.Run(old(t.history), TryLabels(p, w, jitter, landed))
    ensures if landed || w.fate.Refused? then t.rows == old(t.rows) && t.history.batches == old(t.history).batches
            else
              && Handled(old(t.history), t.history, p)
              && t.rows == old(t.rows)[c.id := MarkRow(old(t.rows)[c.id], c.mark.value, t.clock, MAX_DELIVERIES,
                                                       jitter)]
  {
    RunOne(t.history, D.Elapse(w.time));
    RunThen(t.history, [D.Elapse(w.time)], D.Land(p, jitter));
    t.Wait(w.time);
    match c.mark.value {
      case AsDelivered => err := t.MarkDelivered(c.id, w.fate);
      case AsDeadLetter => err := t.MarkDeadLetter(c.id, w.fate);
      case AsFailed => err := t.MarkFailed(c.id, MAX_DELIVERIES, jitter, w.fate);
    }
    if !landed && !w.fate.Refused? {
      t.Follow(D.Land(p, jitter));
    } else {
      assert [D.Elapse(w.time)] + [] == [D.Elapse(w.time)];
      assert t.rows == old(t.rows);
    }
  }

  /** Nothing was written: the claim is left to run out. */
  ghost method GiveUp(t: Table, p: D.PollerId, c: D.Claim)
    requires t.Valid() && Head(t.history, p, c)
    modifies t`history
    ensures t.Valid() && t.history == D.Step(old(t.history), D.Lose(p)) && Handled(old(t.history), t.history, p)
  {
    t.Follow(D.Lose(p));
  }

  /** None of the first n writes takes effect. */
  predicate Unwritten(f: Fortune, n: nat) {
    forall i | 0 <= i < n && i < |f.writes| :: f.writes[i].fate.Refused?
  }

  /** What the tries so far have done to the table, if any took effect. */
  ghost predicate RowsTried(t: Table, start: D.State, p: D.PollerId, c: D.Claim, landed: bool)
    reads t
  {
    && t.Valid() && c.id in start.rows
    && if landed
       then Handled(start, t.history, p) &&
            t.rows == start.rows[c.id := start.rows[c.id].(status := Delivered, next := None)]
       else t.history.batches == start.batches && t.rows == start.rows
  }

  ghost predicate Tried(t: Table, start: D.State, p: D.PollerId, c: D.Claim, f: Fortune, i: nat, landed: bool,
                        done: seq<D.Label>)
    requires |f.writes| == MARK_TRIES && i <= MARK_TRIES
    reads t
  {
    && RowsTried(t, start, p, c, landed) && t.history == D.Run(start, done)
    && done + RetryLabels(p, f, i, landed) == RetryLabels(p, f, 0, false)
  }

  function PauseLabels(i: nat): seq<D.Label> {
    if i < 2 then [D.Elapse(1_000_000)] else []
  }

  lemma RetryLabelsNext(p: D.PollerId, f: Fortune, i: nat, landed: bool, done: seq<D.Label>)
    requires |f.writes| == MARK_TRIES && i < MARK_TRIES && !f.writes[i].fate.Applied?
    requires done + RetryLabels(p, f, i, landed) == RetryLabels(p, f, 0, false)
    ensures done + TryLabels(p, f.writes[i], f.jitter, landed) + PauseLabels(i)
            + RetryLabels(p, f, i + 1, landed || f.writes[i].fate.Unheard?) == RetryLabels(p, f, 0, false)
  {
    var rest := RetryLabels(p, f, i + 1, landed || f.writes[i].fate.Unheard?);
    var first := TryLabels(p, f.writes[i], f.jitter, landed);
    RetryUnfolds(p, f, i, landed);
    Regroup(done, first, PauseLabels(i), rest);
  }

  lemma RetryUnfolds(p: D.PollerId, f: Fortune, i: nat, landed: bool)
    requires |f.writes| == MARK_TRIES && i < MARK_TRIES && !f.writes[i].fate.Applied?
    ensures RetryLabels(p, f, i, landed) ==
      TryLabels(p, f.writes[i], f.jitter, landed)
      + (PauseLabels(i) + RetryLabels(p, f, i + 1, landed || f.writes[i].fate.Unheard?))
  {
  }

  lemma Regroup(a: seq<D.Label>, b: seq<D.Label>, c: seq<D.Label>, d: seq<D.Label>)
    ensures a + (b + (c + d)) == a + b + c + d
  {
  }

  /** One try of the loop. */
  method TryOnce(t: Table, p: D.PollerId, c: D.Claim, w: Write, jitter: int, ghost start: D.State, ghost landed: bool,
                 ghost done: seq<D.Label>)
    returns (err: bool)
    requires IsJitter(jitter) && c.mark == Some(AsDelivered) && Head(start, p, c)
    requires RowsTried(t, start, p, c, landed) && t.history == D.Run(start, done)
    modifies t
    ensures err == !w.fate.Applied? && RowsTried(t, start, p, c, landed || !w.fate.Refused?)
    ensures t.history == D.Run(start, done + TryLabels(p, w, jitter, landed))
  {
    err := TryMark(t, p, c, w, jitter, landed);
    RunConcat(start, done, TryLabels(p, w, jitter, landed));
  }

  /** The pause after the i-th try. */
  method Pause(t: Table, i: nat, ghost start: D.State, ghost done: seq<D.Label>)
    requires t.Valid() && t.history == D.Run(start, done)
    modifies t`clock, t`history
    ensures t.Valid() && t.history.batches == old(t.history).batches
    ensures t.history == D.Run(start, done + PauseLabels(i))
  {
    if i < 2 {
      RunThen(start, done, D.Elapse(1_000_000));
      t.Wait(SECOND);
    } else {
      assert done + [] == done;
    }
  }

  /** markDeliveredWithRetry: up to three tries, a second apart; then the claim is left to expire. */
  method MarkDeliveredWithRetry(t: Table, p: D.PollerId, c: D.Claim, f: Fortune)
    requires t.Valid() && Head(t.history, p, c) && c.mark == Some(AsDelivered) && Plausible(f) && c.id in t.rows
    modifies t
    ensures t.Valid() && t.history == D.Run(old(t.history), RetryLabels(p, f, 0, false))
    ensures Handled(old(t.history), t.history, p)
    ensures t.rows == if Unwritten(f, MARK_TRIES) then old(t.rows)
                      else old(t.rows)[c.id := old(t.rows)[c.id].(status := Delivered, next := None)]
  {
    ghost var start, done, landed := t.history, [], false;
    assert [] + RetryLabels(p, f, 0, false) == RetryLabels(p, f, 0, false);
    for i := 0 to MARK_TRIES
      invariant Tried(t, start, p, c, f, i, landed, done)
      invariant landed <==> !Unwritten(f, i)
    {
      ghost var first := TryLabels(p, f.writes[i], f.jitter, landed);
      var err := TryOnce(t, p, c, f.writes[i], f.jitter, start, landed, done);
      if !err {
        assert RetryLabels(p, f, i, landed) == first;
        return;
      }
      RetryLabelsNext(p, f, i, landed, done);
      Pause(t, i, start, done + first);
      done, landed := done + first + PauseLabels(i), landed || f.writes[i].fate.Unheard?;
    }
    if landed {
      assert done + [] == done;
    } else {
      RunThen(start, done, D.Lose(p));
      GiveUp(t, p, c);
    }
  }

  /** The answer decides which mark will be written. */
  ghost method Decide(t: Table, p: D.PollerId, c: D.Claim, response: Response)
    requires t.Valid() && Head(t.history, p, c) && c.mark.None? && c.id in t.rows
    modifies t`history
    ensures t.Valid() && t.history == D.Step(old(t.history), D.Answer(p, response))
    ensures t.history.batches ==
      old(t.history).batches[p := [c.(mark := Some(Verdict(t.rows[c.id], response)))] + old(t.history).batches[p][1..]]
  {
    t.Follow(D.Answer(p, response));
  }

  /** The tries a mark gets: three for a delivery that was accepted, one otherwise. */
  function Tries(row: Row, response: Response): nat {
    if !NoTarget(row) && Accepted(response) then MARK_TRIES else 1
  }

  /** Put off with the backoff of this attempt, or given up at the eighth. */
  ghost predicate PutOff(before: Row, after: Row, jitter: int, from: int, to: int) {
    && after.event == before.event && after.attempts == before.attempts + 1
    && if before.attempts >= 7 then after.status == DeadLetter && after.next == None
       else
         && after.status == Pending && after.next.Some?
         && from <= after.next.value - 5_000_000 * Power2(before.attempts + 1) - jitter <= to
  }

  /**
   What one delivery makes of its row. Without a webhook: delivered. Otherwise it is the answer
   that counts: 2xx delivered, 4xx and a bad URL dead_letter, anything else put off. The row stays
   as it was if the write, or all three writes of a delivery, have no effect.
   */
  ghost predicate MarkedOnce(before: Row, after: Row, f: Fortune, from: int, to: int) {
    var isDelivered := after == Row(before.event, Delivered, before.attempts, None);
    var isDead := after == Row(before.event, DeadLetter, before.attempts + 1, None);
    if before.event.target == None || before.event.target == Some("") then
      if Unwritten(f, 1) then after == before else isDelivered
    else match f.response
         case BadUrl => if Unwritten(f, 1) then after == before else isDead
         case NetworkError =>
           if Unwritten(f, 1) then after == before else PutOff(before, after, f.jitter, from, to)
         case HttpStatus(code) =>
           if 200 <= code <= 299 then if Unwritten(f, 3) then after == before else isDelivered
           else if Unwritten(f, 1) then after == before
           else if 400 <= code <= 499 then isDead
           else PutOff(before, after, f.jitter, from, to)
  }

  /** A row that got the mark its answer deserves is marked as the answer says. */
  lemma WrittenIsMarked(before: map<Id, Row>, after: map<Id, Row>, c: D.Claim, f: Fortune, from: int, to: int)
    requires c.id in before
    requires RowWritten(before, after, c.(mark := Some(Verdict(before[c.id], f.response))), f,
                        Tries(before[c.id], f.response), from, to)
    ensures c.id in after && MarkedOnce(before[c.id], after[c.id], f, from, to)
  {
  }

  /** What writing a mark does to its row. */
  ghost predicate RowWritten(before: map<Id, Row>, after: map<Id, Row>, c: D.Claim, f: Fortune, tries: nat,
                             from: int, to: int)
    requires c.id in before && c.mark.Some?
  {
    if Unwritten(f, tries) then after == before
    else exists now | from <= now <= to ::
      after == before[c.id := MarkRow(before[c.id], c.mark.value, now, MAX_DELIVERIES, f.jitter)]
  }

  /** Writes the mark decided on: several tries for a delivery that was accepted, one otherwise. */
  method WriteMark(t: Table, p: D.PollerId, c: D.Claim, f: Fortune, accepted: bool)
    requires t.Valid() && Head(t.history, p, c) && c.mark.Some? && Plausible(f) && c.id in t.rows
    requires accepted ==> c.mark == Some(AsDelivered)
    modifies t
    ensures t.Valid() && t.history == D.Run(old(t.history), MarkLabels(p, f, accepted))
    ensures Handled(old(t.history), t.history, p)
    ensures RowWritten(old(t.rows), t.rows, c, f, if accepted then MARK_TRIES else 1, old(t.clock), t.clock)
  {
    ghost var start := t.history;
    if accepted {
      MarkDeliveredWithRetry(t, p, c, f);
      D.ClockGrows(start, RetryLabels(p, f, 0, false));
      assert RowWritten(start.rows, t.rows, c, f, MARK_TRIES, start.clock, t.clock) by {
        assert start.rows[c.id].(status := Delivered, next := None)
            == MarkRow(start.rows[c.id], AsDelivered, t.clock, MAX_DELIVERIES, f.jitter);
      }
    } else {
      ghost var first := TryLabels(p, f.writes[0], f.jitter, false);
      var err := TryMark(t, p, c, f.writes[0], f.jitter, false);
      if f.writes[0].fate.Refused? {
        RunThen(start, first, D.Lose(p));
        GiveUp(t, p, c);
      } else {
        assert first + [] == first;
      }
    }
  }

  /** The request of deliver: none for an event without a webhook or with a bad URL. */
  method Request(t: Table, p: D.PollerId, c: D.Claim, f: Fortune)
    requires t.Valid() && Head(t.history, p, c) && c.id in t.rows
    modifies t`clock, t`history
    ensures t.Valid() && t.history.batches == old(t.history).batches
    ensures t.history == D.Run(old(t.history), RequestLabels(t.rows[c.id], f))
  {
    if !NoTarget(t.rows[c.id]) && !f.response.BadUrl? {
      RunOne(t.history, D.Elapse(f.httpTime));
      t.Wait(f.httpTime);
    }
  }

  /** The branches of deliver: the mark that the answer calls for, and whether it is worth three tries. */
  method Branch(row: Row, response: Response) returns (mark: Mark, accepted: bool)
    ensures mark == Verdict(row, response) && accepted == (!NoTarget(row) && Accepted(response))
    ensures accepted ==> mark == AsDelivered
    ensures mark == AsDelivered <==>
      || row.event.target == None || row.event.target == Some("")
      || (response.HttpStatus? && 200 <= response.code <= 299)
    ensures mark == AsDeadLetter <==>
      && row.event.target != None && row.event.target != Some("")
      && (response == BadUrl || (response.HttpStatus? && 400 <= response.code <= 499))
  {
    mark, accepted := AsDelivered, false;
    if !NoTarget(row) {
      match response
      case BadUrl => mark := AsDeadLetter;
      case NetworkError => mark := AsFailed;
      case HttpStatus(code) =>
        if 200 <= code < 300 {
          accepted := true;
        } else if 400 <= code < 500 {
          mark := AsDeadLetter;
        } else {
          mark := AsFailed;
        }
    }
  }

  /** The rest of deliver: the branch that the answer takes, and its mark. */
  method Conclude(t: Table, p: D.PollerId, c: D.Claim, f: Fortune)
    requires t.Valid() && Head(t.history, p, c) && c.mark.None? && Plausible(f) && c.id in t.rows
    modifies t
    ensures t.Valid() && Handled(old(t.history), t.history, p)
    ensures t.history == D.Run(old(t.history), [D.Answer(p, f.response)] +
                                               MarkLabels(p, f, !NoTarget(old(t.rows)[c.id]) && Accepted(f.response)))
    ensures RowWritten(old(t.rows), t.rows, c.(mark := Some(Verdict(old(t.rows)[c.id], f.response))), f,
                       Tries(old(t.rows)[c.id], f.response), old(t.clock), t.clock)
  {
    ghost var start := t.history;
    var mark, accepted := Branch(t.rows[c.id], f.response);
    var answered := c.(mark := Some(mark));
    Decide(t, p, c, f.response);
    RunOne(start, D.Answer(p, f.response));
    RunConcat(start, [D.Answer(p, f.response)], MarkLabels(p, f, accepted));
    assert t.history.batches[p][0] == answered && t.history.batches[p][1..] == start.batches[p][1..];
    WriteMark(t, p, answered, f, accepted);
  }

  /**
   deliver: no webhook and a bad URL need no request; otherwise the answer decides. It takes the
   steps of DeliveryLabels, at most 27 seconds, and a delivery that starts less than 3 seconds
   after its claim keeps the lease discipline, whatever it meets.
   */
  method Deliver(t: Table, p: D.PollerId, c: D.Claim, f: Fortune)
    requires t.Valid() && Head(t.history, p, c) && c.mark.None? && Plausible(f) && c.id in t.rows
    modifies t
    ensures t.Valid() && Handled(old(t.history), t.history, p)
    ensures t.history == D.Run(old(t.history), DeliveryLabels(p, old(t.rows)[c.id], f))
    ensures old(t.clock) <= t.clock <= old(t.clock) + Longest(old(t.rows)[c.id])
    ensures old(t.clock) < c.at + 3 * SECOND ==>
      Leases.DisciplinedRun(false, old(t.history), DeliveryLabels(p, old(t.rows)[c.id], f))
    ensures c.id in t.rows && t.rows == old(t.rows)[c.id := t.rows[c.id]]
    ensures MarkedOnce(old(t.rows)[c.id], t.rows[c.id], f, old(t.clock), t.clock)
  {
    ghost var start, row := t.history, t.rows[c.id];
    ghost var request := RequestLabels(row, f);
    Request(t, p, c, f);
    ghost var mid := t.history;
    D.ClockGrows(start, request);
    Conclude(t, p, c, f);
    WrittenIsMarked(start.rows, t.rows, c, f, start.clock, t.clock);
    DeliveryConcat(start, p, row, f);
    DeliveryTakes(start, p, c, row, f);
  }

  lemma DeliveryConcat(s: D.State, p: D.PollerId, row: Row, f: Fortune)
    requires |f.writes| == MARK_TRIES
    ensures D.Run(s, DeliveryLabels(p, row, f)) ==
      D.Run(D.Run(s, RequestLabels(row, f)),
            [D.Answer(p, f.response)] + MarkLabels(p, f, !NoTarget(row) && Accepted(f.response)))
  {
    var rest := MarkLabels(p, f, !NoTarget(row) && Accepted(f.response));
    assert DeliveryLabels(p, row, f) == RequestLabels(row, f) + ([D.Answer(p, f.response)] + rest);
    RunConcat(s, RequestLabels(row, f), [D.Answer(p, f.response)] + rest);
  }

  /** The time a delivery takes, and when it keeps the discipline for sure. */
  lemma DeliveryTakes(s: D.State, p: D.PollerId, c: D.Claim, row: Row, f: Fortune)
    requires Plausible(f) && Head(s, p, c)
    ensures var ls := DeliveryLabels(p, row, f);
      && s.clock <= D.Run(s, ls).clock <= s.clock + Longest(row)
      && (s.clock < c.at + 3 * SECOND ==> Leases.DisciplinedRun(false, s, ls))
  {
    var ls := DeliveryLabels(p, row, f);
    DeliveryBounded(p, row, f);
    RunTakes(s, ls);
    if s.clock < c.at + 3 * SECOND {
      assert OnTime(s.clock, ls, c.at + LEASE);
      OneClaimOnTime(s, p, c, ls);
    }
  }

  /** The first n events of a batch have been delivered, each marked as it deserves; nothing else changed. */
  ghost predicate BatchMarked(before: map<Id, Row>, after: map<Id, Row>, ids: seq<Id>, fortunes: seq<Fortune>, n: nat,
                              from: int, to: int)
    requires n <= |ids| <= |fortunes|
  {
    && after.Keys == before.Keys
    && (forall id | id in before && id !in ids[..n] :: after[id] == before[id])
    && forall k | 0 <= k < n ::
         ids[k] in before && MarkedOnce(before[ids[k]], after[ids[k]], fortunes[k], from, to)
  }

  lemma MarkedWithin(before: Row, after: Row, f: Fortune, from: int, to: int, start: int, end: int)
    requires MarkedOnce(before, after, f, from, to) && start <= from && to <= end
    ensures MarkedOnce(before, after, f, start, end)
  {
  }

  lemma BatchThen(before: map<Id, Row>, mid: map<Id, Row>, after: map<Id, Row>, ids: seq<Id>, fortunes: seq<Fortune>,
                  n: nat, from: int, now: int, to: int)
    requires n < |ids| <= |fortunes| && D.Distinct(ids) && from <= now <= to
    requires BatchMarked(before, mid, ids, fortunes, n, from, now)
    requires ids[n] in mid && ids[n] in after && after == mid[ids[n] := after[ids[n]]]
    requires MarkedOnce(mid[ids[n]], after[ids[n]], fortunes[n], now, to)
    ensures BatchMarked(before, after, ids, fortunes, n + 1, from, to)
  {
    assert ids[n] !in ids[..n] && mid[ids[n]] == before[ids[n]];
    assert ids[..n + 1] == ids[..n] + [ids[n]];
    MarkedWithin(before[ids[n]], after[ids[n]], fortunes[n], now, to, from, to);
    forall k | 0 <= k < n + 1
      ensures ids[k] in before && MarkedOnce(before[ids[k]], after[ids[k]], fortunes[k], from, to)
    {
      if k < n {
        assert after[ids[k]] == mid[ids[k]];
        MarkedWithin(before[ids[k]], mid[ids[k]], fortunes[k], from, now, from, to);
      }
    }
  }

  lemma BatchUnfolds(p: D.PollerId, rows: seq<Row>, fortunes: seq<Fortune>, n: nat)
    requires 0 < n <= |rows| <= |fortunes| && AllPlausible(fortunes)
    ensures BatchLabels(p, rows[..n], fortunes) ==
      DeliveryLabels(p, rows[0], fortunes[0]) + BatchLabels(p, rows[1..][..n - 1], fortunes[1..])
  {
    assert rows[..n][1..] == rows[1..][..n - 1];
  }

  lemma Regroup3(a: seq<D.Label>, b: seq<D.Label>, c: seq<D.Label>)
    ensures a + (b + c) == a + b + c
  {
  }

  lemma {:induction false} BatchLabelsMore(p: D.PollerId, rows: seq<Row>, fortunes: seq<Fortune>, n: nat)
    requires n < |rows| <= |fortunes| && AllPlausible(fortunes)
    ensures BatchLabels(p, rows[..n + 1], fortunes) ==
      BatchLabels(p, rows[..n], fortunes) + DeliveryLabels(p, rows[n], fortunes[n])
    decreases n
  {
    BatchUnfolds(p, rows, fortunes, n + 1);
    if n == 0 {
      assert rows[1..][..0] == [] && rows[..0] == [];
    } else {
      BatchUnfolds(p, rows, fortunes, n);
      assert rows[1..][n - 1] == rows[n] && fortunes[1..][n - 1] == fortunes[n];
      BatchLabelsMore(p, rows[1..], fortunes[1..], n - 1);
      Regroup3(DeliveryLabels(p, rows[0], fortunes[0]), BatchLabels(p, rows[1..][..n - 1], fortunes[1..]),
               DeliveryLabels(p, rows[n], fortunes[n]));
    }
  }

  /** The first n deliveries of a batch are done, and the machine has made their steps. */
  ghost predicate DeliveredSoFar(t: Table, start: D.State, p: D.PollerId, ids: seq<Id>, at: int,
                                 fortunes: seq<Fortune>, n: nat)
    requires n <= |ids| <= |fortunes| && AllPlausible(fortunes)
    requires forall i | 0 <= i < |ids| :: ids[i] in start.rows
    reads t
  {
    && t.Valid() && start.clock <= t.clock
    && p in t.history.batches && t.history.batches[p] == D.ClaimsFor(ids, at)[n..]
    && t.history == D.Run(start, BatchLabels(p, RowsOf(start.rows, ids)[..n], fortunes))
    && BatchMarked(start.rows, t.rows, ids, fortunes, n, start.clock, t.clock)
  }

  /** The delivery of the n-th event of a batch. */
  method DeliverNext(t: Table, p: D.PollerId, ids: seq<Id>, at: int, fortunes: seq<Fortune>, n: nat,
                     ghost start: D.State)
    requires n < |ids| <= |fortunes| && AllPlausible(fortunes) && D.Distinct(ids)
    requires forall i | 0 <= i < |ids| :: ids[i] in start.rows
    requires DeliveredSoFar(t, start, p, ids, at, fortunes, n)
    modifies t
    ensures DeliveredSoFar(t, start, p, ids, at, fortunes, n + 1)
  {
    var c := D.Claim(ids[n], at, None);
    assert t.history.batches[p][0] == c;
    assert ids[n] !in ids[..n];
    ghost var mid, rows := t.history, RowsOf(start.rows, ids);
    Deliver(t, p, c, fortunes[n]);
    BatchThen(start.rows, mid.rows, t.rows, ids, fortunes, n, start.clock, mid.clock, t.clock);
    BatchLabelsMore(p, rows, fortunes, n);
    RunConcat(start, BatchLabels(p, rows[..n], fortunes), DeliveryLabels(p, rows[n], fortunes[n]));
  }

  /** The loop of poll: the claimed events, one after another, all under the lease of one moment. */
  method DeliverAll(t: Table, p: D.PollerId, ids: seq<Id>, at: int, fortunes: seq<Fortune>)
    requires t.Valid() && p in t.history.batches && t.history.batches[p] == D.ClaimsFor(ids, at)
    requires |ids| <= |fortunes| && AllPlausible(fortunes)
    requires D.Distinct(ids) && forall i | 0 <= i < |ids| :: ids[i] in t.rows
    modifies t
    ensures t.Valid() && D.Idle(t.history, p) && old(t.clock) <= t.clock
    ensures t.history == D.Run(old(t.history), BatchLabels(p, RowsOf(old(t.rows), ids), fortunes))
    ensures BatchMarked(old(t.rows), t.rows, ids, fortunes, |ids|, old(t.clock), t.clock)
  {
    ghost var start := t.history;
    for i := 0 to |ids|
      invariant DeliveredSoFar(t, start, p, ids, at, fortunes, i)
    {
      DeliverNext(t, p, ids, at, fortunes, i, start);
    }
    assert RowsOf(start.rows, ids)[..|ids|] == RowsOf(start.rows, ids);
  }

  /** The events that can be claimed. */
  ghost function Ready(rows: map<Id, Row>, now: int): set<Id> {
    set id | id in rows && IsDue(rows[id].status, rows[id].next, now)
  }

  lemma {:induction false} CountDistinct(ids: seq<Id>, s: set<Id>)
    requires D.Distinct(ids) && forall id :: id in ids <==> id in s
    ensures |ids| == |s|
    decreases |ids|
  {
    if ids != [] {
      var rest := ids[1..];
      assert ids == [ids[0]] + rest;
      assert forall i | 0 <= i < |rest| :: rest[i] == ids[i + 1];
      CountDistinct(rest, s - {ids[0]});
    }
  }

  /** The steps of a batch depend on the events only, not on what the claim has changed. */
  lemma {:induction false} SameTargets(p: D.PollerId, rows: seq<Row>, claimed: seq<Row>, fortunes: seq<Fortune>)
    requires |rows| == |claimed| <= |fortunes| && forall i | 0 <= i < |rows| :: |fortunes[i].writes| == MARK_TRIES
    requires forall i | 0 <= i < |rows| :: rows[i].event == claimed[i].event
    ensures BatchLabels(p, rows, fortunes) == BatchLabels(p, claimed, fortunes)
    decreases |rows|
  {
    if rows != [] {
      SameTargets(p, rows[1..], claimed[1..], fortunes[1..]);
    }
  }

  lemma PollRuns(start: D.State, mid: D.State, p: D.PollerId, ids: seq<Id>, lag: nat, now: int, fortunes: seq<Fortune>)
    requires |ids| <= |fortunes| && AllPlausible(fortunes) && forall i | 0 <= i < |ids| :: ids[i] in start.rows
    requires mid == D.Run(start, ClaimLabels(p, ids, lag, Applied)) && mid.rows == Claimed(start.rows, ids, now)
    ensures D.Run(mid, BatchLabels(p, RowsOf(mid.rows, ids), fortunes))
         == D.Run(start, PollLabels(p, ids, lag, RowsOf(start.rows, ids), fortunes))
  {
    SameTargets(p, RowsOf(start.rows, ids), RowsOf(mid.rows, ids), fortunes);
    RunConcat(start, ClaimLabels(p, ids, lag, Applied), BatchLabels(p, RowsOf(start.rows, ids), fortunes));
  }

  /** The claim of poll: fifty events, or all that are ready. */
  method ClaimBatch(t: Table, p: D.PollerId, order: seq<Id>, lag: nat, fate: Fate) returns (ids: seq<Id>, err: bool)
    requires t.Valid() && D.Idle(t.history, p)
    requires D.Distinct(order) && forall id :: id in order <==> id in t.rows
    modifies t
    ensures t.Valid() && t.clock == old(t.clock) + lag && err == !fate.Applied?
    ensures D.CanPoll(old(t.history), p, ids) && forall i | 0 <= i < |ids| :: ids[i] in old(t.rows)
    ensures |ids| == 50 || |ids| == |Ready(old(t.rows), old(t.clock))|
    ensures t.history == D.Run(old(t.history), ClaimLabels(p, ids, lag, fate))
    ensures t.rows == if fate.Refused? then old(t.rows) else Claimed(old(t.rows), ids, old(t.clock))
    ensures if err then D.Idle(t.history, p)
            else p in t.history.batches && t.history.batches[p] == D.ClaimsFor(ids, old(t.clock))
  {
    ghost var ready := Ready(t.rows, t.clock);
    var events;
    events, ids, err := t.ClaimPendingEvents(p, BATCH_SIZE, order, lag, fate);
    if |ids| < BATCH_SIZE {
      CountDistinct(ids, ready);
    }
    assert forall i | 0 <= i < |ids| :: ids[i] in ids;
  }

  /** A poll that has claimed these events and delivered each of them once. */
  ghost predicate Polled(start: D.State, end: D.State, p: D.PollerId, ids: seq<Id>, lag: nat, fortunes: seq<Fortune>)
    requires |ids| <= |fortunes| && AllPlausible(fortunes) && forall i | 0 <= i < |ids| :: ids[i] in start.rows
  {
    && end == D.Run(start, PollLabels(p, ids, lag, RowsOf(start.rows, ids), fortunes))
    && BatchMarked(Claimed(start.rows, ids, start.clock), end.rows, ids, fortunes, |ids|, start.clock + lag, end.clock)
  }

  lemma SameRows(rows: map<Id, Row>, same: map<Id, Row>, end: map<Id, Row>, ids: seq<Id>, fortunes: seq<Fortune>,
                 from: int, start: int, to: int)
    requires rows == same && from == start
    requires |ids| <= |fortunes| && BatchMarked(rows, end, ids, fortunes, |ids|, from, to)
    ensures BatchMarked(same, end, ids, fortunes, |ids|, start, to)
  {
  }

  lemma PollEnds(start: D.State, end: D.State, p: D.PollerId, ids: seq<Id>, lag: nat, fortunes: seq<Fortune>)
    requires |ids| <= |fortunes| && AllPlausible(fortunes) && forall i | 0 <= i < |ids| :: ids[i] in start.rows
    requires end == D.Run(start, PollLabels(p, ids, lag, RowsOf(start.rows, ids), fortunes))
    requires BatchMarked(Claimed(start.rows, ids, start.clock), end.rows, ids, fortunes, |ids|,
                         start.clock + lag, end.clock)
    ensures Polled(start, end, p, ids, lag, fortunes)
  {
  }

  /** The deliveries of a batch that has just been claimed. */
  method DeliverClaimed(t: Table, p: D.PollerId, ids: seq<Id>, at: int, lag: nat, fortunes: seq<Fortune>,
                        ghost start: D.State)
    requires t.Valid() && D.Distinct(ids) && |ids| <= |fortunes| && AllPlausible(fortunes) && at == start.clock
    requires forall i | 0 <= i < |ids| :: ids[i] in start.rows
    requires t.history == D.Run(start, ClaimLabels(p, ids, lag, Applied)) && t.rows == Claimed(start.rows, ids, at)
    requires p in t.history.batches && t.history.batches[p] == D.ClaimsFor(ids, at) && t.clock == at + lag
    modifies t
    ensures t.Valid() && D.Idle(t.history, p) && Polled(start, t.history, p, ids, lag, fortunes)
  {
    ghost var mid := t.history;
    PollRuns(start, mid, p, ids, lag, at, fortunes);
    DeliverAll(t, p, ids, at, fortunes);
    SameRows(mid.rows, Claimed(start.rows, ids, start.clock), t.rows, ids, fortunes, mid.clock,
             start.clock + lag, t.clock);
    PollEnds(start, t.history, p, ids, lag, fortunes);
  }

  /**
   poll: claims a batch and delivers it one event after another; if the claim fails, nothing is
   delivered. All of it runs under the one lease taken at the start.
   */
  method Poll(t: Table, p: D.PollerId, order: seq<Id>, lag: nat, fate: Fate, fortunes: seq<Fortune>)
    returns (ids: seq<Id>, err: bool)
    requires t.Valid() && D.Idle(t.history, p)
    requires D.Distinct(order) && forall id :: id in order <==> id in t.rows
    requires |fortunes| == 50 && AllPlausible(fortunes)
    modifies t
    ensures t.Valid() && D.Idle(t.history, p) && err == !fate.Applied?
    ensures D.CanPoll(old(t.history), p, ids) && forall i | 0 <= i < |ids| :: ids[i] in old(t.history).rows
    ensures |ids| == 50 || |ids| == |Ready(old(t.rows), old(t.clock))|
    ensures err ==>
      && t.history == D.Run(old(t.history), ClaimLabels(p, ids, lag, fate))
      && t.rows == if fate.Refused? then old(t.rows) else Claimed(old(t.rows), ids, old(t.clock))
    ensures !err ==> Polled(old(t.history), t.history, p, ids, lag, fortunes)
  {
    ghost var start := t.history;
    var at := t.clock;
    ids, err := ClaimBatch(t, p, order, lag, fate);
    if err {
      return;
    }
    DeliverClaimed(t, p, ids, at, lag, fortunes, start);
  }

  /** A poll of at most one event whose claim is answered within three seconds is disciplined. */
  lemma PollOfOne(s: D.State, p: D.PollerId, ids: seq<Id>, lag: nat, rows: seq<Row>, fortunes: seq<Fortune>)
    requires D.CanPoll(s, p, ids) && |rows| == |ids| <= 1 && lag < 3 * SECOND
    requires |fortunes| == |rows| && AllPlausible(fortunes)
    ensures Leases.DisciplinedRun(false, s, PollLabels(p, ids, lag, rows, fortunes))
  {
    PollInTimeIff(s, p, ids, lag, rows);
    assert rows != [] ==> rows[1..] == [];
  }
}
