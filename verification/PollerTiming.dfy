/**
 When a poller is in time. The steps a delivery takes are a function of what it meets, so the
 batches that keep the lease discipline whatever they meet can be told before delivery starts.
 */
module PollerTiming {
  import opened Types
  import opened Outbox
  import opened Delivery
  import Leases

  const DELIVER_TIMEOUT: int := 10_000_000
  const MARK_TIMEOUT: int := 5_000_000
  const MARK_TRIES: nat := 3

  /** How a statement ends: it takes effect and says so; it takes effect unheard; it has no effect. */
  datatype Fate = Applied | Unheard | Refused

  datatype Write = Write(time: nat, fate: Fate)

  /** What a delivery meets: the answer and how long it takes, the writes, the random part. */
  datatype Fortune = Fortune(response: Response, httpTime: nat, writes: seq<Write>, jitter: int)

  predicate Plausible(f: Fortune) {
    && f.httpTime <= DELIVER_TIMEOUT
    && |f.writes| == MARK_TRIES && (forall i | 0 <= i < MARK_TRIES :: f.writes[i].time <= MARK_TIMEOUT)
    && 0 <= f.jitter < 5_000_000
  }

  // ----------------------------------------------------- the steps of a delivery

  /** The request: none for an event without a webhook or with a bad URL. */
  function RequestLabels(row: Row, f: Fortune): seq<Label> {
    if NoTarget(row) || f.response.BadUrl? then [] else [Elapse(f.httpTime)]
  }

  /** One try at the mark; an earlier one may have taken effect already. */
  function TryLabels(p: PollerId, w: Write, jitter: int, landed: bool): seq<Label> {
    [Elapse(w.time)] + if landed || w.fate.Refused? then [] else [Land(p, jitter)]
  }

  /** The tries from the i-th on, a second apart, until one is heard; then the claim is left to run out. */
  function RetryLabels(p: PollerId, f: Fortune, i: nat, landed: bool): seq<Label>
    requires |f.writes| == MARK_TRIES && i <= MARK_TRIES
    decreases MARK_TRIES - i
  {
    if i == MARK_TRIES then if landed then [] else [Lose(p)]
    else
      TryLabels(p, f.writes[i], f.jitter, landed) +
      if f.writes[i].fate.Applied? then []
      else (if i < 2 then [Elapse(1_000_000)] else [])
           + RetryLabels(p, f, i + 1, landed || f.writes[i].fate.Unheard?)
  }

  /** The mark: several tries for a delivery that was accepted, one otherwise. */
  function MarkLabels(p: PollerId, f: Fortune, accepted: bool): seq<Label>
    requires |f.writes| == MARK_TRIES
  {
    if accepted then RetryLabels(p, f, 0, false)
    else TryLabels(p, f.writes[0], f.jitter, false) + if f.writes[0].fate.Refused? then [Lose(p)] else []
  }

  function DeliveryLabels(p: PollerId, row: Row, f: Fortune): seq<Label>
    requires |f.writes| == MARK_TRIES
  {
    RequestLabels(row, f) + [Answer(p, f.response)] + MarkLabels(p, f, !NoTarget(row) && Accepted(f.response))
  }

  /** The events of a batch, one after another. */
  function BatchLabels(p: PollerId, rows: seq<Row>, fortunes: seq<Fortune>): seq<Label>
    requires |rows| <= |fortunes| && forall i | 0 <= i < |rows| :: |fortunes[i].writes| == MARK_TRIES
  {
    if rows == [] then []
    else DeliveryLabels(p, rows[0], fortunes[0]) + BatchLabels(p, rows[1..], fortunes[1..])
  }

  lemma {:induction false} RunConcat(s: State, a: seq<Label>, b: seq<Label>)
    ensures Run(s, a + b) == Run(Run(s, a), b)
    decreases |a|
  {
    if a == [] {
      assert a + b == b;
    } else {
      assert (a + b)[0] == a[0] && (a + b)[1..] == a[1..] + b;
      RunConcat(Step(s, a[0]), a[1..], b);
    }
  }

  // ------------------------------------------------------------- time and pops

  function TimeOf(l: Label): int {
    if l.Elapse? then l.time else 0
  }

  function Duration(ls: seq<Label>): int {
    if ls == [] then 0 else TimeOf(ls[0]) + Duration(ls[1..])
  }

  /** Labels that take a claim off the batch. */
  function Pops(ls: seq<Label>): nat {
    if ls == [] then 0 else (if ls[0].Land? || ls[0].Lose? then 1 else 0) + Pops(ls[1..])
  }

  /** Every mark lands before the deadline. */
  predicate OnTime(now: int, ls: seq<Label>, deadline: int)
    decreases |ls|
  {
    ls != [] ==> (ls[0].Land? ==> now < deadline) && OnTime(now + TimeOf(ls[0]), ls[1..], deadline)
  }

  /** Steps of one poller at work on its batch. */
  predicate WorkOf(p: PollerId, l: Label) {
    l.Elapse? || l == Lose(p) || (l.Answer? && l.p == p) || (l.Land? && l.p == p)
  }

  predicate AllWorkOf(p: PollerId, ls: seq<Label>) {
    forall i | 0 <= i < |ls| :: WorkOf(p, ls[i])
  }

  lemma {:induction false} ConcatTimes(a: seq<Label>, b: seq<Label>, now: int, deadline: int)
    ensures Duration(a + b) == Duration(a) + Duration(b)
    ensures Pops(a + b) == Pops(a) + Pops(b)
    ensures OnTime(now, a + b, deadline) <==> OnTime(now, a, deadline) && OnTime(now + Duration(a), b, deadline)
    decreases |a|
  {
    if a == [] {
      assert a + b == b;
    } else {
      assert (a + b)[0] == a[0] && (a + b)[1..] == a[1..] + b;
      ConcatTimes(a[1..], b, now + TimeOf(a[0]), deadline);
    }
  }

  lemma {:induction false} RunTakes(s: State, ls: seq<Label>)
    ensures Run(s, ls).clock == s.clock + Duration(ls)
    decreases |ls|
  {
    if ls != [] {
      RunTakes(Step(s, ls[0]), ls[1..]);
    }
  }

  /** The same for the claim at hand alone, whatever waits behind it. */
  lemma {:induction false} OneClaimOnTime(s: State, p: PollerId, c: Claim, ls: seq<Label>)
    requires Busy(s, p) && s.batches[p][0].at == c.at
    requires AllWorkOf(p, ls) && Pops(ls) <= 1 && OnTime(s.clock, ls, c.at + LEASE)
    ensures Leases.DisciplinedRun(false, s, ls)
    decreases |ls|
  {
    if ls != [] {
      var next := Step(s, ls[0]);
      assert WorkOf(p, ls[0]);
      assert forall i | 0 <= i < |ls[1..]| :: ls[1..][i] == ls[i + 1];
      if ls[0].Land? || ls[0].Lose? {
        NoLandLeft(next, p, ls[1..]);
      } else {
        OneClaimOnTime(next, p, c, ls[1..]);
      }
    }
  }

  lemma {:induction false} NoLandLeft(s: State, p: PollerId, ls: seq<Label>)
    requires AllWorkOf(p, ls) && Pops(ls) == 0
    ensures Leases.DisciplinedRun(false, s, ls)
    decreases |ls|
  {
    if ls != [] {
      assert WorkOf(p, ls[0]);
      assert forall i | 0 <= i < |ls[1..]| :: ls[1..][i] == ls[i + 1];
      NoLandLeft(Step(s, ls[0]), p, ls[1..]);
    }
  }

  /** A poller whose claims were all taken at one moment keeps the discipline exactly when its marks are on time. */
  lemma {:induction false} DisciplinedIffOnTime(s: State, p: PollerId, at: int, ls: seq<Label>)
    requires p in s.batches && (forall c | c in s.batches[p] :: c.at == at)
    requires AllWorkOf(p, ls) && Pops(ls) <= |s.batches[p]|
    ensures Leases.DisciplinedRun(false, s, ls) <==> OnTime(s.clock, ls, at + LEASE)
    decreases |ls|
  {
    if ls != [] {
      var next := Step(s, ls[0]);
      assert WorkOf(p, ls[0]);
      assert forall i | 0 <= i < |ls[1..]| :: ls[1..][i] == ls[i + 1];
      if s.batches[p] != [] {
        assert s.batches[p][0] in s.batches[p];
      }
      DisciplinedIffOnTime(next, p, at, ls[1..]);
    }
  }

  // ------------------------------------------------------------------ extremes

  /** The longest a delivery can take: one mark, or a request, three marks and two pauses. */
  function Longest(row: Row): int {
    if NoTarget(row) then 5_000_000 else 27_000_000
  }

  function LongestOf(rows: seq<Row>): int {
    if rows == [] then 0 else Longest(rows[0]) + LongestOf(rows[1..])
  }

  /** The fortune that takes it: the answer at the last moment, and no mark before the third. */
  function Slowest(row: Row): Fortune {
    if NoTarget(row)
    then Fortune(BadUrl, 0, [Write(5_000_000, Applied), Write(0, Applied), Write(0, Applied)], 0)
    else Fortune(HttpStatus(200), 10_000_000,
                 [Write(5_000_000, Refused), Write(5_000_000, Refused), Write(5_000_000, Applied)], 0)
  }

  function SlowestOf(rows: seq<Row>): seq<Fortune>
    ensures |SlowestOf(rows)| == |rows|
  {
    if rows == [] then [] else [Slowest(rows[0])] + SlowestOf(rows[1..])
  }

  /** What every delivery of a poller looks like from outside: its steps, its one pop, its time. */
  ghost predicate Bounded(p: PollerId, ls: seq<Label>, pops: nat, longest: int) {
    && AllWorkOf(p, ls) && Pops(ls) == pops && 0 <= Duration(ls) <= longest
    && forall now, deadline | now + longest < deadline :: OnTime(now, ls, deadline)
  }

  lemma BoundedConcat(p: PollerId, a: seq<Label>, m: nat, x: int, b: seq<Label>, n: nat, y: int)
    requires Bounded(p, a, m, x) && Bounded(p, b, n, y)
    ensures Bounded(p, a + b, m + n, x + y)
  {
    forall now, deadline | now + x + y < deadline ensures OnTime(now, a + b, deadline) {
      ConcatTimes(a, b, now, deadline);
      assert OnTime(now, a, deadline) && OnTime(now + Duration(a), b, deadline);
    }
    ConcatTimes(a, b, 0, 0);
  }

  lemma NothingBounded(p: PollerId)
    ensures Bounded(p, [], 0, 0)
  {
  }

  lemma OneBounded(p: PollerId, l: Label, longest: int)
    requires WorkOf(p, l) && TimeOf(l) <= longest
    ensures Bounded(p, [l], if l.Land? || l.Lose? then 1 else 0, longest)
  {
    assert [l][1..] == [];
  }

  lemma TryBounded(p: PollerId, w: Write, jitter: int, landed: bool)
    requires w.time <= MARK_TIMEOUT
    ensures Bounded(p, TryLabels(p, w, jitter, landed), if landed || w.fate.Refused? then 0 else 1, 5_000_000)
  {
    OneBounded(p, Elapse(w.time), 5_000_000);
    if landed || w.fate.Refused? {
      assert TryLabels(p, w, jitter, landed) == [Elapse(w.time)];
    } else {
      OneBounded(p, Land(p, jitter), 0);
      BoundedConcat(p, [Elapse(w.time)], 0, 5_000_000, [Land(p, jitter)], 1, 0);
    }
  }

  /** Five seconds a try, and a second after the first two. */
  function RetryTime(i: nat): int {
    if i == 0 then 17_000_000 else if i == 1 then 11_000_000 else if i == 2 then 5_000_000 else 0
  }

  lemma {:induction false} RetryBounded(p: PollerId, f: Fortune, i: nat, landed: bool)
    requires Plausible(f) && i <= MARK_TRIES
    ensures Bounded(p, RetryLabels(p, f, i, landed), if landed then 0 else 1, RetryTime(i))
    decreases MARK_TRIES - i
  {
    if i == MARK_TRIES {
      if landed {
        NothingBounded(p);
      } else {
        OneBounded(p, Lose(p), 0);
      }
    } else {
      var w := f.writes[i];
      var first := TryLabels(p, w, f.jitter, landed);
      TryBounded(p, w, f.jitter, landed);
      if w.fate.Applied? {
        assert RetryLabels(p, f, i, landed) == first;
        BoundedLonger(p, first, 5_000_000, RetryTime(i));
      } else {
        var after := landed || w.fate.Unheard?;
        var rest := RetryLabels(p, f, i + 1, after);
        RetryBounded(p, f, i + 1, after);
        if i < 2 {
          OneBounded(p, Elapse(1_000_000), 1_000_000);
          BoundedConcat(p, [Elapse(1_000_000)], 0, 1_000_000, rest, if after then 0 else 1, RetryTime(i + 1));
          BoundedConcat(p, first, if landed || w.fate.Refused? then 0 else 1, 5_000_000,
                        [Elapse(1_000_000)] + rest, if after then 0 else 1, 1_000_000 + RetryTime(i + 1));
        } else {
          assert [] + rest == rest;
          BoundedConcat(p, first, if landed || w.fate.Refused? then 0 else 1, 5_000_000,
                        rest, if after then 0 else 1, RetryTime(i + 1));
        }
      }
    }
  }

  lemma BoundedLonger(p: PollerId, ls: seq<Label>, x: int, y: int)
    requires x <= y
    ensures forall n: nat | Bounded(p, ls, n, x) :: Bounded(p, ls, n, y)
  {
  }

  lemma MarkBounded(p: PollerId, f: Fortune, accepted: bool)
    requires Plausible(f)
    ensures Bounded(p, MarkLabels(p, f, accepted), 1, if accepted then 17_000_000 else 5_000_000)
  {
    if accepted {
      RetryBounded(p, f, 0, false);
    } else {
      var first := TryLabels(p, f.writes[0], f.jitter, false);
      TryBounded(p, f.writes[0], f.jitter, false);
      if f.writes[0].fate.Refused? {
        OneBounded(p, Lose(p), 0);
        BoundedConcat(p, first, 0, 5_000_000, [Lose(p)], 1, 0);
      } else {
        assert first + [] == first;
      }
    }
  }

  lemma RequestBounded(p: PollerId, row: Row, f: Fortune)
    requires Plausible(f)
    ensures Bounded(p, RequestLabels(row, f), 0, if NoTarget(row) || f.response.BadUrl? then 0 else 10_000_000)
  {
    if NoTarget(row) || f.response.BadUrl? {
      NothingBounded(p);
    } else {
      OneBounded(p, Elapse(f.httpTime), 10_000_000);
    }
  }

  /** A delivery makes its poller's steps, takes one claim off the batch, and keeps to its time. */
  lemma DeliveryBounded(p: PollerId, row: Row, f: Fortune)
    requires Plausible(f)
    ensures Bounded(p, DeliveryLabels(p, row, f), 1, Longest(row))
  {
    var accepted := !NoTarget(row) && Accepted(f.response);
    var request, answer, mark := RequestLabels(row, f), [Answer(p, f.response)], MarkLabels(p, f, accepted);
    var asked := if NoTarget(row) || f.response.BadUrl? then 0 else 10_000_000;
    var time := if accepted then 17_000_000 else 5_000_000;
    RequestBounded(p, row, f);
    OneBounded(p, answer[0], 0);
    BoundedConcat(p, request, 0, asked, answer, 0, 0);
    MarkBounded(p, f, accepted);
    BoundedConcat(p, request + answer, 0, asked, mark, 1, time);
    BoundedLonger(p, DeliveryLabels(p, row, f), asked + time, Longest(row));
  }

  ghost predicate AllPlausible(fortunes: seq<Fortune>) {
    forall i | 0 <= i < |fortunes| :: |fortunes[i].writes| == MARK_TRIES && Plausible(fortunes[i])
  }

  lemma {:induction false} BatchBounded(p: PollerId, rows: seq<Row>, fortunes: seq<Fortune>)
    requires |rows| <= |fortunes| && AllPlausible(fortunes)
    ensures Bounded(p, BatchLabels(p, rows, fortunes), |rows|, LongestOf(rows))
    decreases |rows|
  {
    if rows == [] {
      NothingBounded(p);
    } else {
      DeliveryBounded(p, rows[0], fortunes[0]);
      BatchBounded(p, rows[1..], fortunes[1..]);
      BoundedConcat(p, DeliveryLabels(p, rows[0], fortunes[0]), 1, Longest(rows[0]),
                    BatchLabels(p, rows[1..], fortunes[1..]), |rows| - 1, LongestOf(rows[1..]));
    }
  }

  // ------------------------------------------------------------- the worst case

  lemma TwoTimes(a: Label, b: Label, now: int, deadline: int)
    ensures Duration([a, b]) == TimeOf(a) + TimeOf(b)
    ensures OnTime(now, [a, b], deadline)
      <==> (a.Land? ==> now < deadline) && (b.Land? ==> now + TimeOf(a) < deadline)
  {
    assert [a, b][1..] == [b] && [b][1..] == [];
    assert Duration([a, b]) == TimeOf(a) + Duration([b]) && Duration([b]) == TimeOf(b) + Duration([]);
    assert OnTime(now, [a, b], deadline) == ((a.Land? ==> now < deadline) && OnTime(now + TimeOf(a), [b], deadline));
    assert OnTime(now + TimeOf(a), [b], deadline) ==
      ((b.Land? ==> now + TimeOf(a) < deadline) && OnTime(now + TimeOf(a) + TimeOf(b), [], deadline));
  }

  lemma SlowestWithoutTarget(p: PollerId, row: Row, now: int, deadline: int)
    requires NoTarget(row)
    ensures var ls := DeliveryLabels(p, row, Slowest(row));
      Duration(ls) == 5_000_000 && (OnTime(now, ls, deadline) <==> now + 5_000_000 < deadline)
  {
    var land := [Elapse(5_000_000), Land(p, 0)];
    TwoTimes(land[0], land[1], now, deadline);
    assert DeliveryLabels(p, row, Slowest(row)) == [Answer(p, BadUrl)] + land;
    ConcatTimes([Answer(p, BadUrl)], land, now, deadline);
    assert [Answer(p, BadUrl)][1..] == [];
  }

  lemma SlowestWithTarget(p: PollerId, row: Row, now: int, deadline: int)
    requires !NoTarget(row)
    ensures var ls := DeliveryLabels(p, row, Slowest(row));
      Duration(ls) == 27_000_000 && (OnTime(now, ls, deadline) <==> now + 27_000_000 < deadline)
  {
    var f := Slowest(row);
    var head := [Elapse(10_000_000), Answer(p, HttpStatus(200))];
    var fail := [Elapse(5_000_000), Elapse(1_000_000)];
    var land := [Elapse(5_000_000), Land(p, 0)];
    TwoTimes(head[0], head[1], now, deadline);
    TwoTimes(fail[0], fail[1], now + 10_000_000, deadline);
    TwoTimes(fail[0], fail[1], now + 16_000_000, deadline);
    TwoTimes(land[0], land[1], now + 22_000_000, deadline);
    SlowestRetries(p, f, fail, land);
    assert DeliveryLabels(p, row, f) == head + (fail + (fail + land));
    ConcatTimes(fail, land, now + 16_000_000, deadline);
    ConcatTimes(fail, fail + land, now + 10_000_000, deadline);
    ConcatTimes(head, fail + (fail + land), now, deadline);
  }

  lemma SlowestRetries(p: PollerId, f: Fortune, fail: seq<Label>, land: seq<Label>)
    requires f.writes == [Write(5_000_000, Refused), Write(5_000_000, Refused), Write(5_000_000, Applied)]
    requires f.jitter == 0 && fail == [Elapse(5_000_000), Elapse(1_000_000)] && land == [Elapse(5_000_000), Land(p, 0)]
    ensures RetryLabels(p, f, 0, false) == fail + (fail + land)
  {
    assert RetryLabels(p, f, 2, false) == land;
    assert RetryLabels(p, f, 1, false) == fail + land;
  }

  /** A delivery that takes all its time and then lands its mark. */
  lemma SlowestDelivery(p: PollerId, row: Row, now: int, deadline: int)
    ensures Plausible(Slowest(row))
    ensures var ls := DeliveryLabels(p, row, Slowest(row));
      Duration(ls) == Longest(row) && (OnTime(now, ls, deadline) <==> now + Longest(row) < deadline)
  {
    if NoTarget(row) {
      SlowestWithoutTarget(p, row, now, deadline);
    } else {
      SlowestWithTarget(p, row, now, deadline);
    }
  }

  lemma {:induction false} SlowestBatch(p: PollerId, rows: seq<Row>, now: int, deadline: int)
    ensures AllPlausible(SlowestOf(rows))
    ensures rows != [] && OnTime(now, BatchLabels(p, rows, SlowestOf(rows)), deadline) ==>
      now + LongestOf(rows) < deadline
    decreases |rows|
  {
    if rows != [] {
      var first := DeliveryLabels(p, rows[0], Slowest(rows[0]));
      SlowestDelivery(p, rows[0], now, deadline);
      SlowestBatch(p, rows[1..], now + Longest(rows[0]), deadline);
      assert SlowestOf(rows)[1..] == SlowestOf(rows[1..]);
      ConcatTimes(first, BatchLabels(p, rows[1..], SlowestOf(rows[1..])), now, deadline);
    }
  }

  // ------------------------------------------------------- the exact condition

  function RowsOf(rows: map<Id, Row>, ids: seq<Id>): (batch: seq<Row>)
    requires forall i | 0 <= i < |ids| :: ids[i] in rows
    ensures |batch| == |ids| && forall i | 0 <= i < |ids| :: batch[i] == rows[ids[i]]
  {
    seq(|ids|, i requires 0 <= i < |ids| => rows[ids[i]])
  }

  /** Whatever the deliveries meet within the timeouts, the batch keeps the lease discipline. */
  ghost predicate AlwaysInTime(s: State, p: PollerId, rows: seq<Row>) {
    forall fortunes: seq<Fortune> | |fortunes| == |rows| && AllPlausible(fortunes) ::
      Leases.DisciplinedRun(false, s, BatchLabels(p, rows, fortunes))
  }

  /**
   A batch whose claims were taken at one moment keeps the discipline, whatever its deliveries
   meet, exactly when it is empty or its longest time ends before the lease does.
   */
  lemma InTimeIff(s: State, p: PollerId, at: int, rows: seq<Row>)
    requires p in s.batches && |s.batches[p]| == |rows| && forall c | c in s.batches[p] :: c.at == at
    ensures AlwaysInTime(s, p, rows) <==> rows == [] || s.clock + LongestOf(rows) < at + LEASE
  {
    var slowest := SlowestOf(rows);
    SlowestBatch(p, rows, s.clock, at + LEASE);
    forall fortunes: seq<Fortune> | |fortunes| == |rows| && AllPlausible(fortunes)
      ensures Leases.DisciplinedRun(false, s, BatchLabels(p, rows, fortunes))
         <==> OnTime(s.clock, BatchLabels(p, rows, fortunes), at + LEASE)
      ensures s.clock + LongestOf(rows) < at + LEASE ==> OnTime(s.clock, BatchLabels(p, rows, fortunes), at + LEASE)
    {
      BatchBounded(p, rows, fortunes);
      DisciplinedIffOnTime(s, p, at, BatchLabels(p, rows, fortunes));
    }
    if rows == [] {
      assert forall fortunes: seq<Fortune> | |fortunes| == |rows| && AllPlausible(fortunes) ::
        BatchLabels(p, rows, fortunes) == [];
    }
    if AlwaysInTime(s, p, rows) {
      assert Leases.DisciplinedRun(false, s, BatchLabels(p, rows, slowest));
    }
  }

  lemma {:induction false} LongestTargets(rows: seq<Row>)
    requires forall i | 0 <= i < |rows| :: !NoTarget(rows[i])
    ensures LongestOf(rows) == 27_000_000 * |rows|
    decreases |rows|
  {
    if rows != [] {
      LongestTargets(rows[1..]);
    }
  }

  // ------------------------------------------------------------ the whole poll

  /** The claim, whose answer comes lag after the lease has started, and the batch. */
  function PollLabels(p: PollerId, ids: seq<Id>, lag: nat, rows: seq<Row>, fortunes: seq<Fortune>): seq<Label>
    requires |rows| <= |fortunes| && forall i | 0 <= i < |rows| :: |fortunes[i].writes| == MARK_TRIES
  {
    [Poll(p, ids), Elapse(lag)] + BatchLabels(p, rows, fortunes)
  }

  /** Whatever the deliveries meet within the timeouts, the poll keeps the lease discipline. */
  ghost predicate PollAlwaysInTime(s: State, p: PollerId, ids: seq<Id>, lag: nat, rows: seq<Row>) {
    forall fortunes: seq<Fortune> | |fortunes| == |rows| && AllPlausible(fortunes) ::
      Leases.DisciplinedRun(false, s, PollLabels(p, ids, lag, rows, fortunes))
  }

  lemma AfterClaiming(s: State, p: PollerId, ids: seq<Id>, lag: nat, rest: seq<Label>)
    requires CanPoll(s, p, ids)
    ensures var mid := Step(Step(s, Poll(p, ids)), Elapse(lag));
      && mid.clock == s.clock + lag && p in mid.batches && mid.batches[p] == ClaimsFor(ids, s.clock)
      && (Leases.DisciplinedRun(false, s, [Poll(p, ids), Elapse(lag)] + rest)
          <==> Leases.DisciplinedRun(false, mid, rest))
  {
    var ls := [Poll(p, ids), Elapse(lag)] + rest;
    assert ls[1..] == [Elapse(lag)] + rest && ls[1..][1..] == rest;
    assert Leases.DisciplinedRun(false, s, ls) <==> Leases.DisciplinedRun(false, Step(s, Poll(p, ids)), ls[1..]);
  }

  /**
   A poll keeps the discipline, whatever it meets, exactly when it claims nothing, or the lag of
   its claim and the longest time of its batch together are shorter than the lease.
   */
  lemma PollInTimeIff(s: State, p: PollerId, ids: seq<Id>, lag: nat, rows: seq<Row>)
    requires CanPoll(s, p, ids) && |rows| == |ids|
    ensures PollAlwaysInTime(s, p, ids, lag, rows) <==> ids == [] || lag + LongestOf(rows) < 30_000_000
  {
    var mid := Step(Step(s, Poll(p, ids)), Elapse(lag));
    AfterClaiming(s, p, ids, lag, []);
    forall fortunes: seq<Fortune> | |fortunes| == |rows| && AllPlausible(fortunes)
      ensures Leases.DisciplinedRun(false, s, PollLabels(p, ids, lag, rows, fortunes))
         <==> Leases.DisciplinedRun(false, mid, BatchLabels(p, rows, fortunes))
    {
      AfterClaiming(s, p, ids, lag, BatchLabels(p, rows, fortunes));
    }
    assert PollAlwaysInTime(s, p, ids, lag, rows) <==> AlwaysInTime(mid, p, rows);
    InTimeIff(mid, p, s.clock, rows);
  }

  /** With a webhook on every event and a claim answered within three seconds: exactly the polls of at most one. */
  lemma PollOfOneIff(s: State, p: PollerId, ids: seq<Id>, lag: nat, rows: seq<Row>)
    requires CanPoll(s, p, ids) && |rows| == |ids| && lag < 3_000_000
    requires forall i | 0 <= i < |rows| :: !NoTarget(rows[i])
    ensures PollAlwaysInTime(s, p, ids, lag, rows) <==> |ids| <= 1
  {
    PollInTimeIff(s, p, ids, lag, rows);
    LongestTargets(rows);
  }

  // ------------------------------------------------------ a batch that is late

  lemma PromptAnswer(s: State, p: PollerId, c: Claim, rest: seq<Claim>, f: Fortune) returns (mid: State)
    requires p in s.batches && s.batches[p] == [c] + rest && c.mark.None? && c.id in s.rows
    ensures mid == Step(Step(s, Elapse(f.httpTime)), Answer(p, f.response))
    ensures mid.clock == s.clock + f.httpTime && mid.rows == s.rows
    ensures mid.batches == s.batches[p := [c.(mark := Some(Verdict(s.rows[c.id], f.response)))] + rest]
  {
    mid := Step(Step(s, Elapse(f.httpTime)), Answer(p, f.response));
  }

  lemma PromptMark(s: State, p: PollerId, c: Claim, rest: seq<Claim>, time: nat, jitter: int) returns (end: State)
    requires p in s.batches && s.batches[p] == [c] + rest && c.mark.Some? && c.id in s.rows && IsJitter(jitter)
    ensures end == Step(Step(s, Elapse(time)), Land(p, jitter))
    ensures end.clock == s.clock + time && end.batches == s.batches[p := rest]
    ensures end.rows ==
      s.rows[c.id := MarkRow(s.rows[c.id], c.mark.value, s.clock + time, MAX_DELIVERIES, jitter)]
  {
    end := Step(Step(s, Elapse(time)), Land(p, jitter));
  }

  /** A delivery whose first write is heard: request, answer, mark. */
  lemma PromptDelivery(s: State, p: PollerId, c: Claim, rest: seq<Claim>, f: Fortune)
    requires p in s.batches && s.batches[p] == [c] + rest && c.mark.None? && c.id in s.rows && !NoTarget(s.rows[c.id])
    requires Plausible(f) && !f.response.BadUrl? && f.writes[0].fate.Applied?
    ensures var row := s.rows[c.id];
      var end := Run(s, DeliveryLabels(p, row, f));
      var now := s.clock + f.httpTime + f.writes[0].time;
      && end.clock == now && end.batches == s.batches[p := rest]
      && end.rows == s.rows[c.id := MarkRow(row, Verdict(row, f.response), now, MAX_DELIVERIES, f.jitter)]
  {
    var row := s.rows[c.id];
    var mid := PromptAnswer(s, p, c, rest, f);
    var end := PromptMark(mid, p, c.(mark := Some(Verdict(row, f.response))), rest, f.writes[0].time, f.jitter);
    FourSteps(s, Elapse(f.httpTime), Answer(p, f.response), Elapse(f.writes[0].time), Land(p, f.jitter));
    assert DeliveryLabels(p, row, f) ==
      [Elapse(f.httpTime), Answer(p, f.response), Elapse(f.writes[0].time), Land(p, f.jitter)];
  }

  predicate HasTarget(event: Event) {
    event.target.Some? && event.target.value != ""
  }

  /** No answer for ten seconds, then five for the mark. */
  const SLOW: Fortune := Fortune(NetworkError, 10_000_000,
                                 [Write(5_000_000, Applied), Write(0, Applied), Write(0, Applied)], 0)

  /** Accepted and marked at once. */
  const PROMPT: Fortune := Fortune(HttpStatus(200), 0, [Write(0, Applied), Write(0, Applied), Write(0, Applied)], 0)

  /** Three events, claimed by one poller in one batch. */
  function ClaimedThree(a: Event, b: Event, c: Event): seq<Label> {
    [Insert(a), Insert(b), Insert(c), Poll(1, [a.id, b.id, c.id])]
  }

  predicate ThreeEvents(a: Event, b: Event, c: Event) {
    a.id != b.id && a.id != c.id && b.id != c.id && HasTarget(a) && HasTarget(b) && HasTarget(c)
  }

  lemma AfterInserts(a: Event, b: Event, c: Event, at: int) returns (s: State)
    requires ThreeEvents(a, b, c)
    ensures s == Step(Step(Step(State(map[], at, map[], map[]), Insert(a)), Insert(b)), Insert(c))
    ensures s.clock == at && s.batches == map[]
    ensures s.rows == map[a.id := NewRow(a), b.id := NewRow(b), c.id := NewRow(c)]
  {
    s := Step(Step(Step(State(map[], at, map[], map[]), Insert(a)), Insert(b)), Insert(c));
  }

  lemma AfterPoll(s: State, a: Event, b: Event, c: Event) returns (next: State)
    requires ThreeEvents(a, b, c) && s.batches == map[]
    requires s.rows == map[a.id := NewRow(a), b.id := NewRow(b), c.id := NewRow(c)]
    ensures next == Step(s, Poll(1, [a.id, b.id, c.id])) && next.clock == s.clock
    ensures a.id in next.rows && next.rows[a.id] == ClaimRow(NewRow(a), s.clock)
    ensures b.id in next.rows && next.rows[b.id] == ClaimRow(NewRow(b), s.clock)
    ensures c.id in next.rows && next.rows[c.id] == ClaimRow(NewRow(c), s.clock)
    ensures next.batches.Keys == {1}
    ensures next.batches[1] ==
      [Claim(a.id, s.clock, None), Claim(b.id, s.clock, None), Claim(c.id, s.clock, None)]
  {
    var ids := [a.id, b.id, c.id];
    assert CanPoll(s, 1, ids);
    next := PollStep(s, 1, ids);
    assert next.batches[1] == ClaimsFor(ids, s.clock);
  }

  lemma FourSteps(s: State, a: Label, b: Label, c: Label, d: Label)
    ensures Run(s, [a, b, c, d]) == Step(Step(Step(Step(s, a), b), c), d)
  {
    var ls := [a, b, c, d];
    assert ls[1..][1..] == ls[2..] && ls[2..][1..] == ls[3..] && ls[3..][1..] == [];
    assert Run(s, ls) == Run(Step(s, a), ls[1..]) == Run(Step(Step(s, a), b), ls[2..]);
    assert Run(Step(Step(s, a), b), ls[2..]) == Run(Step(Step(Step(s, a), b), c), ls[3..]);
  }

  /** The claim of the third event is still with the poller when its lease runs out. */
  lemma SlowTwo(s: State, a: Id, b: Id, c: Id, at: int) returns (end: State, ls: seq<Label>)
    requires 1 in s.batches && s.batches[1] == [Claim(a, at, None), Claim(b, at, None), Claim(c, at, None)]
    requires a != b && a != c && b != c && a in s.rows && b in s.rows && c in s.rows && s.clock == at
    requires !NoTarget(s.rows[a]) && !NoTarget(s.rows[b])
    ensures ls == BatchLabels(1, [s.rows[a], s.rows[b]], [SLOW, SLOW]) && end == Run(s, ls)
    ensures end.clock == at + LEASE && end.batches == s.batches[1 := [Claim(c, at, None)]]
    ensures c in end.rows && end.rows[c] == s.rows[c]
  {
    var first, second := DeliveryLabels(1, s.rows[a], SLOW), DeliveryLabels(1, s.rows[b], SLOW);
    PromptDelivery(s, 1, Claim(a, at, None), [Claim(b, at, None), Claim(c, at, None)], SLOW);
    var mid := Run(s, first);
    PromptDelivery(mid, 1, Claim(b, at, None), [Claim(c, at, None)], SLOW);
    ls := first + second;
    end := Run(mid, second);
    RunConcat(s, first, second);
    var rows := [s.rows[a], s.rows[b]];
    assert rows[1..] == [s.rows[b]] && [SLOW, SLOW][1..] == [SLOW] && [s.rows[b]][1..] == [];
    assert BatchLabels(1, [s.rows[b]], [SLOW]) == second + [];
  }

  /**
   Two deliveries of a batch take fifteen seconds each, well within their timeouts. The lease of
   the third event, still waiting in the batch, runs out, and another poller claims it.
   */
  lemma TwoOwners(a: Event, b: Event, c: Event, at: int) returns (s: State, ls: seq<Label>)
    requires ThreeEvents(a, b, c)
    ensures Plausible(SLOW)
    ensures ls == ClaimedThree(a, b, c)
                  + BatchLabels(1, [ClaimRow(NewRow(a), at), ClaimRow(NewRow(b), at)], [SLOW, SLOW])
                  + [Poll(2, [c.id])]
    ensures s == Run(State(map[], at, map[], map[]), ls) && s.clock == at + LEASE
    ensures 1 in s.batches && s.batches[1] == [Claim(c.id, at, None)]
    ensures 2 in s.batches && s.batches[2] == [Claim(c.id, at + LEASE, None)]
    ensures c.id in s.rows && s.rows[c.id] == ClaimRow(NewRow(c), at + LEASE)
  {
    var start := State(map[], at, map[], map[]);
    var inserted := AfterInserts(a, b, c, at);
    var claimed := AfterPoll(inserted, a, b, c);
    FourSteps(start, Insert(a), Insert(b), Insert(c), Poll(1, [a.id, b.id, c.id]));
    var late, slow := SlowTwo(claimed, a.id, b.id, c.id, at);
    s := SecondClaim(late, c.id, at);
    var last := [Poll(2, [c.id])];
    assert last[1..] == [];
    RunConcat(start, ClaimedThree(a, b, c), slow);
    RunConcat(start, ClaimedThree(a, b, c) + slow, last);
    ls := ClaimedThree(a, b, c) + slow + last;
  }

  lemma SecondClaim(s: State, id: Id, at: int) returns (next: State)
    requires s.clock == at + LEASE && 2 !in s.batches && id in s.rows
    requires s.rows[id].status.InFlight? && s.rows[id].next == Some(at + LEASE)
    ensures next == Step(s, Poll(2, [id])) && next.clock == s.clock
    ensures next.batches == s.batches[2 := [Claim(id, at + LEASE, None)]]
    ensures id in next.rows && next.rows[id] == ClaimRow(s.rows[id], at + LEASE)
  {
    assert CanPoll(s, 2, [id]);
    next := PollStep(s, 2, [id]);
    assert ClaimsFor([id], s.clock) == [Claim(id, at + LEASE, None)];
  }

  /**
   From there the second poller delivers the event at once, and then the first one, whose turn
   has come, gets no answer and marks it failed: the delivered event is pending again. No timeout
   was exceeded anywhere.
   */
  lemma LateMarkRevives(a: Event, b: Event, c: Event, at: int) returns (s: State, ls: seq<Label>)
    requires ThreeEvents(a, b, c)
    ensures s == Run(State(map[], at, map[], map[]), ls) && Plausible(SLOW) && Plausible(PROMPT)
    ensures var row := ClaimRow(NewRow(c), at + LEASE);
      var delivered := Run(s, DeliveryLabels(2, row, PROMPT));
      var revived := Run(delivered, DeliveryLabels(1, row, SLOW));
      && c.id in delivered.rows && delivered.rows[c.id].status.Delivered?
      && c.id in revived.rows && revived.rows[c.id].status.Pending?
  {
    s, ls := TwoOwners(a, b, c, at);
    var row := s.rows[c.id];
    PromptDelivery(s, 2, Claim(c.id, at + LEASE, None), [], PROMPT);
    var delivered := Run(s, DeliveryLabels(2, row, PROMPT));
    PromptDelivery(delivered, 1, Claim(c.id, at, None), [], SLOW);
    assert DeliveryLabels(1, row, SLOW) == DeliveryLabels(1, delivered.rows[c.id], SLOW);
  }
}
