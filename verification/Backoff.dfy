/** Exponential backoff: bounds on the waiting before an event is given up. */
module Backoff {
  import opened Types
  import opened Outbox

  /** A row after failing at each of these times in turn, with these jitters. */
  function FailAll(row: Row, times: seq<int>, jitters: seq<int>, maxRetries: int): Row
    requires |times| == |jitters|
  {
    if times == [] then row
    else
      var n := |times| - 1;
      MarkRow(FailAll(row, times[..n], jitters[..n], maxRetries), AsFailed, times[n], maxRetries, jitters[n])
  }

  /** The delays scheduled by those failures, added up; a failure that gives up schedules none. */
  function Scheduled(row: Row, times: seq<int>, jitters: seq<int>, maxRetries: int): int
    requires |times| == |jitters|
  {
    if times == [] then 0
    else
      var n := |times| - 1;
      var after := FailAll(row, times, jitters, maxRetries);
      Scheduled(row, times[..n], jitters[..n], maxRetries)
        + (if after.next.Some? then after.next.value - times[n] else 0)
  }

  lemma {:induction false} FailuresCount(row: Row, times: seq<int>, jitters: seq<int>, maxRetries: int)
    requires |times| == |jitters| < maxRetries && row == NewRow(row.event)
    requires forall j | j in jitters :: IsJitter(j)
    ensures var after := FailAll(row, times, jitters, maxRetries);
      after.attempts == |times| && after.status.Pending? && (times != [] ==> after.next.Some?)
    ensures var sum := Scheduled(row, times, jitters, maxRetries);
      && BACKOFF * (Power2(|times| + 1) - 2) <= sum
      && (times == [] || sum < BACKOFF * (Power2(|times| + 1) - 2) + BACKOFF * |times|)
      && (times == [] ==> sum == 0)
  {
    if times != [] {
      var n := |times| - 1;
      FailuresCount(row, times[..n], jitters[..n], maxRetries);
      assert jitters[n] in jitters;
    }
  }

  lemma Bounds(n: nat, sum: int)
    requires BACKOFF * (Power2(n + 1) - 2) <= sum
    requires n == 0 || sum < BACKOFF * (Power2(n + 1) - 2) + BACKOFF * n
    requires n == 0 ==> sum == 0
    ensures BACKOFF * (Power2(n + 1) - 2) <= sum
    ensures sum < BACKOFF * (Power2(n + 1) - 2) + BACKOFF * n <==> n >= 1
  {
    if n == 0 {
      assert Power2(1) == 2;
    }
  }

  /**
   With retry limit N, the N-th failure is the one that dead-letters, and the delays scheduled
   before it total at least 5 * (2^N - 2) seconds. They total less than that plus 5 * (N - 1)
   exactly when N is at least two: with N = 1 there is no delay, and both bounds are zero.
   */
  lemma TotalBackoff(row: Row, times: seq<int>, jitters: seq<int>, maxRetries: nat, last: int, jitter: int)
    requires maxRetries >= 1 && |times| == |jitters| == maxRetries - 1
    requires row == NewRow(row.event) && forall j | j in jitters :: IsJitter(j)
    ensures var before := FailAll(row, times, jitters, maxRetries);
      && before.status.Pending?
      && MarkRow(before, AsFailed, last, maxRetries, jitter).status.DeadLetter?
    ensures var sum, n := Scheduled(row, times, jitters, maxRetries), maxRetries - 1;
      && BACKOFF * (Power2(n + 1) - 2) <= sum
      && (sum < BACKOFF * (Power2(n + 1) - 2) + BACKOFF * n <==> maxRetries >= 2)
  {
    FailuresCount(row, times, jitters, maxRetries);
    assert |times| == 0 <==> times == [];
    Bounds(|times|, Scheduled(row, times, jitters, maxRetries));
  }

  /** The first failure is the last exactly when the limit is at most one. */
  lemma FirstIsLastIff(row: Row, maxRetries: int, now: int, jitter: int)
    requires row == NewRow(row.event)
    ensures MarkRow(row, AsFailed, now, maxRetries, jitter).status.DeadLetter? <==> maxRetries <= 1
  {
  }

  /** For the configured limit of eight: between 1270 and 1305 seconds. */
  lemma EightFailures(row: Row, times: seq<int>, jitters: seq<int>)
    requires |times| == |jitters| == MAX_DELIVERIES - 1
    requires row == NewRow(row.event) && forall j | j in jitters :: 0 <= j < 5_000_000
    ensures 1270 * SECOND <= Scheduled(row, times, jitters, MAX_DELIVERIES) < 1305 * SECOND
  {
    FailuresCount(row, times, jitters, MAX_DELIVERIES);
    assert Power2(8) == 256 by {
      assert Power2(4) == 16;
    }
  }

  /** Each failure waits longer than the one before, whatever the jitter. */
  lemma DelaysIncrease(k: nat, jitter: int, nextJitter: int)
    requires k >= 1 && IsJitter(jitter) && IsJitter(nextJitter)
    ensures Delay(k, jitter) < Delay(k + 1, nextJitter)
  {
    assert Power2(k) >= 2 by {
      Power2Positive(k - 1);
    }
  }

  lemma {:induction false} Power2Positive(n: nat)
    ensures Power2(n) >= 1
  {
    if n > 0 {
      Power2Positive(n - 1);
    }
  }
}
