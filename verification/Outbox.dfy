/** The delivery columns of an outbox row, and the statements that claim and mark rows. */
module Outbox {
  import opened Types

  datatype Status = Pending | InFlight | Delivered | DeadLetter

  /** event holds the columns fixed at insertion; next is next_attempt_at. */
  datatype Row = Row(event: Event, status: Status, attempts: nat, next: Option<int>)

  /** How long a claim is good for: staleInFlightThreshold. */
  const LEASE: int := 30 * SECOND
  const BATCH_SIZE: nat := 50
  const MAX_DELIVERIES: nat := 8
  const BACKOFF: int := 5 * SECOND

  function NewRow(event: Event): Row {
    Row(event, Pending, 0, None)
  }

  predicate Settled(row: Row) {
    row.status.Delivered? || row.status.DeadLetter?
  }

  /** The WHERE clause of ClaimPendingEvents. */
  predicate Claimable(row: Row, now: int) {
    || (row.status.Pending? && (row.next.Some? ==> row.next.value <= now))
    || (row.status.InFlight? && row.next.Some? && row.next.value <= now)
  }

  function ClaimRow(row: Row, now: int): Row {
    row.(status := InFlight, next := Some(now + LEASE))
  }

  function Power2(n: nat): nat {
    if n == 0 then 1 else 2 * Power2(n - 1)
  }

  /** The delay scheduled by the k-th failure; jitter is the random part. */
  function Delay(k: nat, jitter: int): int {
    BACKOFF * Power2(k) + jitter
  }

  /** random() * interval '5 seconds'. */
  predicate IsJitter(jitter: int) {
    0 <= jitter < BACKOFF
  }

  /** What a poller writes after a delivery. */
  datatype Mark = AsDelivered | AsDeadLetter | AsFailed

  function MarkRow(row: Row, mark: Mark, now: int, maxRetries: int, jitter: int): Row {
    match mark
    case AsDelivered => row.(status := Delivered, next := None)
    case AsDeadLetter => row.(status := DeadLetter, next := None, attempts := row.attempts + 1)
    case AsFailed =>
      if row.attempts + 1 >= maxRetries
      then row.(status := DeadLetter, next := None, attempts := row.attempts + 1)
      else row.(status := Pending, next := Some(now + Delay(row.attempts + 1, jitter)), attempts := row.attempts + 1)
  }

  /** What came back from the merchant. */
  datatype Response = BadUrl | NetworkError | HttpStatus(code: int)

  predicate NoTarget(row: Row) {
    row.event.target.None? || row.event.target.value == ""
  }

  predicate Accepted(response: Response) {
    response.HttpStatus? && 200 <= response.code < 300
  }

  /** The branches of deliver. */
  function Verdict(row: Row, response: Response): Mark {
    if NoTarget(row) then AsDelivered
    else match response
         case BadUrl => AsDeadLetter
         case NetworkError => AsFailed
         case HttpStatus(code) =>
           if 200 <= code < 300 then AsDelivered
           else if 400 <= code < 500 then AsDeadLetter
           else AsFailed
  }
}
