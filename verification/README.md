# IdemLedger: a verified model

IdemLedger moves money between accounts in PostgreSQL. A transfer is one transaction: it may
claim an idempotency key, debits and credits two account rows, appends a transfer, two postings
and an outbox event, completes the key and commits. Three strategies debit differently: a
conditional UPDATE (Fix A, `Execute`), a locked read (Fix B, `ExecuteWithForUpdate`) and a
version check (Fix C, `ExecuteOptimistic`). Pollers deliver the outbox events under leases, a
job reconciles balances with the journal, and accounts page through their postings.

This project models those five parts and proves what they keep. `dafny verify dfyconfig.toml`
checks all of it.

## How the model is built

The ledger is modelled twice, and both forms are tied to one atomic ledger.

- `Protocol` is a state machine for any number of calls at once, one SQL statement at a time
  under READ COMMITTED: committed tables, one open transaction per call (buffered rows, locks, the
  next statement, the attempt number), a clock and a supply of fresh ids. Labels cover new
  calls, statements, errors from outside (deadlock victim, serialisation failure, lost
  connection), a commit whose acknowledgement is lost, crashes, new accounts, webhook changes
  and time. Schema constraints are part of each statement (`Statements`).
- `LedgerCode` has the Go functions as written, with their branches, rollbacks and retry loops,
  over a connection that may fail at any statement and notes which statements it failed at.
  `LedgerSpec.Call` says what one undisturbed call answers and does. `SoloRun` proves that the
  machine, left alone, does the same, and `Sequences` that it does so request after request.
- `AtomicLedger` is the specification: one operation changes all tables at one instant.
  `ProtocolInvariant`, `ProtocolSteps` and `Refinement` prove that every interleaving is a run
  of it. The heart is that the buffer of an open transaction is determined by the rows it has
  locked, its request and its next statement, so that COMMIT installs exactly one atomic
  transfer. `LedgerLaws`, `ExactlyOnce`, `OptimisticLaws`, `Overflow`, `LockOrder`,
  `StepBound` and `Refusals` draw the consequences. `Records`, `Replays`, `Takeovers` and `Retries`
  say in the columns themselves, and in plain numbers, what runs record and answer, without naming
  the functions that the statements are made of. `Witnesses` has runs on which Fix C falls short.

`Outbox`, `Delivery`, `Leases`, `Settling`, `Pacing` and `Backoff` do the same for delivery: a machine with
any number of pollers, crashes, lost and late marks and a clock. `PollerTiming` gives the steps of
a delivery as a function of what it meets (answer, durations, which writes take effect and which
are heard) and finds out from it which batches are in time whatever they meet. `OutboxCode` has
the statements and the poller as written, on a table object, and proves that every poll makes
exactly those steps on that machine. `WholeSystem` joins both machines at the outbox table.
`Recon` and `Paging` have the reading side, with lemmas for the tables that runs of the protocol
produce.

Each machine's invariants hold where it starts: `ProtocolInvariant.InitInv`,
`LockOrder.InitOrder`, `Delivery.StartSafe`, `Settling.StartSettling`, `WholeSystem.StartSystem`.

Time is in microseconds. Amounts are unbounded integers, with the BIGINT range checked where a
row is written. One fresh number per attempt stands for everything the database and the UUID
library generate in it: the transfer and event id, the two posting ids, and the key of a transfer
sent without one. Accounts carry an opening balance, the part no posting explains, because the
load test funds them with a plain UPDATE.

## Where comments and code differ

The model follows the code.

- `internal/ledger/transfer.go:132` says that Fix C uses `execTxWithDebit`. It does not, and so
  never compares currencies: `LedgerLaws.TransferKeepsCurrenciesIff`.
- `internal/store/outbox.go:15-16` calls the lease twice the delivery timeout and says that a live
  delivery always ends before its row is reclaimed. It is three times the timeout, and a batch of
  fifty is delivered one by one under one lease. `PollerTiming.PollInTimeIff` says exactly which
  polls are in time; with a webhook on every event and a claim answered within three seconds they
  are those of at most one event. `PollerTiming.TwoOwners` is a batch of three that is not.
- The marks of the poller name a row by id only. A delivered event can go back to pending with
  every timeout kept (`PollerTiming.LateMarkRevives`); `Leases.SettledStays` says under which
  discipline it cannot.
- `internal/ledger/strategies.go:88-91` says that Fix B still retries transient errors. At BEGIN
  and at the completion of the key it does not, while Fix A does: `SoloRun.OneErrorIsFinal`,
  `LedgerCode.ExecuteWithForUpdate`.
- `internal/ledger/strategies.go:167-170` presents the version check as the whole guard. With
  debits by Fix A or Fix B on the same account the balance CHECK can fire instead, and the caller
  is told of a constraint violation: `OptimisticLaws.CheckFiresIff`, `Witnesses.CheckFires`.
- `internal/ledger/strategies.go:59` says that `debitSelectForUpdate` locks both rows. It locks
  the debited one; the pre-lock in `ExecuteWithForUpdate` locks both.

## Model

| member | source | states |
|---|---|---|
| ProtocolSteps.RunKeepsInv | internal/ledger/transfer.go:83-222 | in every run the tables satisfy their constraints, locks belong to open transactions, ids stay fresh, and every open transaction holds exactly the rows its statements so far should have written |
| ProtocolSteps.InstallIsApply | internal/ledger/transfer.go:104-123 | what COMMIT installs is one whole atomic transfer, allowed on the tables of that moment, with the webhook the destination has at commit |
| ProtocolSteps.CommitRely | internal/ledger/transfer.go:156-170 | the locks held at commit cover every row the transfer changes, so no other open transaction loses anything it relies on |
| ProtocolInvariant.WorkerStable | internal/ledger/transfer.go:206-219 | an open transaction stays consistent under anything others may commit, including the webhook it has read |
| Refinement.StepRefines | internal/ledger/transfer.go:83-124 | one statement, fault, crash or outside change commits at most one atomic operation, and that operation is legal |
| Refinement.RunRefines | internal/ledger/transfer.go:83-222 | for any mix of strategies the committed tables of every run equal the fold of the committed operations in commit order; aborted attempts leave nothing |
| Refinement.OneCommitPerCall | internal/ledger/transfer.go:62-81 | a call commits at most once over all its retries, exactly once if it reports success, and otherwise only if its connection was lost at commit |
| AtomicLedger.FoldKeepsDbInv | migrations/000001_create_accounts_and_transfers.up.sql:1-22 | any legal log keeps the CHECKs, unique ids and keys, one balanced posting pair and one event per transfer, and done keys bound to their transfer |
| AtomicLedger.TransferIsRecorded | internal/ledger/transfer.go:160-222 | an atomic transfer leaves, column by column, the transfer as requested, its two postings, a transfer.created event for the destination's webhook, two moved balances and, with a key, the done row with the request's hash, 201 and the response |
| LedgerLaws.RunBalances | internal/ledger/transfer.go:160-204 | in every reachable state a balance lies between 0 and 2^63-1 and equals the opening balance plus the account's postings |
| LedgerLaws.RunTotal | internal/ledger/transfer.go:198-204 | the sum of all balances is constant in every run |
| LedgerLaws.RunTotalIn | internal/ledger/transfer.go:152-154 | with Fix A and Fix B only, the sum per currency is constant |
| LedgerLaws.TransferKeepsCurrenciesIff | internal/ledger/strategies.go:201-242 | a committed transfer keeps every currency's sum if and only if both accounts have the same currency |
| Witnesses.CurrenciesMix | internal/ledger/strategies.go:183-252 | every transfer that Fix C accepts between two currencies moves its amount from one currency's sum to the other's |
| Witnesses.DollarsBecomeEuros | internal/ledger/strategies.go:183-252 | Fix C accepts fifty dollars for an account in euros, and fifty dollars are gone |
| Records.RunInCurrency | internal/ledger/transfer.go:147-196 | in every run with Fix A and Fix B only, every transfer is in the currency of both its accounts, given that those at the start are |
| Records.RunKeepsAccount | internal/ledger/transfer.go:156-170 | no run removes an account or changes its currency, and only a webhook change changes its webhook |
| Records.EventIsPublished | internal/ledger/transfer.go:206-219 | every event a run adds was committed in one step with the transfer it tells of, for the webhook its destination had at that moment |
| Records.SuccessIsOnRecord | internal/ledger/transfer.go:176-222 | a call told of a success was recorded whole by one step of the run, in every column as it asked; by Fix A and Fix B in exactly its currency, by Fix C with the currency padded to three characters |
| ExactlyOnce.OneTransferPerKey | internal/idempotency/idempotency.go:70-138 | all answered calls with one key name the same transfer; it alone has the key, with one posting pair, one event and the stored response |
| ExactlyOnce.AnswerServes | internal/ledger/transfer.go:92-102 | every success or replay names a committed transfer that serves the call's key |
| ExactlyOnce.UniqueNeverFires | migrations/000001_create_accounts_and_transfers.up.sql:21 | the unique constraints on transfers never refuse an insert and never make it wait |
| ExactlyOnce.AtMostOneCommitPerKey | internal/idempotency/idempotency.go:108-129 | a legal log commits a key at most once, leaves an uncommitted key row as it was, and a committed one done |
| ExactlyOnce.RunKeys | internal/idempotency/idempotency.go:108-129 | the same for every run from tables with leftover in_progress rows: of several thieves at most one commits, and a rolled-back thief leaves the row as found |
| ExactlyOnce.StealUnreachable | internal/idempotency/idempotency.go:85-137 | from tables without in_progress rows none is ever committed, and no call reaches the steal, ErrInProgress or the corruption error |
| ExactlyOnce.UnboundKeyIsClaimed | internal/idempotency/idempotency.go:71-88 | a key that is unbound and not held is won by the next claim, whatever its hash |
| ExactlyOnce.FailuresCommitNothing | internal/ledger/transfer.go:90-107 | if every call with a key failed or is still at work, no transfer was committed for it |
| ExactlyOnce.FailureFreesKey | internal/ledger/transfer.go:90-123 | the key of failed calls is still unbound, and a new call wins it with any hash |
| Replays.KeyAnswersAgain | internal/idempotency/idempotency.go:104-137 | after a keyed success and anything committed since, a request with the key and its hash is given the stored response with 201, one with another hash is a duplicate, and nothing changes |
| Replays.RepeatIsReplayed | internal/idempotency/idempotency.go:52-58 | the same request served again by Fix A or Fix B, at any later clocks, is replayed and changes nothing |
| Replays.RunOneHash | internal/idempotency/idempotency.go:104-106 | if all calls with a key carry one hash, its row keeps that hash and none of them is told of a duplicate, in any interleaving |
| Replays.NoDuplicates | internal/idempotency/idempotency.go:104-106 | the same from any initial state whose row for the key, if any, has that hash |
| Replays.AnsweredKeyHasOneHash | internal/idempotency/idempotency.go:104-137 | all calls with one key that are answered, by success or replay, sent the same hash |
| Takeovers.TakeoversAreLate | internal/idempotency/idempotency.go:108-129 | in every run, who commits a key over a row left in progress sent the hash of that claim, in a transaction begun more than thirty seconds after it |
| OptimisticLaws.ApplyGuards | internal/ledger/strategies.go:219-225 | a balance falls only when its version rises: debits by Fix C bump it, and credits need not |
| OptimisticLaws.RunSeenOk | internal/ledger/strategies.go:183-217 | in all-optimistic runs, while the version read still stands, the balance has not fallen below the amount |
| OptimisticLaws.VersionedDebitIsCovered | internal/ledger/strategies.go:201-217 | in all-optimistic runs a matching versioned UPDATE is covered by the current balance, so the balance CHECK never refuses it |
| OptimisticLaws.CheckFiresIff | internal/ledger/strategies.go:201-217 | after any operations by any strategies since the read, the versioned UPDATE matches nothing if and only if one of them is an optimistic debit of the account, and the CHECK refuses it if and only if none is and what is left does not cover the amount |
| Witnesses.CheckFires | internal/ledger/strategies.go:201-212 | a run of the machine, one call by Fix A and one by Fix C, in which the CHECK refuses the versioned UPDATE |
| OptimisticLaws.RunVersion | internal/ledger/strategies.go:201-205 | a version is its initial value plus the number of committed optimistic debits of the account |
| Overflow.NoOverflow | internal/ledger/transfer.go:156-170 | if all balances total at most 2^63-1, no credit of a positive amount fails in any interleaving |
| LockOrder.WaitIffBlocked | internal/ledger/strategies.go:33-82 | a statement waits if and only if another transaction holds the one lock it needs |
| LockOrder.WaitsGoUp | internal/ledger/strategies.go:99-130 | with Fix B, whoever a call waits for is further along: past the claim, or waiting for a higher account id, or not waiting |
| LockOrder.NoDeadlock | internal/ledger/strategies.go:116-130 | the wait-for graph of Fix B has no cycle, duplicates of one key included |
| LockOrder.RunKeepsOrder | internal/ledger/strategies.go:92-165 | every run of Fix B calls on existing accounts keeps the lock order, through faults, crashes and retries |
| LockOrder.SomeoneCanStep | internal/ledger/strategies.go:92-165 | while a Fix B call is unfinished, the next statement of some unfinished call does not wait |
| StepBound.StepsAreBounded | internal/ledger/strategies.go:83-93 | any run of any mix of strategies performs at most 91 statements per call started |
| StepBound.EveryCallCanFinish | internal/ledger/strategies.go:92-165 | from every state of Fix B calls, statements alone finish all calls, within the remaining step budget |
| Retries.FaultLeadsToBegin | internal/ledger/strategies.go:20-26 | a deadlock or serialisation failure at a statement where the strategy tries again leads to BEGIN in the first four attempts and to giving up in the fifth; any other error, a lost connection among them, ends the call; nothing is changed and every lock is free |
| Retries.AttemptsAreHits | internal/ledger/transfer.go:73-80 | in every run a call's attempt number is the number of such errors and of version conflicts it has met; it gives up if and only if they are five; Fix A never answers with a deadlock or a serialisation failure |
| Refusals.RefusalsAreGrounded | internal/ledger/transfer.go:62-173 | a refused call was refused rightly: at some moment while it was at work the committed tables lacked the account, the funds, the currency, or had the key with another hash, in progress or without a code; a refusal of the request itself is true of the request |
| LedgerSpec.AcceptedCanTransfer | internal/ledger/transfer.go:135-196 | a call that is not refused is allowed to transfer: the refusals of the code cover all that the schema would refuse |
| LedgerSpec.AnswersInOrder | internal/ledger/transfer.go:62-173 | which answer an undisturbed call is given: first the key's (another hash, younger than thirty seconds, stored response), then, per strategy in order, missing account, currency, funds, overflow, column width, else success |
| LedgerSpec.StrategiesAgree | internal/ledger/strategies.go:35-81 | Fix A and Fix B give the same answer and tables for requests that pass the checks of Execute, and leave the tables alone for the others |
| LedgerSpec.StrategiesEquivalent | internal/ledger/strategies.go:92-165 | the same for every sequence of such requests run to completion |
| SoloRun.SoloCall | internal/ledger/transfer.go:62-124 | on the machine, a call of any strategy that meets nobody ends within twenty statements with the answer and tables of the specification, and leaves no lock |
| SoloRun.StrategiesRunAlike | internal/ledger/strategies.go:92-165 | on the machine, Fix A and Fix B end with the same answer and tables |
| SoloRun.CompletionError | internal/ledger/strategies.go:143-153 | a transient error at the completion ends a call by Fix B at once, with nothing changed, where Fix A begins again |
| SoloRun.OneErrorIsFinal | internal/ledger/strategies.go:143-153 | every keyed request that Fix B accepts has such a moment in its first attempt |
| Sequences.SoloSequence | internal/ledger/transfer.go:62-124 | requests served one after another on the machine leave the tables and the answers of the specification, call by call |
| Sequences.SequencesRunAlike | internal/ledger/strategies.go:92-165 | on the machine, every sequence of requests that pass the checks of Execute ends with the same tables and the same answers under Fix A and Fix B |
| LedgerCode.ClaimInTx | internal/idempotency/idempotency.go:70-138 | won, replayed or refused as the columns of the key row demand, with thirty seconds on both clocks for a takeover, or an outside error; a won claim leaves exactly the claimed row in the transaction |
| LedgerCode.Complete | internal/idempotency/idempotency.go:52-58 | only an outside error fails it; the key row becomes done with code and body, and keeps its hash and the time of its claim |
| LedgerCode.DebitConditionalUpdate | internal/ledger/strategies.go:35-56 | undisturbed, a missing account and an uncovered amount are refused as such; a covered one lowers the balance and nothing else of the row |
| LedgerCode.DebitSelectForUpdate | internal/ledger/strategies.go:61-81 | the same refusals and the same row as Fix A |
| LedgerCode.InsertTransferAndPostings | internal/ledger/transfer.go:176-222 | one transfer row with the request's key, amount, currency and accounts, the two postings and one transfer.created event with the destination's webhook; or the CHECK's error; or AccountNotFound if an account is missing |
| LedgerCode.CreditDestination | internal/ledger/transfer.go:160-170 | undisturbed, a missing destination and a balance above 2^63-1 are refused as such; otherwise both rows are in the transaction |
| LedgerCode.ExecTxWithDebit | internal/ledger/transfer.go:135-173 | either the first error in the order of the code, or a transaction that has done all the work of the transfer |
| LedgerCode.ExecuteOnce | internal/ledger/transfer.go:83-124 | one attempt ends as the undisturbed call, or interrupted without a trace, or committed with the acknowledgement lost |
| LedgerCode.Execute | internal/ledger/transfer.go:62-81 | its checks refuse in order with no change; deadlocks and serialisation failures, if nothing else, leave it as if undisturbed while fewer than five, and five end it with no change; it meets at most five; a success has recorded the request in every column, in its own currency; it ends as one of its attempts, and no transaction stays open |
| LedgerCode.AttemptForUpdate | internal/ledger/strategies.go:94-162 | an attempt is followed by another if and only if a transient error met a statement other than BEGIN and the completion; undisturbed it ends as specified, disturbed it changed nothing or lost the acknowledgement; every exit closes the transaction |
| LedgerCode.ExecuteWithForUpdate | internal/ledger/strategies.go:92-165 | deadlocks and serialisation failures away from BEGIN and the completion leave it as if undisturbed while fewer than five, and five end it with no change; one at BEGIN or the completion ends it with that error and no change; a success has recorded the request in every column, in its own currency |
| LedgerCode.RetriableLeavesNoTrace | internal/ledger/transfer.go:73-80 | an attempt that ends in a retriable error has changed nothing, so running it again is safe |
| LedgerCode.DebitVersioned | internal/ledger/strategies.go:201-217 | of the versioned UPDATE: a conflict if and only if others debited by Fix C, the CHECK's error if and only if they undercut the amount otherwise, else the debit of the current balance |
| LedgerCode.ReadAndDebit | internal/ledger/strategies.go:183-217 | the same for read, check and UPDATE together, with anything committed by anyone in between |
| LedgerCode.VersionedDebit | internal/ledger/strategies.go:201-217 | the three ways the UPDATE can go, for any operations since the read |
| LedgerCode.CheckInsteadOfRefusal | internal/ledger/strategies.go:196-212 | where the CHECK fires, a call that came later would be told of insufficient funds |
| LedgerCode.AttemptOptimistic | internal/ledger/strategies.go:178-252 | which attempts are followed by another: those that met a conflict, and those that met a transient error at UPDATE, credit or COMMIT |
| LedgerCode.ExecuteOptimistic | internal/ledger/strategies.go:173-255 | with any other calls committing in between, the call takes effect at one moment as the undisturbed call would there, and a success is recorded in every column; or the CHECK fires, exactly when the others undercut its read; or it gives up after at least five conflicts and errors together, and never meets a sixth error; in the last two cases only the others' work is left |
| Backoff.TotalBackoff | internal/store/outbox.go:149-168 | for every limit N >= 1 the N-th failure dead-letters and the delays before it total at least 5(2^N - 2) seconds; they total less than that plus 5(N - 1) if and only if N >= 2 |
| Backoff.FirstIsLastIff | internal/store/outbox.go:157-162 | the first failure dead-letters if and only if the limit is at most one |
| Backoff.EightFailures | internal/outbox/poller.go:21 | for the configured limit: at least 1270 and less than 1305 seconds |
| Backoff.DelaysIncrease | internal/store/outbox.go:163-168 | successive delays strictly increase whatever the jitter |
| Delivery.RunKeepsSafe | internal/store/outbox.go:49-173 | with any pollers, crashes and late marks: unsettled rows have fewer than eight attempts, in_flight rows a deadline, settled rows none, and attempts count the failure marks |
| Delivery.NeverStuck | internal/store/outbox.go:56-68 | an unsettled row has a moment less than 645 seconds away from which any idle poller can claim it, unless it is touched before |
| Delivery.EventsStay | internal/store/outbox.go:31-111 | no step removes an event or changes its id, type, payload or target |
| Leases.LeasesExclusive | internal/store/outbox.go:40-69 | if every mark lands within its lease, or one poller works at a time, each live claim owns its row and no event has two |
| Leases.SettledStays | internal/store/outbox.go:90-111 | under that discipline delivered and dead_letter are final |
| Leases.ClaimsAreDisjoint | internal/store/outbox.go:49-73 | whatever other pollers do in between, a later claim shares no event with an earlier one whose lease still runs, unless a mark has reached the event |
| Leases.LateMarkIsHarmlessIff | internal/store/outbox.go:90-111 | a mark on a settled row changes nothing if and only if it repeats a delivery |
| PollerTiming.DisciplinedIffOnTime | internal/outbox/poller.go:64-66 | a poller whose claims were taken at one moment keeps the lease discipline if and only if each of its marks lands before that lease ends |
| PollerTiming.RetryBounded | internal/outbox/poller.go:145-158 | three tries take at most seventeen seconds and take the claim off the batch once, heard or not |
| PollerTiming.DeliveryBounded | internal/outbox/poller.go:80-138 | a delivery takes at most 27 seconds, or five without a webhook, and is in time if that ends before the lease does |
| PollerTiming.SlowestBatch | internal/outbox/poller.go:64-66 | some answers and writes within the timeouts make a batch take all its time and then land its last mark |
| PollerTiming.PollInTimeIff | internal/outbox/poller.go:59-68 | a poll keeps the discipline whatever it meets if and only if it claims nothing, or the lag of its claim and the longest time of its batch are together shorter than the lease |
| PollerTiming.PollOfOneIff | internal/outbox/poller.go:59-68 | with a webhook on every event and the claim answered within three seconds: if and only if it claims at most one event |
| PollerTiming.TwoOwners | internal/outbox/poller.go:64-66 | a run, every timeout kept, in which two slow deliveries of a batch of three leave the third event with two pollers |
| PollerTiming.LateMarkRevives | internal/store/outbox.go:154-169 | continued, the second poller delivers the event and the first one's turn then puts it back to pending |
| Settling.RunSettles | internal/outbox/poller.go:80-138 | under the discipline every claim is accounted for, and each status fits exactly the marks that led to it |
| Settling.EventSettles | internal/outbox/poller.go:80-138 | claims are marks plus abandoned claims plus held ones; an event claimed eight times more than abandoned and held by nobody is settled; delivered only after a 2xx or without a URL |
| Settling.VerdictsAreEarned | internal/outbox/poller.go:121-137 | in every run a dead_letter row has had a 4xx answer or a bad URL, or eight deliveries that ended in a network error or another code; a delivered row was accepted with 2xx or has no webhook; attempts never outnumber such answers |
| Pacing.FailureRests | internal/store/outbox.go:56-68 | when a failure leaves an event pending after its k-th attempt, no poller claims it for 5 * 2^k seconds unless another mark reaches it, whatever all pollers do |
| Pacing.GivenUpAfter | internal/store/outbox.go:154-169 | under the lease discipline an event given up without a rejecting answer has been tried for at least 1270 seconds since its insertion |
| OutboxCode.Table.SelectClaimable | internal/store/outbox.go:56-69 | distinct rows up to the limit, pending and at or past their time or in_flight with the lease run out, and all such rows if there are fewer |
| OutboxCode.Table.ClaimPendingEvents | internal/store/outbox.go:49-87 | takes only due rows, a pending one never before its next_attempt_at, and all of them below the limit; flips exactly those to in_flight for thirty seconds from the start of the statement, and returns their events when the answer comes; a claim that takes effect unheard is abandoned, one that fails changes nothing |
| OutboxCode.Table.MarkDelivered | internal/store/outbox.go:90-96 | whatever the status, the named row is delivered with no next attempt unless the write has no effect; every other row is unchanged; an error is reported unless the effect is heard |
| OutboxCode.Table.MarkDeadLetter | internal/store/outbox.go:100-111 | the named row is dead_letter, with one more attempt and no next one |
| OutboxCode.Table.MarkFailed | internal/store/outbox.go:154-173 | one more attempt; dead_letter if and only if that reaches the limit, otherwise pending until 5 * 2^attempts seconds and the jitter have passed |
| OutboxCode.MarkDeliveredWithRetry | internal/outbox/poller.go:145-158 | delivered if and only if one of three writes takes effect, heard or not; otherwise the claim is left to expire; its steps are those of RetryLabels |
| OutboxCode.Branch | internal/outbox/poller.go:80-137 | delivered if and only if there is no webhook or the code is 2xx; dead_letter if and only if there is one and the URL is bad or the code is 4xx |
| OutboxCode.Deliver | internal/outbox/poller.go:80-138 | by the answer alone: no webhook or 2xx delivered, 4xx or a bad URL dead_letter, network error and other codes one more attempt with its backoff, dead_letter at the eighth; unchanged if no write takes effect; makes the steps of DeliveryLabels; over within 27 seconds; started less than 3 seconds after the claim it keeps the lease discipline |
| OutboxCode.DeliverAll | internal/outbox/poller.go:64-66 | every event of the batch is marked as its own answer deserves, nothing else changes, and the steps are those of BatchLabels |
| OutboxCode.Poll | internal/outbox/poller.go:59-68 | claims fifty rows or all that are due and delivers each once, in the steps of PollLabels; if the claim fails or is not heard nothing is delivered |
| OutboxCode.PollOfOne | internal/outbox/poller.go:59-68 | a poll of at most one event whose claim is answered within three seconds keeps the discipline |
| WholeSystem.RunKeepsSystem | internal/ledger/transfer.go:206-221 | with calls and pollers interleaved, the rows pollers see mirror the committed events |
| WholeSystem.EventsMatchTransfers | internal/store/outbox.go:28-38 | in every reachable state transfers and outbox rows correspond one to one, with matching payloads |
| Recon.SumPostings | internal/recon/recon.go:47-51 | the sum of one account's postings |
| Recon.QueryDrift | internal/recon/recon.go:46-63 | every account whose balance differs from its postings, once, with both numbers |
| Recon.Run | internal/recon/recon.go:30-76 | the three results, each for the state its query read; if a query or the reading of its rows fails, the error and the result as far as it was filled |
| Recon.DriftIffOpening | internal/recon/recon.go:41-45 | in every reachable state an account drifts if and only if it has a nonzero opening balance |
| Recon.ReconExact | internal/recon/recon.go:30-76 | with the queries reading three moments of any run: sum zero, nothing negative, and drift exactly the accounts with an opening balance |
| Recon.SumExchange | internal/recon/recon.go:47-51 | summing per account and then over accounts gives the sum of the journal |
| Recon.ChecksPassIffEmpty | internal/recon/recon.go:33-73 | on any tables whose postings name accounts, all checks pass if and only if every balance and every posting sum is zero |
| Paging.Newest | internal/store/accounts.go:25-35 | a matching posting with the largest id, or none if nothing matches |
| Paging.GetPostings | internal/store/accounts.go:24-52 | the newest postings below the cursor up to the limit, newest first, cursor 0 meaning all |
| Paging.PageThen | internal/store/accounts.go:21-23 | after each page, what was there at the start is returned already or below the new cursor |
| Paging.ReadAll | internal/store/accounts.go:21-52 | the reader ends; it has each posting committed before the first page exactly once, newest first, whatever was committed in between |
| Paging.ReachableJournals | internal/store/accounts.go:21-52 | the journals found at successive moments of any run of the protocol can be paged so |

## Left out

- Paging.GetPostings: the query's ORDER BY and LIMIT are modelled by taking the newest match again and again, not as a query plan; columns beyond id, transfer, account and amount are left out.
- LockOrder.NoDeadlock: only for Fix B on accounts that exist when the call starts. Fix A, Fix C and mixed runs can deadlock; there a deadlock is a fault that aborts one call with a retriable error.
- OutboxCode.Table.ClaimPendingEvents: the claim chooses its rows in one atomic step; the planner's order, re-running the subquery and skipping rows locked by a claim in progress are not modelled, and no first-in first-out order is claimed.
- OutboxCode.Deliver: the response body, headers and the network are an answer and a duration, chosen freely within the timeouts.
- LedgerCode.ExecuteOptimistic: other calls commit between its read and its UPDATE only; before the read it may meet any tables, and after the UPDATE its locks keep others out of the rows it uses. Full interleaving is in the protocol machine.
- LedgerCode.Execute: one call at a time on its connection, with errors from outside at any statement; interleaving with other calls is in the protocol machine. The same holds for LedgerCode.ExecuteWithForUpdate.
- Refusals.RefusalsAreGrounded: an error from outside that is itself a foreign key violation is excluded, since the code would take it for a missing account.
- The two clocks: the ledger's and the pollers' clocks move independently in the joint system.
- Generated ids are assumed fresh and are drawn when the transaction begins, not statement by statement; ids drawn by aborted attempts are lost, as with sequences.
- Columns that no property reads: transfer status (always posted), account name, created_at, delivered_at and failure_reason.
- The version column's overflow, and the range of attempt_count.
- Key-share locks taken by foreign keys: at that point the call already holds both account rows.
- An UPDATE that waited and then no longer matches keeps no lock here.
- HashRequest and SHA-256: the hash is an opaque token, and distinct bodies are not claimed to have distinct hashes. The stored body is a JSON value, not bytes.
- Microsecond rounding of the random part of the backoff, and the floating point of power().
- HTTP routing, status codes, webhook URL and DNS checks, metrics, configuration, migrations tooling, the load test and the latency histogram.
- Fairness: that a call which can go on eventually does, that pollers keep polling, and that time passes.
