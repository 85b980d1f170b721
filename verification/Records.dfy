/** Column by column, what a run leaves in the tables, and what its callers were told of it. */
module Records {
  import opened Types
  import opened AtomicLedger
  import opened Protocol
  import opened ProtocolInvariant
  import opened ProtocolSteps
  import opened Refinement
  import opened LedgerLaws

  // -------------------------------------------------------------- currencies

  /** A transfer is in the currency of both its accounts. */
  ghost predicate InCurrency(db: Db, t: Transfer) {
    && t.from in db.accounts && t.to in db.accounts
    && db.accounts[t.from].currency == t.currency == db.accounts[t.to].currency
  }

  ghost predicate AllInCurrency(db: Db) {
    forall t | t in db.transfers :: InCurrency(db, t)
  }

  lemma ApplyInCurrency(db: Db, op: Op)
    requires AccountsOk(db) && AllInCurrency(db) && CanApply(db, op)
    requires op.TransferOp? ==> op.strategy != Optimistic
    ensures AllInCurrency(Apply(db, op))
  {
    if op.TransferOp? {
      var t := TransferIsRecorded(db, op);
      assert InCurrency(Apply(db, op), t);
    }
  }

  lemma {:induction false} FoldInCurrency(db: Db, log: seq<Op>)
    requires DbInv(db) && AllInCurrency(db) && Legal(db, log)
    requires forall op | op in log :: op.TransferOp? ==> op.strategy != Optimistic
    ensures AllInCurrency(Fold(db, log))
    decreases |log|
  {
    if log != [] {
      ApplyInCurrency(db, log[0]);
      ApplyKeepsDbInv(db, log[0]);
      FoldInCurrency(Apply(db, log[0]), log[1..]);
    }
  }

  /** With Fix A and Fix B only, every transfer of a run is in the currency of both its accounts. */
  lemma RunInCurrency(s: State, ls: seq<Label>)
    requires Inv(s) && Uses(s, ls, {Conditional, ForUpdate}) && AllInCurrency(s.db)
    ensures AllInCurrency(Run(s, ls).db)
  {
    RunRefines(s, ls);
    HistoryUses(s, ls, {Conditional, ForUpdate});
    FoldInCurrency(s.db, History(s, ls));
  }

  // ---------------------------------------------------------------- accounts

  lemma ApplyKeepsAccount(db: Db, op: Op, a: AccountId)
    requires CanApply(db, op) && a in db.accounts
    ensures a in Apply(db, op).accounts && Apply(db, op).accounts[a].currency == db.accounts[a].currency
    ensures !op.WebhookOp? || op.id != a ==> Apply(db, op).accounts[a].webhook == db.accounts[a].webhook
    ensures op.WebhookOp? && op.id == a ==> Apply(db, op).accounts[a] == db.accounts[a].(webhook := op.url)
  {
    if op.TransferOp? {
      var t := TransferIsRecorded(db, op);
    }
  }

  lemma StepKeepsAccount(s: State, l: Label, a: AccountId)
    requires Inv(s) && a in s.db.accounts
    ensures a in Step(s, l).db.accounts && Step(s, l).db.accounts[a].currency == s.db.accounts[a].currency
    ensures !(l.SetWebhook? && l.id == a) ==> Step(s, l).db.accounts[a].webhook == s.db.accounts[a].webhook
  {
    StepRefines(s, l);
    var ops := Committed(s, l);
    if ops != [] {
      assert ops == [ops[0]];
      FoldOne(s.db, ops[0]);
      ApplyKeepsAccount(s.db, ops[0], a);
    }
  }

  /** No run removes an account or changes its currency, and only SetWebhook changes its webhook. */
  lemma {:induction false} RunKeepsAccount(s: State, ls: seq<Label>, a: AccountId)
    requires Inv(s) && a in s.db.accounts
    ensures a in Run(s, ls).db.accounts && Run(s, ls).db.accounts[a].currency == s.db.accounts[a].currency
    ensures (forall l | l in ls :: !(l.SetWebhook? && l.id == a)) ==>
      Run(s, ls).db.accounts[a].webhook == s.db.accounts[a].webhook
    decreases |ls|
  {
    if ls != [] {
      StepKeepsAccount(s, ls[0], a);
      StepKeepsInv(s, ls[0]);
      RunKeepsAccount(Step(s, ls[0]), ls[1..], a);
      assert ls[0] in ls && forall l | l in ls[1..] :: l in ls;
    }
  }

  // ------------------------------------------------------------------ events

  /** One transfer is committed together with its event, for the webhook its destination has then. */
  ghost predicate Published(before: Db, after: Db, e: Event) {
    && after.outbox == before.outbox + [e] && after.transfers == before.transfers + [e.payload]
    && e.kind == "transfer.created"
    && e.payload.to in before.accounts && e.target == before.accounts[e.payload.to].webhook
  }

  lemma StepPublishes(s: State, l: Label)
    requires Inv(s)
    ensures var next := Step(s, l).db;
      || next.outbox == s.db.outbox
      || (|next.outbox| == |s.db.outbox| + 1 && Published(s.db, next, next.outbox[|s.db.outbox|]))
  {
    StepRefines(s, l);
    var ops := Committed(s, l);
    if ops != [] {
      assert ops == [ops[0]];
      FoldOne(s.db, ops[0]);
      if ops[0].TransferOp? {
        var t := TransferIsRecorded(s.db, ops[0]);
      }
    }
  }

  lemma {:induction false} OutboxPrefix(s: State, ls: seq<Label>)
    requires Inv(s)
    ensures s.db.outbox <= Run(s, ls).db.outbox
    decreases |ls|
  {
    if ls != [] {
      StepPublishes(s, ls[0]);
      StepKeepsInv(s, ls[0]);
      OutboxPrefix(Step(s, ls[0]), ls[1..]);
    }
  }

  /** The first steps of a run, as steps of the run that follows its first one. */
  lemma PrefixAfter(s: State, ls: seq<Label>, j: nat)
    requires j < |ls|
    ensures Run(s, ls[..0]) == s
    ensures Run(s, ls[..j + 1]) == Run(Step(s, ls[0]), ls[1..][..j])
  {
    assert ls[..j + 1][0] == ls[0] && ls[..j + 1][1..] == ls[1..][..j];
  }

  /**
   Every event that a run adds was committed in one step together with the transfer it tells of,
   and goes to the webhook that the destination of that transfer had at that moment.
   */
  lemma {:induction false} EventIsPublished(s: State, ls: seq<Label>, k: nat) returns (i: nat)
    requires Inv(s) && |s.db.outbox| <= k < |Run(s, ls).db.outbox|
    ensures i < |ls| && |Run(s, ls[..i]).db.outbox| == k
    ensures Published(Run(s, ls[..i]).db, Run(s, ls[..i + 1]).db, Run(s, ls).db.outbox[k])
    decreases |ls|
  {
    var next := Step(s, ls[0]);
    StepPublishes(s, ls[0]);
    StepKeepsInv(s, ls[0]);
    if |s.db.outbox| == k < |next.db.outbox| {
      i := 0;
      OutboxPrefix(next, ls[1..]);
      PrefixAfter(s, ls, 0);
    } else {
      var j := EventIsPublished(next, ls[1..], k);
      i := j + 1;
      PrefixAfter(s, ls, j);
      PrefixAfter(s, ls, i);
    }
  }

  // ----------------------------------------------------------------- answers

  ghost predicate ToldOfSuccess(s: State, w: WorkerId) {
    w in s.workers && s.workers[w].pc.Finished? && s.workers[w].pc.outcome.Success?
  }

  /** The transfer that a caller was told of is the one it asked for, recorded whole between these tables. */
  ghost predicate OnRecord(before: Db, after: Db, worker: Worker) {
    && worker.pc.Finished? && worker.pc.outcome.Success?
    && var t := worker.pc.outcome.transfer;
       && Recorded(before, after, worker.req, t, if worker.strategy == Optimistic then 1 else 0)
       && Padded(worker.req.currency, t.currency)
       && (worker.strategy != Optimistic ==> t.currency == worker.req.currency)
  }

  lemma CommitsByOne(log: seq<Op>, w: WorkerId)
    requires |log| <= 1 && CommitsBy(log, w) != []
    ensures log == CommitsBy(log, w)
  {
    assert log[1..] == [];
  }

  lemma CommitOnRecord(db: Db, op: Op, worker: Worker)
    requires AccountsOk(db) && CanApply(db, op) && CommitAnswered(worker, [op])
    requires worker.pc.outcome.Success?
    ensures OnRecord(db, Apply(db, op), worker)
  {
    var t := TransferIsRecorded(db, op);
  }

  lemma StepOnRecord(s: State, l: Label, w: WorkerId)
    requires Inv(s) && !ToldOfSuccess(s, w) && ToldOfSuccess(Step(s, l), w)
    ensures OnRecord(s.db, Step(s, l).db, Step(s, l).workers[w])
  {
    StepCommits(s, l, w);
    StepRefines(s, l);
    var log := Committed(s, l);
    CommitsByOne(log, w);
    assert log == [log[0]];
    FoldOne(s.db, log[0]);
    CommitOnRecord(s.db, log[0], Step(s, l).workers[w]);
  }

  /**
   A call that was told of a success was recorded by one step of the run, in all columns as it
   asked: the transfer, two postings, an event, two moved balances and, if it sent a key, the done
   key row with its own hash and the response.
   */
  lemma {:induction false} SuccessIsOnRecord(s: State, ls: seq<Label>, w: WorkerId) returns (i: nat)
    requires Inv(s) && !ToldOfSuccess(s, w) && ToldOfSuccess(Run(s, ls), w)
    ensures i < |ls| && OnRecord(Run(s, ls[..i]).db, Run(s, ls[..i + 1]).db, Run(s, ls).workers[w])
    decreases |ls|
  {
    var next := Step(s, ls[0]);
    StepKeepsInv(s, ls[0]);
    if ToldOfSuccess(next, w) {
      i := 0;
      StepOnRecord(s, ls[0], w);
      OverStays(next, ls[1..], w);
      PrefixAfter(s, ls, 0);
    } else {
      var j := SuccessIsOnRecord(next, ls[1..], w);
      i := j + 1;
      PrefixAfter(s, ls, j);
      PrefixAfter(s, ls, i);
    }
  }
}
