/** Concrete inputs on which Fix C falls short, each with the run or the call that shows it. */
module Witnesses {
  import opened Types
  import opened AtomicLedger
  import opened Statements
  import opened Protocol
  import opened ProtocolInvariant
  import opened ProtocolSteps
  import opened LedgerLaws
  import opened LedgerSpec
  import opened SoloRun

  /** Two accounts, the first with a balance of one hundred, and nothing else. */
  function TwoAccounts(first: string, second: string): Db {
    Db(map[1 := Account(first, 100, 0, None), 2 := Account(second, 0, 0, None)], [], [], map[], [])
  }

  // ------------------------------------------------------- currencies are mixed

  /** A transfer that Fix C accepts between two currencies moves its amount from one sum to the other. */
  lemma CurrenciesMix(db: Db, req: Request, stamp: Id, now: int, appClock: int)
    requires AccountsOk(db) && FreshStamp(db, stamp)
    requires Call(db, Optimistic, req, stamp, now, appClock).1.Success?
    requires var from, to := db.accounts[req.from].currency, db.accounts[req.to].currency; from != to
    ensures var after := Call(db, Optimistic, req, stamp, now, appClock).0;
      var from, to := db.accounts[req.from].currency, db.accounts[req.to].currency;
      && TotalIn(after, from) == TotalIn(db, from) - req.amount
      && TotalIn(after, to) == TotalIn(db, to) + req.amount
  {
    AcceptedCanTransfer(db, Optimistic, req, stamp, now, appClock);
    var op := TransferOp(0, Optimistic, req, stamp, now);
    TransferTotalIn(db, op, db.accounts[req.from].currency);
    TransferTotalIn(db, op, db.accounts[req.to].currency);
  }

  /** Fix C accepts fifty dollars for an account in euros, and fifty dollars are gone. */
  lemma DollarsBecomeEuros()
    ensures var db := TwoAccounts("USD", "EUR");
      var call := Call(db, Optimistic, Request(1, 2, 50, "USD", "", ""), 0, 0, 0);
      && call.1.Success?
      && TotalIn(call.0, "USD") == TotalIn(db, "USD") - 50 && TotalIn(call.0, "EUR") == TotalIn(db, "EUR") + 50
  {
    var db := TwoAccounts("USD", "EUR");
    CurrenciesMix(db, Request(1, 2, 50, "USD", "", ""), 0, 0, 0);
  }

  // ------------------------------------------------------------ the CHECK fires

  const FIFTY: Request := Request(1, 2, 50, "USD", "", "")
  const SIXTY: Request := Request(1, 2, 60, "USD", "", "")

  function Before(): State {
    State(TwoAccounts("USD", "USD"), map[], map[], 0, 0)
  }

  lemma BeforeIsInit()
    ensures Init(Before())
  {
  }

  /** The call by Fix C has read balance and version; a call by Fix A arrives. */
  function Opening(): seq<Label> {
    [Spawn(0, Optimistic, FIFTY), Statement(0, 0), Statement(0, 0), Statement(0, 0), Spawn(1, Conditional, SIXTY)]
  }

  lemma RunOne(s: State, l: Label, ls: seq<Label>)
    ensures Run(s, [l] + ls) == Run(Step(s, l), ls)
  {
    assert ([l] + ls)[1..] == ls;
  }

  lemma AfterOpening()
    ensures Run(Before(), Opening()) == State(
      TwoAccounts("USD", "USD"),
      map[0 := Worker(Optimistic, FIFTY, OptDebit(0), 0, OpenTx(0, 0)),
          1 := Worker(Conditional, SIXTY, Guard, 0, NO_TX)],
      map[], 0, 1)
  {
    var db := TwoAccounts("USD", "USD");
    var s1 := State(db, map[0 := Worker(Optimistic, FIFTY, Guard, 0, NO_TX)], map[], 0, 0);
    var s2 := State(db, map[0 := Worker(Optimistic, FIFTY, Begin, 0, NO_TX)], map[], 0, 0);
    var s3 := State(db, map[0 := Worker(Optimistic, FIFTY, OptRead, 0, OpenTx(0, 0))], map[], 0, 1);
    var s4 := State(db, map[0 := Worker(Optimistic, FIFTY, OptDebit(0), 0, OpenTx(0, 0))], map[], 0, 1);
    assert Step(Before(), Spawn(0, Optimistic, FIFTY)) == s1;
    assert Step(s1, Statement(0, 0)) == s2;
    assert Step(s2, Statement(0, 0)) == s3;
    assert View(db, OpenTx(0, 0)) == db;
    assert Step(s3, Statement(0, 0)) == s4;
    var last := [Spawn(1, Conditional, SIXTY)];
    RunOne(s4, last[0], []);
    RunOne(s3, Statement(0, 0), last);
    RunOne(s2, Statement(0, 0), [Statement(0, 0)] + last);
    RunOne(s1, Statement(0, 0), [Statement(0, 0), Statement(0, 0)] + last);
    RunOne(Before(), Spawn(0, Optimistic, FIFTY), [Statement(0, 0), Statement(0, 0), Statement(0, 0)] + last);
  }

  lemma ReadyToRun(s: State)
    requires s == Run(Before(), Opening())
    ensures Starting(s, 1)
  {
    AfterOpening();
  }

  /** The call by Fix A takes its sixty. */
  lemma SixtyTaken(stamp: Id)
    ensures var db := TwoAccounts("USD", "USD");
      var call := Call(db, Conditional, SIXTY, stamp, 0, 0);
      && AccountsOk(db) && FreshStamp(db, stamp)
      && call.1.Success? && 1 in call.0.accounts && call.0.accounts[1] == Account("USD", 40, 0, None)
  {
    assert CanTransfer(TwoAccounts("USD", "USD"), Conditional, SIXTY, stamp);
  }

  /** The versioned UPDATE on what is left. */
  lemma UpdateRefused(s: State)
    requires 0 in s.workers && s.workers[0] == Worker(Optimistic, FIFTY, OptDebit(0), 0, OpenTx(0, 0))
    requires s.locks == map[] && 1 in s.db.accounts && s.db.accounts[1] == Account("USD", 40, 0, None)
    ensures 0 in Step(s, Statement(0, 0)).workers
    ensures Step(s, Statement(0, 0)).workers[0].pc == Finished(Failed(Sql(CheckViolation)))
    ensures Step(s, Statement(0, 0)).db == s.db
  {
    assert View(s.db, OpenTx(0, 0)).accounts == s.db.accounts;
  }

  lemma AfterSixty(start: State) returns (mid: State, moves: seq<Label>)
    requires start == Run(Before(), Opening())
    ensures mid == Run(start, moves) && mid.locks == map[]
    ensures 0 in mid.workers && mid.workers[0] == Worker(Optimistic, FIFTY, OptDebit(0), 0, OpenTx(0, 0))
    ensures 1 in mid.workers && mid.workers[1].pc.Finished? && mid.workers[1].pc.outcome.Success?
    ensures 1 in mid.db.accounts && mid.db.accounts[1] == Account("USD", 40, 0, None)
  {
    AfterOpening();
    ReadyToRun(start);
    var n := SoloCall(start, 1, 0);
    RunIsOnlyCall(start, 1, 0, n);
    SixtyTaken(1);
    moves := Moves(1, 0, n);
    mid := Run(start, moves);
  }

  /**
   A run in which the balance CHECK refuses the versioned UPDATE: the balance read was one
   hundred, a call by Fix A has taken sixty and left the version alone, and fifty more are asked.
   The caller is told of a constraint violation, not of insufficient funds.
   */
  lemma CheckFires() returns (ls: seq<Label>)
    ensures var end := Run(Before(), ls);
      && 0 in end.workers && end.workers[0].pc == Finished(Failed(Sql(CheckViolation)))
      && 1 in end.workers && end.workers[1].pc.Finished? && end.workers[1].pc.outcome.Success?
      && 1 in end.db.accounts && end.db.accounts[1] == Account("USD", 40, 0, None)
  {
    var mid, moves := AfterSixty(Run(Before(), Opening()));
    var last := [Statement(0, 0)];
    UpdateRefused(mid);
    RunOne(mid, last[0], []);
    RunConcat(Run(Before(), Opening()), moves, last);
    RunConcat(Before(), Opening(), moves + last);
    ls := Opening() + (moves + last);
    assert last == last + [];
    OnlyCallMoves(mid, 0, Stmt(mid, 0, 0));
  }
}
