// A run in which a client withdraws under the id of a transfer's debit: the transfer
// takes the client's withdrawal for its own, credits its destination, and completes.
module SharedIdRun {
  import opened Wrappers
  import opened Saga
  import opened SagaBase
  import opened SagaLegs
  import opened SagaInvariant
  import opened SagaTexts
  import opened SagaTheorems
  import opened SagaFailures
  import opened SagaPasses
  import opened SagaBlocked
  import opened SagaRuns
  import A = Accounts
  import T = Transfers
  import R = Registry

  // What the registry is told of a transfer of n.
  function Registered(n: int): int { 100 * n }

  function Withdrawal(t: string, n: int): R.Input {
    R.Input(LegId(t, T.Debit), "a", R.WithdrawOp, Some(Registered(n)), "EUR")
  }

  // The client deposits as much as the registry will be told, and withdraws it again
  // under the id of the debit.
  function ClientPart(seed: string, t: string, n: int): seq<Action> {
    Opening(seed, Registered(n)) + Steps(0, 4) + [Submit(0, Withdrawal(t, n))] + Steps(0, 4)
  }

  // Then the transfer is initiated and visited twice.
  function Borrowed(seed: string, t: string, n: int): seq<Action> {
    ClientPart(seed, t, n) + [InitiateTransfer(t, "a", "b", Some(n), "EUR")] + VisitOf(0, t) + VisitOf(0, t)
  }

  function Emptied(seed: string, t: string, n: int): seq<A.Event> {
    [Created("a"), A.MoneyDeposited(Registered(n), "EUR", seed),
     A.MoneyWithdrawn(Registered(n), "EUR", LegId(t, T.Debit))]
  }

  function ClientAccounts(seed: string, t: string, n: int): map<string, seq<A.Event>> {
    map["a" := Emptied(seed, t, n), "b" := [Created("b")]]
  }

  function ClientRecords(seed: string, t: string, n: int): R.Records {
    Seeded(seed, Registered(n), R.Completed)
      [LegId(t, T.Debit) := R.Record("a", R.WithdrawOp, Registered(n), "EUR", R.Completed)]
  }

  function AfterClient(seed: string, t: string, n: int): System {
    System(Store(ClientAccounts(seed, t, n), map[], ClientRecords(seed, t, n)), map[0 := Idle])
  }

  lemma EmptiedState(seed: string, t: string, n: int)
    ensures A.Fold(Emptied(seed, t, n)) == A.State(Some("a"), Some("o"), Some("EUR"), A.Active, 0, 3)
  {
    AccountStates(seed, Registered(n));
    A.FoldSnoc(Funds(seed, Registered(n))["a"], A.MoneyWithdrawn(Registered(n), "EUR", LegId(t, T.Debit)));
    assert Funds(seed, Registered(n))["a"] + [A.MoneyWithdrawn(Registered(n), "EUR", LegId(t, T.Debit))]
        == Emptied(seed, t, n);
  }

  // The withdrawal's own steps.
  lemma Withdrawn(cfg: Config, seed: string, t: string, n: int, s: System, k: nat)
    requires n > 0 && k == 4 && seed != LegId(t, T.Debit)
    requires s == System(Store(Funds(seed, Registered(n)), map[], Seeded(seed, Registered(n), R.Completed)),
                         map[0 := Reserving(Job(Api, Withdrawal(t, n), Some(Registered(n))))])
    ensures Run(cfg, s, 0, k) == AfterClient(seed, t, n)
  {
    var job := Job(Api, Withdrawal(t, n), Some(Registered(n)));
    var e := A.MoneyWithdrawn(Registered(n), "EUR", LegId(t, T.Debit));
    AccountStates(seed, Registered(n));
    ApiPass(cfg, s, 0, job, e, k);
    assert Funds(seed, Registered(n))["a"] + [e] == Emptied(seed, t, n);
    assert Funds(seed, Registered(n))["a" := Emptied(seed, t, n)] == ClientAccounts(seed, t, n);
  }

  lemma ClientDone(cfg: Config, seed: string, t: string, n: int)
    requires n > 0 && seed != LegId(t, T.Debit)
    ensures Exec(cfg, ClientPart(seed, t, n)) == AfterClient(seed, t, n)
  {
    var d := Registered(n);
    var h := Opening(seed, d) + Steps(0, 4);
    var s := System(Store(Funds(seed, d), map[], Seeded(seed, d, R.Completed)), map[0 := Idle]);
    Opened(cfg, seed, d);
    StepsAfter(cfg, Opening(seed, d), 0, 4);
    Deposited(cfg, seed, d, Exec(cfg, Opening(seed, d)), 4);
    var s1 := s.Go(0, Reserving(Job(Api, Withdrawal(t, n), Some(d))));
    Then(cfg, h, Submit(0, Withdrawal(t, n)), s1);
    StepsAfter(cfg, h + [Submit(0, Withdrawal(t, n))], 0, 4);
    Withdrawn(cfg, seed, t, n, s1, 4);
  }

  function Started(seed: string, t: string, n: int): System {
    var s := AfterClient(seed, t, n);
    s.(store := s.store.(transfers := map[t := [T.TransferInitiated(InfoOf(t, n))]]))
  }

  lemma TransferStarted(cfg: Config, seed: string, t: string, n: int)
    requires n > 0 && t != "" && seed != LegId(t, T.Debit)
    ensures Exec(cfg, ClientPart(seed, t, n) + [InitiateTransfer(t, "a", "b", Some(n), "EUR")])
         == Started(seed, t, n)
  {
    ClientDone(cfg, seed, t, n);
    EmptiedState(seed, t, n);
    AccountStates(seed, Registered(n));
    assert [] + [T.TransferInitiated(InfoOf(t, n))] == [T.TransferInitiated(InfoOf(t, n))];
    assert map[][t := [T.TransferInitiated(InfoOf(t, n))]] == map[t := [T.TransferInitiated(InfoOf(t, n))]];
    Then(cfg, ClientPart(seed, t, n), InitiateTransfer(t, "a", "b", Some(n), "EUR"), Started(seed, t, n));
  }

  // The first visit finds the movement completed and takes nothing.
  lemma DebitIsCached(cfg: Config, seed: string, t: string, n: int)
    requires n > 0 && t != "" && seed != LegId(t, T.Debit)
    ensures var s := Started(seed, t, n).Go(0, Picked(t));
            var s' := Run(cfg, s, 0, PASS);
            && s'.At(0) == Idle && s'.store.accounts == s.store.accounts && s'.store.registry == s.store.registry
            && StateOk(t, StateOf(s', t)) && StateOf(s', t).info == Some(InfoOf(t, n))
            && StateOf(s', t).status == Some(T.Debited) && StateOf(s', t).credit.tx == None
  {
    var s := Started(seed, t, n).Go(0, Picked(t));
    var e := T.TransferInitiated(InfoOf(t, n));
    T.FoldSnoc([], e);
    assert [] + [e] == [e];
    assert Listed(s, 0, t, T.Debit);
    CachedPass(cfg, s, 0, t, T.Debit, PASS);
    FoldTwo(s.store.Transfer(t), StartEvent(s, t, T.Debit), FinishEvent(t, T.Debit));
  }

  // The second visit gives the destination what nobody has taken from the source.
  lemma CreditIsGiven(cfg: Config, s: System, t: string, n: int, m: int, n': nat)
    requires Worth(cfg, n, m) && n' >= PASS && s.At(0) == Picked(t)
    requires StateOk(t, StateOf(s, t)) && StateOf(s, t).info == Some(InfoOf(t, n))
    requires StateOf(s, t).status == Some(T.Debited) && StateOf(s, t).credit.tx == None
    requires s.store.Account("b") == [Created("b")] && LegId(t, T.Credit) !in s.store.registry
    ensures var s' := Run(cfg, s, 0, n');
            && StateOf(s', t).status == Some(T.Completed)
            && s'.store.accounts ==
                 s.store.accounts["b" := [Created("b"), A.MoneyDeposited(m, "EUR", LegId(t, T.Credit))]]
  {
    AccountStates("", m);
    assert Ready(cfg, s, 0, t, T.Credit);
    AcceptedPass(cfg, s, 0, t, T.Credit, n');
    FoldTwo(s.store.Transfer(t), StartEvent(s, t, T.Credit), FinishEvent(t, T.Credit));
    assert [Created("b")] + [A.MoneyDeposited(m, "EUR", LegId(t, T.Credit))]
        == [Created("b"), A.MoneyDeposited(m, "EUR", LegId(t, T.Credit))];
  }

  // Every await ends well and nobody crashes. The client has deposited and withdrawn the
  // same amount; the transfer is completed, its destination holds its amount and its
  // source has paid nothing for it: the amount has come from nowhere.
  lemma LegIdCreatesMoney(cfg: Config, seed: string, t: string, n: int, m: int)
    requires Worth(cfg, n, m) && t != "" && forall leg :: seed != LegId(t, leg)
    ensures var h := Borrowed(seed, t, n);
            var s := Exec(cfg, h);
            && AllDone(h)
            && StateOf(s, t).status == Some(T.Completed)
            && s.store.accounts == map["a" := Emptied(seed, t, n),
                                       "b" := [Created("b"), A.MoneyDeposited(m, "EUR", LegId(t, T.Credit))]]
            && Balance(s, "a") == 0 && Balance(s, "b") == m > 0
  {
    var h := ClientPart(seed, t, n) + [InitiateTransfer(t, "a", "b", Some(n), "EUR")];
    TransferStarted(cfg, seed, t, n);
    VisitRuns(cfg, h, 0, t);
    DebitIsCached(cfg, seed, t, n);
    var h1 := h + VisitOf(0, t);
    var s1 := Exec(cfg, h1);
    OtherLegs(t, T.Debit);
    VisitRuns(cfg, h1, 0, t);
    CreditIsGiven(cfg, s1.Go(0, Picked(t)), t, n, m, PASS);
    FinalAccounts(seed, t, n, m, Exec(cfg, h1 + VisitOf(0, t)));
    BorrowedIsPlain(seed, t, n);
  }

  lemma FinalAccounts(seed: string, t: string, n: int, m: int, s: System)
    requires s.store.accounts ==
               ClientAccounts(seed, t, n)["b" := [Created("b"), A.MoneyDeposited(m, "EUR", LegId(t, T.Credit))]]
    ensures s.store.accounts == map["a" := Emptied(seed, t, n),
                                    "b" := [Created("b"), A.MoneyDeposited(m, "EUR", LegId(t, T.Credit))]]
    ensures Balance(s, "a") == 0 && Balance(s, "b") == m
  {
    EmptiedState(seed, t, n);
    AccountStates("", m);
    A.FoldSnoc([Created("b")], A.MoneyDeposited(m, "EUR", LegId(t, T.Credit)));
    assert [Created("b")] + [A.MoneyDeposited(m, "EUR", LegId(t, T.Credit))]
        == [Created("b"), A.MoneyDeposited(m, "EUR", LegId(t, T.Credit))];
  }

  lemma BorrowedIsPlain(seed: string, t: string, n: int)
    ensures AllDone(Borrowed(seed, t, n))
  {
    forall a | a in Borrowed(seed, t, n) && a.Step? ensures a.o.Done? {
      assert a in Opening(seed, Registered(n)) || a in Steps(0, 4) || a in Steps(0, PASS);
    }
  }
}
