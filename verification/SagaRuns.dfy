// Concrete runs from the empty system: the hypotheses of the agreement between status
// and money cannot be dropped, a failed record can have moved its money, and one lost
// await or crash can block a leg.
module SagaRuns {
  import opened Wrappers
  import opened Sums
  import opened Saga
  import opened SagaBase
  import opened SagaLegs
  import opened SagaInvariant
  import opened SagaTexts
  import opened SagaTheorems
  import opened SagaFailures
  import opened SagaPasses
  import opened SagaBlocked
  import opened Conservation
  import A = Accounts
  import T = Transfers
  import R = Registry

  // A leg of n minor units moves this much.
  predicate Worth(cfg: Config, n: int, m: int) { n > 0 && m > 0 && cfg.legAmount(n) == Some(m) }

  // ---- A funded account and an initiated transfer ----

  function Deposit(seed: string, m: int): R.Input { R.Input(seed, "a", R.DepositOp, Some(m), "EUR") }

  function Opening(seed: string, m: int): seq<Action> {
    [CreateAccount("a", "o", "EUR"), CreateAccount("b", "o", "EUR"), Submit(0, Deposit(seed, m))]
  }

  // Two accounts, a deposit of m under the id seed on the first, and a transfer t of n.
  function Fund(seed: string, t: string, n: int, m: int): seq<Action> {
    Opening(seed, m) + Steps(0, 4) + [InitiateTransfer(t, "a", "b", Some(n), "EUR")]
  }

  function Created(id: string): A.Event { A.AccountCreated(id, "o", "EUR") }

  function InfoOf(t: string, n: int): T.Info { T.Info(t, "a", "b", n, "EUR") }

  function Funds(seed: string, m: int): map<string, seq<A.Event>> {
    map["a" := [Created("a"), A.MoneyDeposited(m, "EUR", seed)], "b" := [Created("b")]]
  }

  function Seeded(seed: string, m: int, status: R.Status): R.Records {
    map[seed := R.Record("a", R.DepositOp, m, "EUR", status)]
  }

  function Funded(seed: string, t: string, n: int, m: int): System {
    System(Store(Funds(seed, m), map[t := [T.TransferInitiated(InfoOf(t, n))]], Seeded(seed, m, R.Completed)),
        map[0 := Idle])
  }

  lemma Then(cfg: Config, h: seq<Action>, a: Action, s: System)
    requires Next(cfg, Exec(cfg, h), a) == s
    ensures Exec(cfg, h + [a]) == s
  {
    ExecSnoc(cfg, h, [a]);
    assert h + [] == h;
  }

  lemma NewAccount(cfg: Config, s: System, id: string)
    requires id != "" && id !in s.store.accounts
    ensures Next(cfg, s, CreateAccount(id, "o", "EUR")) ==
              s.(store := s.store.(accounts := s.store.accounts[id := [Created(id)]]))
  {
    assert [] + [Created(id)] == [Created(id)];
  }

  const EMPTY_FUNDS: map<string, seq<A.Event>> := map["a" := [Created("a")], "b" := [Created("b")]]

  lemma Opened(cfg: Config, seed: string, m: int)
    ensures Exec(cfg, Opening(seed, m)) ==
              System(Store(EMPTY_FUNDS, map[], map[]), map[0 := Reserving(Job(Api, Deposit(seed, m), Some(m)))])
  {
    var c, d, e := CreateAccount("a", "o", "EUR"), CreateAccount("b", "o", "EUR"), Submit(0, Deposit(seed, m));
    NewAccount(cfg, START, "a");
    NewAccount(cfg, System(Store(map["a" := [Created("a")]], map[], map[]), map[]), "b");
    assert map[]["a" := [Created("a")]] == map["a" := [Created("a")]];
    Then(cfg, [], c, System(Store(map["a" := [Created("a")]], map[], map[]), map[]));
    assert [] + [c] == [c];
    Then(cfg, [c], d, System(Store(EMPTY_FUNDS, map[], map[]), map[]));
    assert [c] + [d] == [c, d];
    Then(cfg, [c, d], e, System(Store(EMPTY_FUNDS, map[], map[]),
        map[0 := Reserving(Job(Api, Deposit(seed, m), Some(m)))]));
    assert [c, d] + [e] == Opening(seed, m);
  }

  // The deposit's own steps.
  lemma Deposited(cfg: Config, seed: string, m: int, s: System, n: nat)
    requires m > 0 && n == 4
    requires s == System(Store(EMPTY_FUNDS, map[], map[]), map[0 := Reserving(Job(Api, Deposit(seed, m), Some(m)))])
    ensures Run(cfg, s, 0, n) == System(Store(Funds(seed, m), map[], Seeded(seed, m, R.Completed)), map[0 := Idle])
  {
    var job, e := Job(Api, Deposit(seed, m), Some(m)), A.MoneyDeposited(m, "EUR", seed);
    A.FoldSnoc([], Created("a"));
    assert [] + [Created("a")] == [Created("a")];
    ApiPass(cfg, s, 0, job, e, n);
    assert [Created("a")] + [e] == Funds(seed, m)["a"];
    assert EMPTY_FUNDS["a" := Funds(seed, m)["a"]] == Funds(seed, m);
  }

  lemma FundedSystem(cfg: Config, seed: string, t: string, n: int, m: int)
    requires m > 0 && n > 0 && t != ""
    ensures Exec(cfg, Fund(seed, t, n, m)) == Funded(seed, t, n, m)
  {
    var h := Opening(seed, m) + Steps(0, 4);
    var s := System(Store(Funds(seed, m), map[], Seeded(seed, m, R.Completed)), map[0 := Idle]);
    Opened(cfg, seed, m);
    StepsAfter(cfg, Opening(seed, m), 0, 4);
    Deposited(cfg, seed, m, Exec(cfg, Opening(seed, m)), 4);
    Initiated(cfg, s, seed, t, n, m);
    Then(cfg, h, InitiateTransfer(t, "a", "b", Some(n), "EUR"), Funded(seed, t, n, m));
  }

  lemma AccountStates(seed: string, m: int)
    ensures A.Fold(Funds(seed, m)["a"]) == A.State(Some("a"), Some("o"), Some("EUR"), A.Active, m, 2)
    ensures A.Fold(Funds(seed, m)["b"]) == A.State(Some("b"), Some("o"), Some("EUR"), A.Active, 0, 1)
  {
    A.FoldSnoc([], Created("a"));
    A.FoldSnoc([], Created("b"));
    assert [] + [Created("a")] == [Created("a")] && [] + [Created("b")] == [Created("b")];
    A.FoldSnoc([Created("a")], A.MoneyDeposited(m, "EUR", seed));
    assert [Created("a")] + [A.MoneyDeposited(m, "EUR", seed)] == Funds(seed, m)["a"];
  }

  lemma Initiated(cfg: Config, s: System, seed: string, t: string, n: int, m: int)
    requires n > 0 && t != ""
    requires s == System(Store(Funds(seed, m), map[], Seeded(seed, m, R.Completed)), map[0 := Idle])
    ensures Next(cfg, s, InitiateTransfer(t, "a", "b", Some(n), "EUR")) == Funded(seed, t, n, m)
  {
    AccountStates(seed, m);
    assert [] + [T.TransferInitiated(InfoOf(t, n))] == [T.TransferInitiated(InfoOf(t, n))];
    assert map[][t := [T.TransferInitiated(InfoOf(t, n))]] == map[t := [T.TransferInitiated(InfoOf(t, n))]];
  }

  // ---- The debit has moved and is about to be marked ----

  function ToDebit(seed: string, t: string, n: int, m: int): seq<Action> {
    Fund(seed, t, n, m) + [Pick(0, t)] + Steps(0, 7)
  }

  function DebitJob(cfg: Config, t: string, n: int): Job { LegJob(cfg, T.Debit, LegId(t, T.Debit), InfoOf(t, n)) }

  // What holds there.
  ghost predicate DebitMoved(cfg: Config, s: System, t: string, n: int) {
    && Inv(cfg, s) && s.At(0) == MarkingCompleted(DebitJob(cfg, t, n))
    && (forall w {:trigger s.At(w)} :: w != 0 ==> s.At(w) == Idle)
    && StateOk(t, StateOf(s, t)) && StateOf(s, t).info == Some(InfoOf(t, n))
    && StateOf(s, t).status == Some(T.DebitInProgress) && StateOf(s, t).debit.tx == Some(LegId(t, T.Debit))
    && LegMoves(s, t, T.Debit) == 1
    && Open(s.store, LegId(t, T.Debit), R.Pending)
    && s.store.registry[LegId(t, T.Debit)] == RecordFor(DebitJob(cfg, t, n), R.Pending)
  }

  // The transfer is ready for its debit.
  lemma FundedIsReady(cfg: Config, seed: string, t: string, n: int, m: int)
    requires Worth(cfg, n, m) && t != "" && seed != LegId(t, T.Debit)
    ensures var s := Funded(seed, t, n, m).Go(0, Picked(t));
            && Ready(cfg, s, 0, t, T.Debit) && StateOf(s, t).info == Some(InfoOf(t, n))
            && StateOf(s, t).status == Some(T.Initiated)
            && Answer(cfg, s, t, T.Debit) == Success(A.MoneyWithdrawn(m, "EUR", LegId(t, T.Debit)))
  {
    var e := T.TransferInitiated(InfoOf(t, n));
    T.FoldSnoc([], e);
    assert [] + [e] == [e];
    AccountStates(seed, m);
  }

  lemma AtDebit(cfg: Config, seed: string, t: string, n: int, m: int)
    requires Worth(cfg, n, m) && t != "" && seed != LegId(t, T.Debit)
    ensures DebitMoved(cfg, Exec(cfg, ToDebit(seed, t, n, m)), t, n)
  {
    var h := ToDebit(seed, t, n, m);
    var s := Funded(seed, t, n, m).Go(0, Picked(t));
    FundedSystem(cfg, seed, t, n, m);
    FundedIsReady(cfg, seed, t, n, m);
    PassIsASchedule(cfg, Fund(seed, t, n, m), 0, t, 7);
    PassToMarking(cfg, s, t, 7);
    Reachable(cfg, h);
    DebitMarked(cfg, s, t, n, m);
    DebitIsMoved(cfg, Exec(cfg, h), t, n);
  }

  // What the store and the workers look like there ...
  ghost predicate DebitMarking(cfg: Config, s: System, t: string, n: int) {
    && s.At(0) == MarkingCompleted(DebitJob(cfg, t, n))
    && (forall w {:trigger s.At(w)} :: w != 0 ==> s.At(w) == Idle)
    && StateOk(t, StateOf(s, t)) && StateOf(s, t).info == Some(InfoOf(t, n))
    && StateOf(s, t).status == Some(T.DebitInProgress) && StateOf(s, t).debit.tx == Some(LegId(t, T.Debit))
    && LegId(t, T.Debit) in s.store.registry
    && s.store.registry[LegId(t, T.Debit)] == RecordFor(DebitJob(cfg, t, n), R.Pending)
  }

  lemma DebitMarked(cfg: Config, s: System, t: string, n: int, m: int)
    requires Ready(cfg, s, 0, t, T.Debit) && StateOf(s, t).info == Some(InfoOf(t, n))
    requires StateOf(s, t).status == Some(T.Initiated) && s.workers.Keys == {0}
    requires Answer(cfg, s, t, T.Debit) == Success(A.MoneyWithdrawn(m, "EUR", LegId(t, T.Debit)))
    ensures DebitMarking(cfg, AtMarking(cfg, s, 0, t, T.Debit), t, n)
  {
    StateAtMarking(cfg, s, 0, t, T.Debit);
  }

  // ... and what the invariant adds.
  lemma DebitIsMoved(cfg: Config, s: System, t: string, n: int)
    requires Inv(cfg, s) && DebitMarking(cfg, s, t, n)
    ensures DebitMoved(cfg, s, t, n)
  {
    assert PcOk(cfg, s.store, s.At(0));
  }

  lemma PassToMarking(cfg: Config, s: System, t: string, n: nat)
    requires Ready(cfg, s, 0, t, T.Debit) && n == 7
    ensures Run(cfg, s, 0, n) == AtMarking(cfg, s, 0, t, T.Debit)
  {
    UpToMarking(cfg, s, 0, t, T.Debit, n);
  }

  // The only id that a client submits is seed.
  predicate OnlyId(schedule: seq<Action>, seed: string) {
    forall a :: a in schedule && a.Submit? ==> a.input.transactionId == seed
  }

  lemma DebitRunIsPlain(seed: string, t: string, n: int, m: int)
    ensures OnlyId(ToDebit(seed, t, n, m), seed) && AllDone(ToDebit(seed, t, n, m))
  {
    forall a | a in ToDebit(seed, t, n, m)
      ensures (a.Submit? ==> a.input.transactionId == seed) && (a.Step? ==> a.o.Done?)
    {
      assert a in Opening(seed, m) || a in Steps(0, 4) || a in Steps(0, 7)
             || a == InitiateTransfer(t, "a", "b", Some(n), "EUR") || a == Pick(0, t);
    }
  }

  // ---- A second coordinator finds the debit in progress ----

  // Refused with an error that looks terminal, a leg fails its transfer.
  lemma RefusedFails(cfg: Config, s: System, w: nat, t: string, leg: Leg, n: nat)
    requires n >= 3 && s.At(w).Reserving? && s.At(w).job.owner == TransferLeg(t, leg) && leg != T.Compensation
    requires var job := s.At(w).job;
             && Open(s.store, job.Tx(), R.Pending) && R.SameIntent(job.input, s.store.registry[job.Tx()])
             && cfg.Terminal(Taken(job.Tx(), R.AlreadyInProgress))
             && cfg.text(Taken(job.Tx(), R.AlreadyInProgress)) != ""
    requires StateOf(s, t).status == Some(InProgress(leg))
    ensures var s' := Run(cfg, s, w, n);
            && s'.store.accounts == s.store.accounts
            && StateOf(s', t).status == Some(T.Failed) && StateOf(s', t).FailedAt(FailureStage(leg))
  {
    var reason := cfg.text(Taken(s.At(w).job.Tx(), R.AlreadyInProgress));
    var s1 := s.Go(w, Failing(t, leg, reason, Read(1)));
    Pass(cfg, s, w, n, s1);
    var e := T.TransferFailed(reason, FailureStage(leg));
    UpToEnd(cfg, s1, w, t, T.Fail(reason, FailureStage(leg)), e, s1.At(w), n - 1);
    T.FoldSnoc(s.store.Transfer(t), e);
  }

  // The transfer says that it failed at the debit, and its debit has moved.
  ghost predicate FailedAfterDebit(s: System, t: string) {
    StateOf(s, t).status == Some(T.Failed) && StateOf(s, t).FailedAt(T.AtDebit) && LegMoves(s, t, T.Debit) == 1
  }

  lemma SecondCoordinator(cfg: Config, s: System, t: string, n: int, k: nat)
    requires DebitMoved(cfg, s, t, n) && k == 7
    requires cfg.Terminal(Taken(LegId(t, T.Debit), R.AlreadyInProgress))
    requires cfg.text(Taken(LegId(t, T.Debit), R.AlreadyInProgress)) != ""
    ensures FailedAfterDebit(Run(cfg, s.Go(1, Picked(t)), 1, k), t)
  {
    var s1 := s.Go(1, Picked(t));
    var start := StartEvent(s1, t, T.Debit);
    var s2 := System(s1.store.AppendTransfer(t, start), s1.workers).Go(1, Reserving(DebitJob(cfg, t, n)));
    assert Listed(s1, 1, t, T.Debit);
    UpToReservation(cfg, s1, 1, t, T.Debit, k);
    T.FoldSnoc(s1.store.Transfer(t), start);
    RefusedFails(cfg, s2, 1, t, T.Debit, k - 4);
  }

  function TwoCoordinators(seed: string, t: string, n: int, m: int): seq<Action> {
    ToDebit(seed, t, n, m) + [Pick(1, t)] + Steps(1, 7)
  }

  // A transfer whose id contains a phrase fails at the debit although its debit has
  // moved, when a second coordinator looks at it in between. No await ends badly and
  // nobody crashes. Whatever follows, it stays failed at the debit, which no
  // compensation follows, with the debit moved.
  lemma PhraseBreaksAgreement(cfg: Config, seed: string, t: string, n: int, m: int, more: seq<Action>)
    requires AsCoded(cfg) && Worth(cfg, n, m) && !NoPhrase(t) && seed != LegId(t, T.Debit)
    ensures var h := TwoCoordinators(seed, t, n, m);
            OnlyId(h, seed) && AllDone(h) && FailedAfterDebit(Exec(cfg, h + more), t)
  {
    var h := ToDebit(seed, t, n, m);
    NoPhraseInEmpty();
    AtDebit(cfg, seed, t, n, m);
    TakenTerminal(t, T.Debit, R.AlreadyInProgress);
    TerminalHasText(cfg, Taken(LegId(t, T.Debit), R.AlreadyInProgress));
    SecondCoordinator(cfg, Exec(cfg, h), t, n, 7);
    PassIsASchedule(cfg, h, 1, t, 7);
    TwoCoordinatorsArePlain(seed, t, n, m);
    FailedAfterDebitStays(cfg, TwoCoordinators(seed, t, n, m), more, t);
  }

  lemma FailedAfterDebitStays(cfg: Config, schedule: seq<Action>, more: seq<Action>, t: string)
    requires FailedAfterDebit(Exec(cfg, schedule), t)
    ensures FailedAfterDebit(Exec(cfg, schedule + more), t)
  {
    SettledStaysSettled(cfg, schedule, more, t);
    MovesGrow(cfg, schedule, more, LegId(t, T.Debit));
    Reachable(cfg, schedule + more);
    assert RecordOk(Exec(cfg, schedule + more).store, LegId(t, T.Debit));
  }

  lemma TwoCoordinatorsArePlain(seed: string, t: string, n: int, m: int)
    ensures OnlyId(TwoCoordinators(seed, t, n, m), seed) && AllDone(TwoCoordinators(seed, t, n, m))
  {
    DebitRunIsPlain(seed, t, n, m);
    forall a | a in TwoCoordinators(seed, t, n, m)
      ensures (a.Submit? ==> a.input.transactionId == seed) && (a.Step? ==> a.o.Done?)
    {
      assert a in ToDebit(seed, t, n, m) || a == Pick(1, t) || a in Steps(1, 7);
    }
  }

  lemma NoPhraseInEmpty()
    ensures NoPhrase("")
  {
    forall p | p in PHRASES ensures !Contains("", p) { PhraseHead(p); }
  }

  // ---- The infrastructure's error quotes a phrase ----

  function LosesMark(seed: string, t: string, n: int, m: int, text: string): seq<Action> {
    ToDebit(seed, t, n, m) + [Step(0, LostBefore(text))]
  }

  // The infrastructure's only error is text.
  predicate OnlyError(schedule: seq<Action>, text: string) {
    forall a :: a in schedule && a.Step? && !a.o.Done? ==> a.o.text == text
  }

  lemma LosesMarkIsPlain(seed: string, t: string, n: int, m: int, text: string, k: nat)
    ensures var h := LosesMark(seed, t, n, m, text) + Steps(0, k); OnlyId(h, seed) && OnlyError(h, text)
  {
    DebitRunIsPlain(seed, t, n, m);
    forall a | a in LosesMark(seed, t, n, m, text) + Steps(0, k)
      ensures (a.Submit? ==> a.input.transactionId == seed) && (a.Step? && !a.o.Done? ==> a.o.text == text)
    {
      assert a in ToDebit(seed, t, n, m) || a == Step(0, LostBefore(text)) || a in Steps(0, k);
    }
  }

  lemma MarkLost(cfg: Config, seed: string, t: string, n: int, m: int, text: string)
    requires Worth(cfg, n, m) && t != "" && seed != LegId(t, T.Debit)
    ensures var s := Exec(cfg, ToDebit(seed, t, n, m));
            && DebitMoved(cfg, s, t, n)
            && Exec(cfg, LosesMark(seed, t, n, m, text))
               == s.Go(0, MarkingFailed(DebitJob(cfg, t, n), Infrastructure(text)))
  {
    AtDebit(cfg, seed, t, n, m);
    var h := ToDebit(seed, t, n, m);
    Then(cfg, h, Step(0, LostBefore(text)),
         Exec(cfg, h).Go(0, MarkingFailed(DebitJob(cfg, t, n), Infrastructure(text))));
  }

  lemma InfrastructureFails(cfg: Config, s: System, t: string, n: int, text: string, k: nat)
    requires DebitMoved(cfg, s, t, n) && k == 3
    requires cfg.Terminal(Infrastructure(text)) && cfg.text(Infrastructure(text)) != ""
    ensures var s' := Run(cfg, s.Go(0, MarkingFailed(DebitJob(cfg, t, n), Infrastructure(text))), 0, k);
            && s'.store.accounts == s.store.accounts
            && StateOf(s', t).status == Some(T.Failed) && StateOf(s', t).FailedAt(T.AtDebit)
  {
    var job, reason := DebitJob(cfg, t, n), cfg.text(Infrastructure(text));
    var s1 := s.Go(0, MarkingFailed(job, Infrastructure(text)));
    var store := SetRecord(s.store, job.Tx(), RecordFor(job, R.FailedTerminal));
    var s2 := System(store, s1.workers).Go(0, Failing(t, T.Debit, reason, Read(1)));
    Pass(cfg, s1, 0, k, s2);
    var e := T.TransferFailed(reason, T.AtDebit);
    assert store.Transfer(t) == s.store.Transfer(t);
    UpToEnd(cfg, s2, 0, t, T.Fail(reason, T.AtDebit), e, s2.At(0), k - 1);
    T.FoldSnoc(s.store.Transfer(t), e);
  }

  // An infrastructure error with a phrase in its text does the same to any transfer.
  lemma ErrorTextBreaksAgreement(cfg: Config, seed: string, t: string, n: int, m: int, text: string)
    requires AsCoded(cfg) && Worth(cfg, n, m) && t != "" && !NoPhrase(text) && seed != LegId(t, T.Debit)
    ensures var h := LosesMark(seed, t, n, m, text) + Steps(0, 3);
            OnlyId(h, seed) && OnlyError(h, text) && !StatusAgrees(Exec(cfg, h), t)
  {
    var h := LosesMark(seed, t, n, m, text);
    MarkLost(cfg, seed, t, n, m, text);
    TerminalHasText(cfg, Infrastructure(text));
    InfrastructureFails(cfg, Exec(cfg, ToDebit(seed, t, n, m)), t, n, text, 3);
    assert LegMoves(Exec(cfg, ToDebit(seed, t, n, m)), t, T.Debit) == 1;
    StepsAfter(cfg, h, 0, 3);
    LosesMarkIsPlain(seed, t, n, m, text, 3);
  }

  // ---- A client uses the id of a leg ----

  // A deposit under the id of a leg, before the transfer is initiated: every await ends
  // well, and the initiated transfer has a money event with its leg's id.
  lemma LegIdBreaksAgreement(cfg: Config, t: string, leg: Leg, n: int, m: int)
    requires m > 0 && n > 0 && t != ""
    ensures var h := Fund(LegId(t, leg), t, n, m);
            OnlyId(h, LegId(t, leg)) && AllDone(h) && !StatusAgrees(Exec(cfg, h), t)
  {
    var seed := LegId(t, leg);
    var s := Funded(seed, t, n, m);
    FundedSystem(cfg, seed, t, n, m);
    Reachable(cfg, Fund(seed, t, n, m));
    assert RecordOk(s.store, seed);
    OpenedTransfer(seed, t, n, m);
    forall a | a in Fund(seed, t, n, m)
      ensures (a.Submit? ==> a.input.transactionId == seed) && (a.Step? ==> a.o.Done?)
    {
      assert a in Opening(seed, m) || a in Steps(0, 4) || a == InitiateTransfer(t, "a", "b", Some(n), "EUR");
    }
  }

  lemma OpenedTransfer(seed: string, t: string, n: int, m: int)
    ensures StateOf(Funded(seed, t, n, m), t).status == Some(T.Initiated)
  {
    var e := T.TransferInitiated(InfoOf(t, n));
    T.FoldSnoc([], e);
    assert [] + [e] == [e];
  }

  // The same deposit makes the equation of the books false, because it is counted as the
  // leg's. No money has moved wrongly yet; SharedIdRun has a run in which it does.
  lemma LegIdBreaksBooks(cfg: Config, t: string, m: int)
    requires m > 0
    ensures !Balanced(cfg, Exec(cfg, Opening(LegId(t, T.Debit), m) + Steps(0, 4)).store, "EUR")
  {
    var seed := LegId(t, T.Debit);
    var store := Store(Funds(seed, m), map[], Seeded(seed, m, R.Completed));
    Opened(cfg, seed, m);
    StepsAfter(cfg, Opening(seed, m), 0, 4);
    Deposited(cfg, seed, m, Exec(cfg, Opening(seed, m)), 4);
    LegFundsSums(seed, m, t, store);
    assert (map u | u in store.transfers.Keys :: Nets(cfg, store, "EUR")(u)) == map[];
  }

  lemma LegFundsSums(seed: string, m: int, t: string, store: Store)
    requires seed == LegId(t, T.Debit) && store.accounts == Funds(seed, m)
    ensures Sum(HeldMap(store, "EUR")) == m && Sum(OutsideMap(store, "EUR")) == 0
  {
    AccountStates(seed, m);
    assert HeldMap(store, "EUR") == map[]["b" := 0]["a" := m];
    SumUpdate(map[], "b", 0);
    SumUpdate(map[]["b" := 0], "a", m);
    LegFundsAreInside(seed, m, t);
    assert OutsideMap(store, "EUR") == map[]["b" := 0]["a" := 0];
    SumUpdate(map[]["b" := 0], "a", 0);
  }

  lemma LegFundsAreInside(seed: string, m: int, t: string)
    requires seed == LegId(t, T.Debit)
    ensures FromOutside(Funds(seed, m)["a"], "EUR") == 0 && FromOutside(Funds(seed, m)["b"], "EUR") == 0
  {
    var a := Funds(seed, m)["a"];
    assert IsLegId(seed) && OutsideDelta(a[1], "EUR") == 0;
    assert a[..1] == [Created("a")] && FromOutside([Created("a")], "EUR") == FromOutside([Created("a")][..0], "EUR");
    assert FromOutside([Created("b")], "EUR") == FromOutside([Created("b")][..0], "EUR");
  }

  // ---- The exact conditions ----

  // Clients use these ids, and the infrastructure's errors have these texts.
  ghost predicate From(schedule: seq<Action>, ids: iset<string>, texts: iset<string>) {
    && (forall a :: a in schedule && a.Submit? ==> a.input.transactionId in ids)
    && (forall a :: a in schedule && a.Step? && !a.o.Done? ==> a.o.text in texts)
  }

  // None of the ids belongs to a leg of t, and neither t nor any text contains a phrase.
  ghost predicate Separate(t: string, ids: iset<string>, texts: iset<string>) {
    (forall leg :: LegId(t, leg) !in ids) && NoPhrase(t) && forall text :: text in texts ==> NoPhrase(text)
  }

  lemma SeparateAgrees(cfg: Config, schedule: seq<Action>, t: string, ids: iset<string>, texts: iset<string>)
    requires AsCoded(cfg) && From(schedule, ids, texts) && Separate(t, ids, texts)
    ensures StatusAgrees(Exec(cfg, schedule), t)
  {
    forall a | a in schedule ensures Foreign(a, t) {}
    StatusAgreesWithMoney(cfg, schedule, t);
  }

  // For any ids that clients may use, at least one of which does not belong to t, and
  // any texts that the infrastructure's errors may have: status and money agree for t
  // in all schedules if and only if no client id is an id of t's legs and neither t
  // nor any of the texts contains one of the four phrases.
  lemma AgreementIff(cfg: Config, t: string, ids: iset<string>, texts: iset<string>, seed: string, n: int, m: int)
    requires AsCoded(cfg) && Worth(cfg, n, m) && t != ""
    requires seed in ids && forall leg :: seed != LegId(t, leg)
    ensures (forall schedule :: From(schedule, ids, texts) ==> StatusAgrees(Exec(cfg, schedule), t))
            <==> Separate(t, ids, texts)
  {
    if Separate(t, ids, texts) {
      forall schedule | From(schedule, ids, texts) ensures StatusAgrees(Exec(cfg, schedule), t) {
        SeparateAgrees(cfg, schedule, t, ids, texts);
      }
    } else if leg :| LegId(t, leg) in ids {
      LegIdBreaksAgreement(cfg, t, leg, n, m);
      assert From(Fund(LegId(t, leg), t, n, m), ids, texts);
    } else if !NoPhrase(t) {
      PhraseBreaksAgreement(cfg, seed, t, n, m, []);
      assert TwoCoordinators(seed, t, n, m) + [] == TwoCoordinators(seed, t, n, m);
      assert From(TwoCoordinators(seed, t, n, m), ids, texts);
    } else {
      var text :| text in texts && !NoPhrase(text);
      ErrorTextBreaksAgreement(cfg, seed, t, n, m, text);
      assert From(LosesMark(seed, t, n, m, text) + Steps(0, 3), ids, texts);
    }
  }

  // ---- The debit is about to read the account ----

  function ToHandler(seed: string, t: string, n: int, m: int): seq<Action> {
    Fund(seed, t, n, m) + [Pick(0, t)] + Steps(0, 5)
  }

  // What holds there.
  ghost predicate DebitStarted(cfg: Config, s: System, t: string, n: int) {
    && Inv(cfg, s) && s.At(0) == Moving(DebitJob(cfg, t, n), Read(1))
    && (forall w {:trigger s.At(w)} :: w != 0 ==> s.At(w) == Idle)
    && StateOf(s, t).status == Some(T.DebitInProgress)
    && Open(s.store, LegId(t, T.Debit), R.Pending) && LegMoves(s, t, T.Debit) == 0
  }

  lemma PassToHandler(cfg: Config, s: System, t: string, n: int, k: nat)
    requires Ready(cfg, s, 0, t, T.Debit) && StateOf(s, t).info == Some(InfoOf(t, n)) && k == 5
    ensures var store := s.store.AppendTransfer(t, StartEvent(s, t, T.Debit));
            Run(cfg, s, 0, k) ==
              System(SetRecord(store, LegId(t, T.Debit), RecordFor(DebitJob(cfg, t, n), R.Pending)), s.workers)
                .Go(0, Moving(DebitJob(cfg, t, n), Read(1)))
  {
    var job, store := DebitJob(cfg, t, n), s.store.AppendTransfer(t, StartEvent(s, t, T.Debit));
    UpToReservation(cfg, s, 0, t, T.Debit, k);
    var s1 := System(store, s.workers).Go(0, Reserving(job));
    var s2 := System(SetRecord(store, job.Tx(), RecordFor(job, R.Pending)), s.workers).Go(0, Moving(job, Read(1)));
    assert Advance(cfg, s1, 0, Done) == s2;
    Pass(cfg, s1, 0, k - 4, s2);
  }

  lemma HandlerStarted(cfg: Config, s: System, t: string, n: int, s': System)
    requires Ready(cfg, s, 0, t, T.Debit) && StateOf(s, t).info == Some(InfoOf(t, n)) && s.workers.Keys == {0}
    requires StateOf(s, t).status == Some(T.Initiated) && Inv(cfg, s')
    requires var store := s.store.AppendTransfer(t, StartEvent(s, t, T.Debit));
             s' == System(SetRecord(store, LegId(t, T.Debit), RecordFor(DebitJob(cfg, t, n), R.Pending)), s.workers)
                     .Go(0, Moving(DebitJob(cfg, t, n), Read(1)))
    ensures DebitStarted(cfg, s', t, n)
  {
    T.FoldSnoc(s.store.Transfer(t), StartEvent(s, t, T.Debit));
    assert PcOk(cfg, s'.store, s'.At(0));
  }

  lemma AtHandler(cfg: Config, seed: string, t: string, n: int, m: int)
    requires Worth(cfg, n, m) && t != "" && seed != LegId(t, T.Debit)
    ensures DebitStarted(cfg, Exec(cfg, ToHandler(seed, t, n, m)), t, n)
  {
    var s := Funded(seed, t, n, m).Go(0, Picked(t));
    FundedSystem(cfg, seed, t, n, m);
    FundedIsReady(cfg, seed, t, n, m);
    PassIsASchedule(cfg, Fund(seed, t, n, m), 0, t, 5);
    PassToHandler(cfg, s, t, n, 5);
    Reachable(cfg, ToHandler(seed, t, n, m));
    HandlerStarted(cfg, s, t, n, Exec(cfg, ToHandler(seed, t, n, m)));
  }

  lemma HandlerRunIsCalm(cfg: Config, seed: string, t: string, n: int, m: int)
    requires forall leg :: seed != LegId(t, leg)
    ensures Calmly(cfg, ToHandler(seed, t, n, m), t)
  {
    forall a | a in ToHandler(seed, t, n, m) ensures Foreign(a, t) && CalmAction(cfg, a) {
      assert a in Opening(seed, m) || a in Steps(0, 4) || a in Steps(0, 5)
             || a == InitiateTransfer(t, "a", "b", Some(n), "EUR") || a == Pick(0, t);
    }
  }

  // ---- One failed read of the account ----

  function LostRead(seed: string, t: string, n: int, m: int, text: string): seq<Action> {
    ToHandler(seed, t, n, m) + [Step(0, LostBefore(text))] + [Step(0, Done)]
  }

  lemma LoseRead(cfg: Config, s: System, t: string, n: int, text: string)
    requires DebitStarted(cfg, s, t, n) && !cfg.Terminal(Infrastructure(text))
    ensures var s1 := Advance(cfg, s, 0, LostBefore(text));
            var s2 := Advance(cfg, s1, 0, Done);
            && s2.store.accounts == s.store.accounts && s2.store.transfers == s.store.transfers
            && Open(s2.store, LegId(t, T.Debit), R.FailedTerminal)
            && forall w {:trigger s2.At(w)} :: s2.At(w) == Idle
  {
    var job := DebitJob(cfg, t, n);
    var s1 := s.Go(0, MarkingFailed(job, Infrastructure(text)));
    assert Advance(cfg, s, 0, LostBefore(text)) == s1;
    var s2 := Advance(cfg, s1, 0, Done);
    forall w {:trigger s2.At(w)} ensures s2.At(w) == Idle { assert w != 0 ==> s2.At(w) == s.At(w); }
  }

  // One failed read of the account during the debit: the record says failed, nothing has
  // moved and nobody is at work; and the debit is in progress in every continuation.
  lemma LostReadRun(cfg: Config, seed: string, t: string, n: int, m: int, text: string, more: seq<Action>)
    requires AsCoded(cfg) && Worth(cfg, n, m) && t != "" && NoPhrase(t) && NoPhrase(text)
    requires (forall leg :: seed != LegId(t, leg)) && Calmly(cfg, more, t)
    ensures var s := Exec(cfg, LostRead(seed, t, n, m, text) + more);
            && StateOf(s, t).status == Some(T.DebitInProgress)
            && Open(s.store, LegId(t, T.Debit), R.FailedTerminal) && LegMoves(s, t, T.Debit) == 0
  {
    var h, s := ToHandler(seed, t, n, m), Exec(cfg, ToHandler(seed, t, n, m));
    AtHandler(cfg, seed, t, n, m);
    LoseRead(cfg, s, t, n, text);
    Then(cfg, h, Step(0, LostBefore(text)), Advance(cfg, s, 0, LostBefore(text)));
    var h1 := h + [Step(0, LostBefore(text))];
    Then(cfg, h1, Step(0, Done), Advance(cfg, Exec(cfg, h1), 0, Done));
    var s2 := Exec(cfg, LostRead(seed, t, n, m, text));
    assert s2.store.Transfer(t) == s.store.Transfer(t);
    TameIff(cfg, t);
    HandlerRunIsCalm(cfg, seed, t, n, m);
    CalmlyAfter(cfg, h, [Step(0, LostBefore(text))], t);
    CalmlyAfter(cfg, h1, [Step(0, Done)], t);
    IdleIsBlocked(cfg, LostRead(seed, t, n, m, text), more, t, T.Debit);
  }

  // With nobody at work, a failed record blocks the leg.
  lemma IdleIsBlocked(cfg: Config, schedule: seq<Action>, more: seq<Action>, t: string, leg: Leg)
    requires Tame(cfg, t) && Calmly(cfg, schedule, t) && Calmly(cfg, more, t)
    requires var s := Exec(cfg, schedule);
             && StateOf(s, t).status == Some(InProgress(leg)) && Open(s.store, LegId(t, leg), R.FailedTerminal)
             && forall w {:trigger s.At(w)} :: s.At(w) == Idle
    ensures var s, s' := Exec(cfg, schedule), Exec(cfg, schedule + more);
            && StateOf(s', t).status == Some(InProgress(leg)) && Open(s'.store, LegId(t, leg), R.FailedTerminal)
            && LegMoves(s', t, leg) == LegMoves(s, t, leg)
  {
    BlockedStays(cfg, schedule, more, t, leg);
    FailedStaysFailed(cfg, schedule, more, LegId(t, leg));
  }

  // ---- The worker dies in the handler ----

  // Before the movement and after it: the record stays pending and the debit in
  // progress, in every continuation.
  lemma CrashRun(cfg: Config, seed: string, t: string, n: int, m: int, moved: bool, more: seq<Action>)
    requires AsCoded(cfg) && Worth(cfg, n, m) && t != "" && NoPhrase(t)
    requires (forall leg :: seed != LegId(t, leg)) && Calmly(cfg, more, t)
    ensures var h := if moved then ToDebit(seed, t, n, m) else ToHandler(seed, t, n, m);
            var s := Exec(cfg, h + [Crash(0)] + more);
            && StateOf(s, t).status == Some(T.DebitInProgress)
            && Open(s.store, LegId(t, T.Debit), R.Pending) && LegMoves(s, t, T.Debit) == if moved then 1 else 0
  {
    if moved {
      CrashAfterMove(cfg, seed, t, n, m, more);
    } else {
      CrashBeforeMove(cfg, seed, t, n, m, more);
    }
  }

  lemma CrashBeforeMove(cfg: Config, seed: string, t: string, n: int, m: int, more: seq<Action>)
    requires AsCoded(cfg) && Worth(cfg, n, m) && t != "" && NoPhrase(t)
    requires (forall leg :: seed != LegId(t, leg)) && Calmly(cfg, more, t)
    ensures var s := Exec(cfg, ToHandler(seed, t, n, m) + [Crash(0)] + more);
            && StateOf(s, t).status == Some(T.DebitInProgress)
            && Open(s.store, LegId(t, T.Debit), R.Pending) && LegMoves(s, t, T.Debit) == 0
  {
    TameIff(cfg, t);
    AtHandler(cfg, seed, t, n, m);
    HandlerRunIsCalm(cfg, seed, t, n, m);
    CrashBlocks(cfg, ToHandler(seed, t, n, m), 0, more, t, T.Debit);
  }

  lemma CrashAfterMove(cfg: Config, seed: string, t: string, n: int, m: int, more: seq<Action>)
    requires AsCoded(cfg) && Worth(cfg, n, m) && t != "" && NoPhrase(t)
    requires (forall leg :: seed != LegId(t, leg)) && Calmly(cfg, more, t)
    ensures var s := Exec(cfg, ToDebit(seed, t, n, m) + [Crash(0)] + more);
            && StateOf(s, t).status == Some(T.DebitInProgress)
            && Open(s.store, LegId(t, T.Debit), R.Pending) && LegMoves(s, t, T.Debit) == 1
  {
    TameIff(cfg, t);
    AtDebit(cfg, seed, t, n, m);
    DebitRunIsCalm(cfg, seed, t, n, m);
    CrashBlocks(cfg, ToDebit(seed, t, n, m), 0, more, t, T.Debit);
  }

  lemma DebitRunIsCalm(cfg: Config, seed: string, t: string, n: int, m: int)
    requires forall leg :: seed != LegId(t, leg)
    ensures Calmly(cfg, ToDebit(seed, t, n, m), t)
  {
    DebitRunIsPlain(seed, t, n, m);
    forall a | a in ToDebit(seed, t, n, m) ensures Foreign(a, t) && CalmAction(cfg, a) {}
  }

  // ---- A failed record that has moved ----

  lemma MarkFailedRecord(cfg: Config, s: System, t: string, n: int, text: string)
    requires DebitMoved(cfg, s, t, n) && !cfg.Terminal(Infrastructure(text))
    ensures var s1 := s.Go(0, MarkingFailed(DebitJob(cfg, t, n), Infrastructure(text)));
            var s2 := Advance(cfg, s1, 0, Done);
            && s2.At(0) == Idle && s2.store.accounts == s.store.accounts && s2.store.transfers == s.store.transfers
            && Open(s2.store, LegId(t, T.Debit), R.FailedTerminal)
            && forall w :: w != 0 ==> s2.At(w) == s.At(w)
  {
  }

  function StrandedSchedule(seed: string, t: string, n: int, m: int, text: string): seq<Action> {
    LosesMark(seed, t, n, m, text) + [Step(0, Done)]
  }

  lemma StrandedScheduleIsCalm(cfg: Config, seed: string, t: string, n: int, m: int, text: string)
    requires AsCoded(cfg) && NoPhrase(text) && forall leg :: seed != LegId(t, leg)
    ensures Calmly(cfg, StrandedSchedule(seed, t, n, m, text), t)
  {
    LosesMarkIsPlain(seed, t, n, m, text, 1);
    assert Steps(0, 1) == [Step(0, Done)];
    forall a | a in StrandedSchedule(seed, t, n, m, text) ensures CalmAction(cfg, a) && Foreign(a, t) {}
  }

  // When marking the success of a debit fails once, the record says failed, the money
  // has moved and the transfer is in progress; and so it stays in every continuation.
  lemma StrandedRun(cfg: Config, seed: string, t: string, n: int, m: int, text: string, more: seq<Action>)
    requires AsCoded(cfg) && Worth(cfg, n, m) && t != "" && NoPhrase(t) && NoPhrase(text)
    requires (forall leg :: seed != LegId(t, leg)) && Calmly(cfg, more, t)
    ensures var s := Exec(cfg, StrandedSchedule(seed, t, n, m, text) + more);
            && StateOf(s, t).status == Some(T.DebitInProgress)
            && Open(s.store, LegId(t, T.Debit), R.FailedTerminal) && LegMoves(s, t, T.Debit) == 1
  {
    var h, s := LosesMark(seed, t, n, m, text), Exec(cfg, ToDebit(seed, t, n, m));
    MarkLost(cfg, seed, t, n, m, text);
    MarkFailedRecord(cfg, s, t, n, text);
    Then(cfg, h, Step(0, Done), Advance(cfg, Exec(cfg, h), 0, Done));
    var s2 := Exec(cfg, StrandedSchedule(seed, t, n, m, text));
    assert s2.store.Transfer(t) == s.store.Transfer(t);
    TameIff(cfg, t);
    StrandedScheduleIsCalm(cfg, seed, t, n, m, text);
    IdleIsBlocked(cfg, StrandedSchedule(seed, t, n, m, text), more, t, T.Debit);
  }
}
