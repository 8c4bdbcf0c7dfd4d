// What clients ask of the saga: opening and freezing accounts, initiating transfers,
// depositing and withdrawing. What each of these does after any schedule, in the terms
// of the events that are there and of the request.
module SagaClients {
  import opened Wrappers
  import opened Sums
  import opened Saga
  import opened SagaBase
  import opened SagaLegs
  import opened SagaInvariant
  import opened SagaTexts
  import opened SagaTheorems
  import opened SagaPasses
  import A = Accounts
  import T = Transfers
  import R = Registry

  // ---- The two accounts of a transfer ----

  // Both were opened, in the transfer's currency.
  ghost predicate PartiesOpened(store: Store, t: string) {
    LegKnown(store, t) ==>
      var info := T.Fold(store.Transfer(t)).info.value;
      && A.Opened(info.source, store.Account(info.source), info.currency)
      && A.Opened(info.destination, store.Account(info.destination), info.currency)
  }

  lemma OpenedStays(id: string, es: seq<A.Event>, es': seq<A.Event>, currency: string)
    requires es <= es' && A.Opened(id, es, currency)
    ensures A.Opened(id, es', currency)
  {
    var i: nat, owner :| i < |es| && es[i] == A.AccountCreated(id, owner, currency);
    assert es'[i] == A.AccountCreated(id, owner, currency);
  }

  // Which accounts have been opened, in which currency.
  lemma HoldsIff(store: Store, id: string, currency: string)
    requires AccountOk(store, id)
    ensures A.Fold(store.Account(id)).Exists() && A.Fold(store.Account(id)).currency == Some(currency)
            <==> A.Opened(id, store.Account(id), currency)
    ensures A.Fold(store.Account(id)).Exists() <==> exists e :: e in store.Account(id) && e.AccountCreated?
  {
    if id in store.accounts {
      A.OpenedIff(id, store.Account(id), currency);
    } else {
      assert A.Fold([]) == A.BLANK;
    }
  }

  // Identity and currency stay, whatever is appended.
  lemma CreatedStays(id: string, es: seq<A.Event>, es': seq<A.Event>)
    requires id != "" && A.Accepted(id, es') && es <= es' && A.Fold(es).accountId.Some?
    ensures A.Fold(es').accountId.Some? && A.Fold(es').currency == A.Fold(es).currency
  {
    assert es'[..|es|] == es;
    A.IdentityIsFixed(id, es', |es|);
  }

  // A created account that is frozen accepts nothing more.
  lemma FrozenStays(id: string, es: seq<A.Event>, es': seq<A.Event>)
    requires id != "" && A.Accepted(id, es') && es <= es'
    requires A.Fold(es).accountId.Some? && A.Fold(es).status == A.Frozen
    ensures es' == es
  {
    assert es'[..|es|] == es;
    A.AcceptedAt(id, es', |es|);
    A.FrozenIsFinal(id, es);
  }

  lemma AccountsGrow(cfg: Config, s: System, a: Action, id: string)
    ensures s.store.Account(id) <= Next(cfg, s, a).store.Account(id)
  {
  }

  // What happens to the description of a transfer.
  lemma InfoNext(cfg: Config, s: System, a: Action, t: string)
    requires Inv(cfg, s)
    ensures InfoStays(s.store, Next(cfg, s, a).store, t)
    ensures !LegKnown(s.store, t) && LegKnown(Next(cfg, s, a).store, t) ==>
              && a.InitiateTransfer? && a.t == t && Enabled(s, a)
              && T.Decide(T.Fold(s.store.Transfer(t)), Initiation(a)).Success?
  {
    assert StreamOk(s.store, t);
    if a.Step? {
      assert PcOk(cfg, s.store, s.At(a.w));
      EffectMay(cfg, s.store, s.At(a.w), a.o);
      StepInfo(cfg, s.store, s.At(a.w), Effect(cfg, s.store, s.At(a.w), a.o).0, t);
    } else if a.InitiateTransfer? && Enabled(s, a) {
      InitiateInfo(cfg, s, a, t);
    } else {
      assert Next(cfg, s, a).store.Transfer(t) == s.store.Transfer(t);
    }
  }

  lemma StepInfo(cfg: Config, store: Store, pc: Pc, change: Change, t: string)
    requires PcOk(cfg, store, pc) && May(store, pc, change) && StreamOk(store, t)
    ensures InfoStays(store, Changed(store, change), t)
    ensures !LegKnown(store, t) ==> !LegKnown(Changed(store, change), t)
  {
    ChangeKeepsInfo(cfg, store, pc, change, t);
    if !change.Transferred? || change.t != t {
      assert Changed(store, change).Transfer(t) == store.Transfer(t);
    }
  }

  lemma InitiateInfo(cfg: Config, s: System, a: Action, t: string)
    requires Inv(cfg, s) && a.InitiateTransfer? && Enabled(s, a)
    ensures InfoStays(s.store, Next(cfg, s, a).store, t)
    ensures !LegKnown(s.store, t) && LegKnown(Next(cfg, s, a).store, t) ==>
              a.t == t && T.Decide(T.Fold(s.store.Transfer(t)), Initiation(a)).Success?
  {
    var st := T.Fold(s.store.Transfer(a.t));
    var decision := T.Decide(st, Initiation(a));
    if decision.Success? {
      assert StreamOk(s.store, a.t);
      FirstEvent(a.t, st, Initiation(a), decision.value);
      if LegKnown(s.store, t) {
        LegStays(s.store, a.t, decision.value, t);
      } else if a.t != t {
        assert Next(cfg, s, a).store.Transfer(t) == s.store.Transfer(t);
      }
    }
  }

  // An initiated transfer has just been checked against its accounts.
  lemma InitiatedKnows(cfg: Config, s: System, a: Action)
    requires Inv(cfg, s) && a.InitiateTransfer? && Enabled(s, a) && !LegKnown(s.store, a.t)
    requires T.Decide(T.Fold(s.store.Transfer(a.t)), Initiation(a)).Success?
    ensures PartiesOpened(Next(cfg, s, a).store, a.t)
  {
    var e := T.Decide(T.Fold(s.store.Transfer(a.t)), Initiation(a)).value;
    T.FoldSnoc(s.store.Transfer(a.t), e);
    assert Next(cfg, s, a).store.Account(a.source) == s.store.Account(a.source);
    assert Next(cfg, s, a).store.Account(a.destination) == s.store.Account(a.destination);
    HoldsIff(s.store, a.source, a.currency);
    HoldsIff(s.store, a.destination, a.currency);
  }

  lemma PartiesNext(cfg: Config, s: System, a: Action, t: string)
    requires Inv(cfg, s) && Inv(cfg, Next(cfg, s, a)) && PartiesOpened(s.store, t)
    ensures PartiesOpened(Next(cfg, s, a).store, t)
  {
    InfoNext(cfg, s, a, t);
    var s' := Next(cfg, s, a);
    if LegKnown(s.store, t) {
      var info := T.Fold(s.store.Transfer(t)).info.value;
      AccountsGrow(cfg, s, a, info.source);
      AccountsGrow(cfg, s, a, info.destination);
      OpenedStays(info.source, s.store.Account(info.source), s'.store.Account(info.source), info.currency);
      OpenedStays(info.destination, s.store.Account(info.destination), s'.store.Account(info.destination),
                  info.currency);
    } else if LegKnown(s'.store, t) {
      InitiatedKnows(cfg, s, a);
    }
  }

  lemma {:induction false} PartiesReachable(cfg: Config, schedule: seq<Action>, t: string)
    ensures PartiesOpened(Exec(cfg, schedule).store, t)
    decreases |schedule|
  {
    if schedule != [] {
      var n := |schedule| - 1;
      Reachable(cfg, schedule[..n]);
      Reachable(cfg, schedule);
      PartiesReachable(cfg, schedule[..n], t);
      PartiesNext(cfg, Exec(cfg, schedule[..n]), schedule[n], t);
    }
  }

  // After every schedule each transfer is between two different accounts, both opened in
  // its currency and both existing in it, and of a positive amount.
  lemma TransfersHaveTheirAccounts(cfg: Config, schedule: seq<Action>, t: string)
    ensures var store := Exec(cfg, schedule).store;
            store.Transfer(t) != [] ==>
              && T.Fold(store.Transfer(t)).info.Some?
              && (var info := T.Fold(store.Transfer(t)).info.value;
                  && info.transferId == t && info.source != info.destination && info.amount > 0
                  && (forall id :: id in {info.source, info.destination} ==>
                        && A.Opened(id, store.Account(id), info.currency)
                        && A.Fold(store.Account(id)).accountId == Some(id)
                        && A.Fold(store.Account(id)).currency == Some(info.currency)))
  {
    var store := Exec(cfg, schedule).store;
    if store.Transfer(t) != [] {
      Reachable(cfg, schedule);
      PartiesReachable(cfg, schedule, t);
      StreamsFollowLifecycle(cfg, schedule, t);
      assert StreamOk(store, t);
      var info := T.Fold(store.Transfer(t)).info.value;
      forall id | id in {info.source, info.destination}
        ensures A.Fold(store.Account(id)).accountId == Some(id)
        ensures A.Fold(store.Account(id)).currency == Some(info.currency)
      {
        OpenedIsCreated(store, id, info.currency);
      }
    }
  }

  lemma OpenedIsCreated(store: Store, id: string, currency: string)
    requires AccountOk(store, id) && A.Opened(id, store.Account(id), currency)
    ensures A.Fold(store.Account(id)).accountId == Some(id)
    ensures A.Fold(store.Account(id)).currency == Some(currency)
  {
    HoldsIff(store, id, currency);
    A.AcceptedIsSound(id, store.Account(id));
  }

  // The source was created, in the transfer's currency.
  predicate SourceKnown(store: Store, t: string) {
    LegKnown(store, t) ==>
      var info := T.Fold(store.Transfer(t)).info.value;
      var st := A.Fold(store.Account(info.source));
      st.accountId.Some? && st.currency == Some(info.currency)
  }

  lemma SourceReachable(cfg: Config, schedule: seq<Action>, t: string)
    ensures SourceKnown(Exec(cfg, schedule).store, t)
  {
    TransfersHaveTheirAccounts(cfg, schedule, t);
  }

  // ---- What a request does ----

  // After every schedule, initiating a transfer appends exactly its own event if the id is
  // not empty and unused, the accounts differ and were both opened in the currency, and
  // the amount is a positive one; otherwise it does nothing.
  lemma InitiateDoes(cfg: Config, schedule: seq<Action>, a: Action)
    requires a.InitiateTransfer?
    ensures var s, s' := Exec(cfg, schedule), Exec(cfg, schedule + [a]);
            if && a.t != "" && s.store.Transfer(a.t) == [] && a.source != a.destination
               && a.amount.Some? && a.amount.value > 0
               && A.Opened(a.source, s.store.Account(a.source), a.currency)
               && A.Opened(a.destination, s.store.Account(a.destination), a.currency)
            then s' == System(s.store.(transfers := s.store.transfers[a.t :=
                       [T.TransferInitiated(T.Info(a.t, a.source, a.destination, a.amount.value, a.currency))]]),
                              s.workers)
            else s' == s
  {
    var s := Exec(cfg, schedule);
    assert (schedule + [a])[..|schedule|] == schedule;
    Reachable(cfg, schedule);
    assert StreamOk(s.store, a.t) && AccountOk(s.store, a.source) && AccountOk(s.store, a.destination);
    HoldsIff(s.store, a.source, a.currency);
    HoldsIff(s.store, a.destination, a.currency);
    assert [] + [T.TransferInitiated(T.Info(a.t, a.source, a.destination, a.amount.GetOr(0), a.currency))]
        == [T.TransferInitiated(T.Info(a.t, a.source, a.destination, a.amount.GetOr(0), a.currency))];
  }

  // Opening an account appends exactly its creation if the id is not empty and the account
  // was never created, and does nothing otherwise ...
  lemma CreateDoes(cfg: Config, schedule: seq<Action>, id: string, owner: string, currency: string)
    ensures var s, s' := Exec(cfg, schedule), Exec(cfg, schedule + [CreateAccount(id, owner, currency)]);
            if id != "" && (forall e :: e in s.store.Account(id) ==> !e.AccountCreated?)
            then s' == System(s.store.(accounts := s.store.accounts[id :=
                       s.store.Account(id) + [A.AccountCreated(id, owner, currency)]]), s.workers)
            else s' == s
  {
    var s := Exec(cfg, schedule);
    assert (schedule + [CreateAccount(id, owner, currency)])[..|schedule|] == schedule;
    Reachable(cfg, schedule);
    assert AccountOk(s.store, id);
    HoldsIff(s.store, id, currency);
  }

  // ... and freezing appends exactly the freeze if the id and the reason are not empty and
  // the account is not frozen already.
  lemma FreezeDoes(cfg: Config, schedule: seq<Action>, id: string, reason: string)
    ensures var s, s' := Exec(cfg, schedule), Exec(cfg, schedule + [FreezeAccount(id, reason)]);
            if id != "" && reason != "" && !A.EndsFrozen(s.store.Account(id))
            then s' == System(s.store.(accounts := s.store.accounts[id :=
                       s.store.Account(id) + [A.AccountFrozen(reason)]]), s.workers)
            else s' == s
  {
    var s := Exec(cfg, schedule);
    assert (schedule + [FreezeAccount(id, reason)])[..|schedule|] == schedule;
    A.StreamSays(s.store.Account(id));
  }

  // The account can take the movement a client asks for.
  predicate CanTake(es: seq<A.Event>, input: R.Input) {
    && input.amount.Some? && input.amount.value > 0
    && !A.EndsFrozen(es) && A.OfCurrency(es, input.currency)
    && (input.operation.WithdrawOp? ==> input.amount.value <= A.Deposits(es) - A.Withdrawals(es))
  }

  function EventFor(input: R.Input): A.Event
    requires input.amount.Some?
  {
    match input.operation
    case DepositOp => A.MoneyDeposited(input.amount.value, input.currency, input.transactionId)
    case WithdrawOp => A.MoneyWithdrawn(input.amount.value, input.currency, input.transactionId)
  }

  // A deposit or withdrawal that nothing disturbs. With a new id and a readable amount, it
  // is recorded, and moves exactly what was asked for if the account can take it and
  // nothing otherwise. With a known id or an unreadable amount it does nothing.
  lemma RequestDoes(cfg: Config, schedule: seq<Action>, w: nat, input: R.Input, n: nat)
    requires Exec(cfg, schedule).At(w).Idle? && n >= 4
    ensures var s, s' := Exec(cfg, schedule), Exec(cfg, schedule + [Submit(w, input)] + Steps(w, n));
            var es := s.store.Account(input.account);
            && s'.At(w).Idle? && s'.store.transfers == s.store.transfers
            && (if input.transactionId in s.store.registry || input.amount.None? then s'.store == s.store
                else
                  && s'.store.accounts == (if CanTake(es, input)
                       then s.store.accounts[input.account := es + [EventFor(input)]] else s.store.accounts)
                  && s'.store.registry == s.store.registry[input.transactionId :=
                       R.Record(input.account, input.operation, input.amount.value, input.currency,
                                if CanTake(es, input) then R.Completed else R.FailedTerminal)])
  {
    var s, submitted := Exec(cfg, schedule), schedule + [Submit(w, input)];
    var job := Job(Api, input, input.amount);
    assert submitted[..|schedule|] == schedule;
    var s1 := s.Go(w, Reserving(job));
    assert Exec(cfg, submitted) == s1;
    StepsAfter(cfg, submitted, w, n);
    if input.transactionId in s.store.registry || input.amount.None? {
      ApiNotAdmitted(cfg, s, w, job, n);
    } else if CanTake(s.store.Account(input.account), input) {
      TakeDecides(s.store.Account(input.account), job);
      ApiPass(cfg, s1, w, job, EventFor(input), n);
    } else {
      TakeDecides(s.store.Account(input.account), job);
      ApiRefused(cfg, s1, w, job, n);
    }
  }

  lemma TakeDecides(es: seq<A.Event>, job: Job)
    requires job.input.amount.Some? && job.amount == job.input.amount
    ensures CanTake(es, job.input) ==> A.Decide(A.Fold(es), job.Command()) == Success(EventFor(job.input))
    ensures !CanTake(es, job.input) ==> A.Decide(A.Fold(es), job.Command()).Failure?
  {
    A.StreamSays(es);
    A.BalanceIsNet(es);
  }

  // The registry answers or refuses the call, and its worker is done.
  lemma ApiNotAdmitted(cfg: Config, s: System, w: nat, job: Job, n: nat)
    requires job.owner.Api? && n > 0 && (job.Tx() in s.store.registry || job.input.amount.None?)
    ensures Run(cfg, s.Go(w, Reserving(job)), w, n) == s.Go(w, Idle)
  {
    var s1 := s.Go(w, Reserving(job));
    assert s1.Go(w, Idle) == s.Go(w, Idle);
    assert R.Admit(job.input, R.TryReserve(s.store.registry, job.input), false) != R.Reopen;
    Pass(cfg, s1, w, n, s.Go(w, Idle));
    IdleStays(cfg, s.Go(w, Idle), w, n - 1);
  }

  // The account refuses: only the failed record is left.
  lemma ApiRefused(cfg: Config, s: System, w: nat, job: Job, n: nat)
    requires n >= 4 && s.At(w) == Reserving(job) && job.owner.Api? && job.input.amount.Some?
    requires job.Tx() !in s.store.registry
    requires A.Decide(A.Fold(s.store.Account(job.input.account)), job.Command()).Failure?
    ensures Run(cfg, s, w, n) ==
              System(SetRecord(s.store, job.Tx(), RecordFor(job, R.FailedTerminal)), s.workers).Go(w, Idle)
  {
    var pending, failed := SetRecord(s.store, job.Tx(), RecordFor(job, R.Pending)),
                           SetRecord(s.store, job.Tx(), RecordFor(job, R.FailedTerminal));
    assert pending.Account(job.input.account) == s.store.Account(job.input.account);
    UpToHandlerEnd(cfg, s, w, job, n);
    var s1 := HandlerEnd(System(pending, s.workers), w, job);
    var s2 := System(failed, s.workers).Go(w, Idle);
    assert pending.registry[job.Tx() := RecordFor(job, R.FailedTerminal)] == failed.registry;
    GoTwice(System(failed, s.workers), w, s1.At(w), failed, Idle);
    assert Advance(cfg, s1, w, Done) == s2;
    Pass(cfg, s1, w, n - 3, s2);
    IdleStays(cfg, s2, w, n - 4);
  }
}
