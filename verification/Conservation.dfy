// Money is conserved, currency by currency, after every schedule of the saga in which
// no client submits a leg id.
module Conservation {
  import opened Wrappers
  import opened Sums
  import opened Saga
  import opened SagaBase
  import opened SagaLegs
  import opened SagaInvariant
  import opened SagaTexts
  import A = Accounts
  import T = Transfers
  import R = Registry

  // No client submits an id of any leg.
  ghost predicate NoLegIds(schedule: seq<Action>) {
    forall a :: a in schedule && a.Submit? ==> !IsLegId(a.input.transactionId)
  }

  // What the account holds in this currency.
  ghost function Held(es: seq<A.Event>, currency: string): int {
    if A.Fold(es).currency == Some(currency) then A.Fold(es).balance else 0
  }

  // Deposits less withdrawals that belong to no transfer leg.
  ghost function FromOutside(es: seq<A.Event>, currency: string): int {
    if es == [] then 0
    else FromOutside(es[..|es|-1], currency) + OutsideDelta(es[|es|-1], currency)
  }

  ghost function OutsideDelta(e: A.Event, currency: string): int {
    if e.IsMoney() && e.currency == currency && !IsLegId(e.transactionId) then e.Delta() else 0
  }

  // What one leg of the transfer moves in this currency.
  function LegMoney(cfg: Config, st: T.State, currency: string): int {
    if st.info.Some? && st.info.value.currency == currency then cfg.legAmount(st.info.value.amount).GetOr(0) else 0
  }

  // How many times the leg's amount has been taken more often than given.
  ghost function Owed(store: Store, t: string): int {
    Moves(store.accounts, LegId(t, T.Debit)) - Moves(store.accounts, LegId(t, T.Credit))
    - Moves(store.accounts, LegId(t, T.Compensation))
  }

  // What the transfer has taken from its source and not given to anyone.
  ghost function Net(cfg: Config, store: Store, t: string, currency: string): int {
    LegMoney(cfg, T.Fold(store.Transfer(t)), currency) * Owed(store, t)
  }

  ghost function HeldMap(store: Store, currency: string): map<string, int> {
    map id | id in store.accounts :: Held(store.accounts[id], currency)
  }

  ghost function OutsideMap(store: Store, currency: string): map<string, int> {
    map id | id in store.accounts :: FromOutside(store.accounts[id], currency)
  }

  ghost function Nets(cfg: Config, store: Store, currency: string): string -> int {
    t => Net(cfg, store, t, currency)
  }

  ghost function TotalNet(cfg: Config, store: Store, currency: string): int {
    Total(store.transfers.Keys, Nets(cfg, store, currency))
  }

  // All balances plus what transfers have taken and not given is what came in from outside.
  ghost predicate Balanced(cfg: Config, store: Store, currency: string) {
    Sum(HeldMap(store, currency)) + TotalNet(cfg, store, currency) == Sum(OutsideMap(store, currency))
  }

  // ---- Appending to an account ----

  // The sums with another stream at one account.
  lemma HeldWith(store: Store, store': Store, id: string, es: seq<A.Event>, currency: string)
    requires store'.accounts == store.accounts[id := es]
    ensures Sum(HeldMap(store', currency)) ==
              Sum(HeldMap(store, currency)) + Held(es, currency) - Held(store.Account(id), currency)
  {
    var m := HeldMap(store, currency);
    assert HeldMap(store', currency) == m[id := Held(es, currency)];
    assert Held([], currency) == 0;
    SumUpdate(m, id, Held(es, currency));
  }

  lemma OutsideWith(store: Store, store': Store, id: string, es: seq<A.Event>, currency: string)
    requires store'.accounts == store.accounts[id := es]
    ensures Sum(OutsideMap(store', currency)) ==
              Sum(OutsideMap(store, currency)) + FromOutside(es, currency) - FromOutside(store.Account(id), currency)
  {
    var m := OutsideMap(store, currency);
    assert OutsideMap(store', currency) == m[id := FromOutside(es, currency)];
    assert FromOutside([], currency) == 0;
    SumUpdate(m, id, FromOutside(es, currency));
  }

  lemma HeldAppend(store: Store, id: string, e: A.Event, currency: string)
    ensures Sum(HeldMap(store.AppendAccount(id, e), currency)) ==
              Sum(HeldMap(store, currency))
              + Held(store.Account(id) + [e], currency) - Held(store.Account(id), currency)
  {
    HeldWith(store, store.AppendAccount(id, e), id, store.Account(id) + [e], currency);
  }

  lemma OutsideSnoc(es: seq<A.Event>, e: A.Event, currency: string)
    ensures FromOutside(es + [e], currency) == FromOutside(es, currency) + OutsideDelta(e, currency)
  {
    assert (es + [e])[..|es|] == es;
  }

  lemma OutsideAppend(store: Store, id: string, e: A.Event, currency: string)
    ensures Sum(OutsideMap(store.AppendAccount(id, e), currency))
            == Sum(OutsideMap(store, currency)) + OutsideDelta(e, currency)
  {
    OutsideWith(store, store.AppendAccount(id, e), id, store.Account(id) + [e], currency);
    OutsideSnoc(store.Account(id), e, currency);
  }

  // What an accepted event does to the money its account holds.
  lemma HeldStep(id: string, es: seq<A.Event>, e: A.Event, currency: string)
    requires id != "" && A.Accepted(id, es) && A.Raised(id, A.Fold(es), e)
    ensures Held(es + [e], currency) - Held(es, currency)
            == if e.IsMoney() && e.currency == currency then e.Delta() else 0
  {
    A.AcceptedIsSound(id, es);
    A.FoldSnoc(es, e);
  }

  lemma OwedAppend(store: Store, id: string, e: A.Event, t: string)
    ensures Owed(store.AppendAccount(id, e), t) == Owed(store, t)
              + Hit(e, LegId(t, T.Debit)) - Hit(e, LegId(t, T.Credit)) - Hit(e, LegId(t, T.Compensation))
  {
    MovesAppend(store, id, e, LegId(t, T.Debit));
    MovesAppend(store, id, e, LegId(t, T.Credit));
    MovesAppend(store, id, e, LegId(t, T.Compensation));
  }

  // Only transfer t's own legs change what t has taken.
  lemma NetChange(cfg: Config, store: Store, store': Store, t: string, currency: string)
    requires store'.transfers.Keys == store.transfers.Keys + {t}
    requires forall u :: u in store.transfers && u != t ==>
        Net(cfg, store', u, currency) == Net(cfg, store, u, currency)
    requires t !in store.transfers ==> Net(cfg, store, t, currency) == 0
    ensures TotalNet(cfg, store', currency) ==
              TotalNet(cfg, store, currency) + Net(cfg, store', t, currency) - Net(cfg, store, t, currency)
  {
    TotalChange(store.transfers.Keys, Nets(cfg, store, currency), Nets(cfg, store', currency), t);
  }

  // An event that belongs to no leg comes from outside, or moves no money.
  lemma OutsideEventNet(cfg: Config, store: Store, id: string, e: A.Event, t: string, currency: string)
    requires e.IsMoney() ==> !IsLegId(e.transactionId)
    ensures Net(cfg, store.AppendAccount(id, e), t, currency) == Net(cfg, store, t, currency)
  {
    assert forall leg :: IsLegId(LegId(t, leg));
    OwedAppend(store, id, e, t);
    assert store.AppendAccount(id, e).Transfer(t) == store.Transfer(t);
  }

  lemma OutsideEventBalances(cfg: Config, store: Store, id: string, e: A.Event, currency: string)
    requires Balanced(cfg, store, currency) && AccountOk(store, id) && id != ""
    requires A.Raised(id, A.Fold(store.Account(id)), e)
    requires e.IsMoney() ==> !IsLegId(e.transactionId)
    ensures Balanced(cfg, store.AppendAccount(id, e), currency)
  {
    var store' := store.AppendAccount(id, e);
    HeldStep(id, store.Account(id), e, currency);
    HeldAppend(store, id, e, currency);
    OutsideAppend(store, id, e, currency);
    forall t ensures Net(cfg, store', t, currency) == Net(cfg, store, t, currency) {
      OutsideEventNet(cfg, store, id, e, t, currency);
    }
    TotalSame(store.transfers.Keys, Nets(cfg, store, currency), Nets(cfg, store', currency));
  }

  // What an accepted leg moves.
  lemma LegEvent(cfg: Config, leg: Leg, tx: string, info: T.Info, st: A.State, e: A.Event)
    requires A.Decide(st, LegJob(cfg, leg, tx, info).Command()) == Success(e)
    ensures e.IsMoney() && e.transactionId == tx && e.currency == info.currency
    ensures cfg.legAmount(info.amount).Some?
    ensures e.Delta() == (if leg.Debit? then -cfg.legAmount(info.amount).value else cfg.legAmount(info.amount).value)
  {
  }

  lemma OtherTransfer(t: string, leg: Leg, u: string)
    requires t != u
    ensures forall leg' :: LegId(u, leg') != LegId(t, leg)
  {
    forall leg' ensures LegId(u, leg') != LegId(t, leg) {
      if LegId(u, leg') == LegId(t, leg) {
        LegIdInjective(u, leg', t, leg);
      }
    }
  }

  // A leg's event changes what its transfer has taken by what the balances lose.
  lemma OwnNet(cfg: Config, store: Store, job: Job, e: A.Event, currency: string)
    requires job.owner.TransferLeg? && JobOk(cfg, store, job)
    requires A.Decide(A.Fold(store.Account(job.input.account)), job.Command()) == Success(e)
    ensures Net(cfg, store.AppendAccount(job.input.account, e), job.owner.transferId, currency) ==
              Net(cfg, store, job.owner.transferId, currency) - (if e.currency == currency then e.Delta() else 0)
  {
    var id, t, leg := job.input.account, job.owner.transferId, job.owner.leg;
    var st := T.Fold(store.Transfer(t));
    LegEvent(cfg, leg, LegId(t, leg), st.info.value, A.Fold(store.Account(id)), e);
    OtherLegs(t, leg);
    OwedAppend(store, id, e, t);
    Times(LegMoney(cfg, st, currency), Owed(store, t), if leg.Debit? then 1 else -1);
    assert store.AppendAccount(id, e).Transfer(t) == store.Transfer(t);
  }

  lemma Times(n: int, x: int, d: int)
    requires d == 1 || d == -1
    ensures n * (x + d) == n * x + (if d == 1 then n else -n)
  {
  }

  lemma LegEventNets(cfg: Config, store: Store, job: Job, e: A.Event, currency: string)
    requires job.owner.TransferLeg? && JobOk(cfg, store, job)
    requires A.Decide(A.Fold(store.Account(job.input.account)), job.Command()) == Success(e)
    ensures TotalNet(cfg, store.AppendAccount(job.input.account, e), currency) ==
              TotalNet(cfg, store, currency) - (if e.currency == currency then e.Delta() else 0)
  {
    var id, t, leg := job.input.account, job.owner.transferId, job.owner.leg;
    var store' := store.AppendAccount(id, e);
    MoneyEvent(A.Fold(store.Account(id)), job, e);
    forall u | u != t ensures Net(cfg, store', u, currency) == Net(cfg, store, u, currency) {
      OtherNet(cfg, store, id, e, t, leg, u, currency);
    }
    assert t in store.transfers && store'.transfers.Keys == store.transfers.Keys + {t};
    NetChange(cfg, store, store', t, currency);
    OwnNet(cfg, store, job, e, currency);
  }

  lemma OtherNet(cfg: Config, store: Store, id: string, e: A.Event, t: string, leg: Leg, u: string, currency: string)
    requires e.IsMoney() && e.transactionId == LegId(t, leg) && u != t
    ensures Net(cfg, store.AppendAccount(id, e), u, currency) == Net(cfg, store, u, currency)
  {
    OtherTransfer(t, leg, u);
    OwedAppend(store, id, e, u);
    assert store.AppendAccount(id, e).Transfer(u) == store.Transfer(u);
  }

  lemma LegEventBalances(cfg: Config, store: Store, job: Job, e: A.Event, currency: string)
    requires Balanced(cfg, store, currency) && AccountOk(store, job.input.account)
    requires job.owner.TransferLeg? && JobOk(cfg, store, job)
    requires A.Decide(A.Fold(store.Account(job.input.account)), job.Command()) == Success(e)
    ensures Balanced(cfg, store.AppendAccount(job.input.account, e), currency)
  {
    var id := job.input.account;
    MoneyEvent(A.Fold(store.Account(id)), job, e);
    assert A.Raised(id, A.Fold(store.Account(id)), e);
    HeldStep(id, store.Account(id), e, currency);
    HeldAppend(store, id, e, currency);
    assert IsLegId(LegId(job.owner.transferId, job.owner.leg));
    OutsideAppend(store, id, e, currency);
    LegEventNets(cfg, store, job, e, currency);
  }

  // ---- Appending to a transfer ----

  // A transfer's own events change neither what a leg moves nor how often it has moved.
  lemma TransferEventBalances(cfg: Config, store: Store, t: string, e: T.Event, currency: string)
    requires Balanced(cfg, store, currency)
    requires T.When(T.Fold(store.Transfer(t)), e).info == T.Fold(store.Transfer(t)).info || Owed(store, t) == 0
    ensures Balanced(cfg, store.AppendTransfer(t, e), currency)
  {
    var store' := store.AppendTransfer(t, e);
    assert HeldMap(store', currency) == HeldMap(store, currency);
    assert OutsideMap(store', currency) == OutsideMap(store, currency);
    forall u ensures Net(cfg, store', u, currency) == Net(cfg, store, u, currency) {
      TransferEventNet(cfg, store, t, e, u, currency);
    }
    TransferEventKeys(cfg, store, t, e, currency);
    NetChange(cfg, store, store', t, currency);
  }

  lemma TransferEventKeys(cfg: Config, store: Store, t: string, e: T.Event, currency: string)
    ensures store.AppendTransfer(t, e).transfers.Keys == store.transfers.Keys + {t}
    ensures t !in store.transfers ==> Net(cfg, store, t, currency) == 0
  {
    assert t !in store.transfers ==> store.Transfer(t) == [];
  }

  lemma TransferEventNet(cfg: Config, store: Store, t: string, e: T.Event, u: string, currency: string)
    requires T.When(T.Fold(store.Transfer(t)), e).info == T.Fold(store.Transfer(t)).info || Owed(store, t) == 0
    ensures Net(cfg, store.AppendTransfer(t, e), u, currency) == Net(cfg, store, u, currency)
  {
    var store' := store.AppendTransfer(t, e);
    assert Owed(store', u) == Owed(store, u);
    if u == t {
      T.FoldSnoc(store.Transfer(t), e);
    } else {
      assert store'.Transfer(u) == store.Transfer(u);
    }
  }

  // ---- The steps ----

  // A step that only touches the registry or a worker.
  lemma SameStreamsBalance(cfg: Config, store: Store, store': Store, currency: string)
    requires Balanced(cfg, store, currency)
    requires store'.accounts == store.accounts && store'.transfers == store.transfers
    ensures Balanced(cfg, store', currency)
  {
    forall t ensures Net(cfg, store', t, currency) == Net(cfg, store, t, currency) {
      SameStreamsNet(cfg, store, store', t, currency);
    }
    TotalSame(store.transfers.Keys, Nets(cfg, store, currency), Nets(cfg, store', currency));
  }

  lemma SameStreamsNet(cfg: Config, store: Store, store': Store, t: string, currency: string)
    requires store'.accounts == store.accounts && store'.transfers == store.transfers
    ensures Net(cfg, store', t, currency) == Net(cfg, store, t, currency)
  {
    assert store'.Transfer(t) == store.Transfer(t);
  }

  // An API job's id is no leg id when every leg's jobs are its own.
  lemma ApiJob(pc: Pc)
    requires JobAt(pc).Some? && JobAt(pc).value.owner.Api? && forall t :: OwnPc(pc, t)
    ensures !IsLegId(JobAt(pc).value.Tx())
  {
    forall t, leg ensures JobAt(pc).value.Tx() != LegId(t, leg) { assert OwnPc(pc, t); }
  }

  lemma ChangeBalances(cfg: Config, store: Store, pc: Pc, change: Change, currency: string)
    requires StoreOk(store) && PcOk(cfg, store, pc) && May(store, pc, change) && forall t :: OwnPc(pc, t)
    requires Balanced(cfg, store, currency)
    ensures Balanced(cfg, Changed(store, change), currency)
  {
    match change
    case Nothing =>
    case Moved(id, e) =>
      assert AccountOk(store, id);
      MoneyEvent(A.Fold(store.Account(id)), pc.job, e);
      assert A.Raised(id, A.Fold(store.Account(id)), e);
      if pc.job.owner.Api? {
        ApiJob(pc);
        OutsideEventBalances(cfg, store, id, e, currency);
      } else {
        LegEventBalances(cfg, store, pc.job, e, currency);
      }
    case Transferred(t, e) =>
      EventKeepsState(t, T.Fold(store.Transfer(t)), TransferCommand(pc).value, e);
      TransferEventBalances(cfg, store, t, e, currency);
    case Recorded(_, _) => SameStreamsBalance(cfg, store, Changed(store, change), currency);
  }

  lemma AdvanceBalances(cfg: Config, s: System, w: nat, o: Outcome, currency: string)
    requires Inv(cfg, s) && (forall t :: Own(cfg, s, t)) && Balanced(cfg, s.store, currency)
    ensures Balanced(cfg, Advance(cfg, s, w, o).store, currency)
  {
    var pc := s.At(w);
    assert PcOk(cfg, s.store, pc);
    forall t ensures OwnPc(pc, t) { assert Own(cfg, s, t); }
    EffectMay(cfg, s.store, pc, o);
    ChangeBalances(cfg, s.store, pc, Effect(cfg, s.store, pc, o).0, currency);
  }

  // A transfer that is not initiated yet has moved nothing.
  lemma BlankHasMovedNothing(cfg: Config, store: Store, t: string)
    requires (forall leg :: LegRecord(cfg, store, t, leg)) && !LegKnown(store, t) && forall tx :: RecordOk(store, tx)
    ensures Owed(store, t) == 0
  {
    assert LegRecord(cfg, store, t, T.Debit) && LegRecord(cfg, store, t, T.Credit)
        && LegRecord(cfg, store, t, T.Compensation);
    assert RecordOk(store, LegId(t, T.Debit)) && RecordOk(store, LegId(t, T.Credit))
           && RecordOk(store, LegId(t, T.Compensation));
  }

  lemma InitiateBalances(cfg: Config, s: System, a: Action, currency: string)
    requires a.InitiateTransfer? && Enabled(s, a)
    requires Inv(cfg, s) && Own(cfg, s, a.t) && Balanced(cfg, s.store, currency)
    ensures Balanced(cfg, Next(cfg, s, a).store, currency)
  {
    var st := T.Fold(s.store.Transfer(a.t));
    var decision := T.Decide(st, Initiation(a));
    if decision.Success? {
      assert StreamOk(s.store, a.t);
      FirstEvent(a.t, st, Initiation(a), decision.value);
      BlankHasMovedNothing(cfg, s.store, a.t);
      TransferEventBalances(cfg, s.store, a.t, decision.value, currency);
    }
  }

  lemma CommandBalances(cfg: Config, s: System, id: string, cmd: A.Command, currency: string)
    requires AccountOk(s.store, id) && Balanced(cfg, s.store, currency)
    requires id != "" && A.AddressedTo(id, cmd) && (cmd.Create? || cmd.Freeze?)
    ensures Balanced(cfg, AccountCommand(s, id, cmd).store, currency)
  {
    var decision := A.Decide(A.Fold(s.store.Account(id)), cmd);
    if decision.Success? {
      assert A.Raised(id, A.Fold(s.store.Account(id)), decision.value);
      OutsideEventBalances(cfg, s.store, id, decision.value, currency);
    }
  }

  lemma NextBalances(cfg: Config, s: System, a: Action, currency: string)
    requires Inv(cfg, s) && (forall t :: Own(cfg, s, t)) && Balanced(cfg, s.store, currency)
    ensures Balanced(cfg, Next(cfg, s, a).store, currency)
  {
    if Enabled(s, a) {
      match a
      case Step(w, o) => AdvanceBalances(cfg, s, w, o, currency);
      case CreateAccount(id, owner, c) =>
        assert AccountOk(s.store, id);
        CommandBalances(cfg, s, id, A.Create(id, owner, c), currency);
      case FreezeAccount(id, reason) =>
        assert AccountOk(s.store, id);
        CommandBalances(cfg, s, id, A.Freeze(reason), currency);
      case InitiateTransfer(_, _, _, _, _) => InitiateBalances(cfg, s, a, currency);
      case _ =>
    }
  }

  lemma UnusedByAll(schedule: seq<Action>, t: string)
    requires NoLegIds(schedule)
    ensures LegIdsUnused(schedule, t)
  {
    forall a | a in schedule ensures Foreign(a, t) {
      if a.Submit? {
        assert forall leg :: a.input.transactionId == LegId(t, leg) ==> IsLegId(a.input.transactionId);
      }
    }
  }

  // The books balance in every currency, whatever errors look like: the balances of
  // all accounts, plus each transfer's amount times its debits less its credits and
  // reversals, equal the deposits less the withdrawals that belong to no leg.
  lemma {:induction false} BooksBalance(cfg: Config, schedule: seq<Action>, currency: string)
    requires NoLegIds(schedule)
    ensures Balanced(cfg, Exec(cfg, schedule).store, currency)
    decreases |schedule|
  {
    if schedule == [] {
      assert HeldMap(START.store, currency) == map[];
      assert OutsideMap(START.store, currency) == map[];
      assert (map t | t in START.store.transfers.Keys :: Nets(cfg, START.store, currency)(t)) == map[];
    } else {
      var n := |schedule| - 1;
      Reachable(cfg, schedule[..n]);
      forall t ensures Own(cfg, Exec(cfg, schedule[..n]), t) {
        UnusedByAll(schedule[..n], t);
        OwnReachable(cfg, schedule[..n], t);
      }
      BooksBalance(cfg, schedule[..n], currency);
      NextBalances(cfg, Exec(cfg, schedule[..n]), schedule[n], currency);
    }
  }

  // ---- What is in flight when status and money agree ----

  // What the transfer has in flight: it is debited, and neither credited nor reversed.
  ghost function InFlight(cfg: Config, store: Store, t: string, currency: string): int {
    if Moves(store.accounts, LegId(t, T.Debit)) == 1 && Moves(store.accounts, LegId(t, T.Credit)) == 0
       && Moves(store.accounts, LegId(t, T.Compensation)) == 0
    then LegMoney(cfg, T.Fold(store.Transfer(t)), currency) else 0
  }

  ghost function Flights(cfg: Config, store: Store, currency: string): string -> int {
    t => InFlight(cfg, store, t, currency)
  }

  ghost function TotalInFlight(cfg: Config, store: Store, currency: string): int {
    Total(store.transfers.Keys, Flights(cfg, store, currency))
  }

  // Each leg's amount is given at most once for the one time it is taken.
  lemma TakenIsFlying(st: T.State, debits: int, credits: int, reversals: int, debitClosed: bool, creditClosed: bool)
    requires Tally(st, debits, credits, reversals, debitClosed, creditClosed)
    ensures debits - credits - reversals == if debits == 1 && credits == 0 && reversals == 0 then 1 else 0
  {
  }

  lemma OnceOrNever(n: int, x: int)
    ensures (x == 1 ==> n * x == n) && (x == 0 ==> n * x == 0)
  {
  }

  lemma NetIsInFlight(cfg: Config, store: Store, t: string, currency: string)
    requires AgreementOk(store, t)
    ensures Net(cfg, store, t, currency) == InFlight(cfg, store, t, currency)
  {
    OnceOrNever(LegMoney(cfg, T.Fold(store.Transfer(t)), currency), Owed(store, t));
    TakenIsFlying(T.Fold(store.Transfer(t)), Moves(store.accounts, LegId(t, T.Debit)),
                  Moves(store.accounts, LegId(t, T.Credit)), Moves(store.accounts, LegId(t, T.Compensation)),
                  Open(store, LegId(t, T.Debit), R.FailedTerminal), Open(store, LegId(t, T.Credit), R.FailedTerminal));
  }

  // After every schedule in which no client submits a leg id and neither a transfer id
  // nor an error of the infrastructure contains one of the four phrases: the balances
  // of all accounts plus what is in flight equal the external deposits less the
  // external withdrawals.
  lemma MoneyIsConserved(cfg: Config, schedule: seq<Action>, currency: string)
    requires AsCoded(cfg) && NoLegIds(schedule) && PlainErrors(schedule)
    requires forall t :: t in Exec(cfg, schedule).store.transfers ==> NoPhrase(t)
    ensures var store := Exec(cfg, schedule).store;
            Sum(HeldMap(store, currency)) + TotalInFlight(cfg, store, currency) == Sum(OutsideMap(store, currency))
  {
    var store := Exec(cfg, schedule).store;
    BooksBalance(cfg, schedule, currency);
    forall t | t in store.transfers ensures Flights(cfg, store, currency)(t) == Nets(cfg, store, currency)(t) {
      UnusedByAll(schedule, t);
      TameIff(cfg, t);
      PlainErrorsAreCalm(cfg, schedule);
      AgreementReachable(cfg, schedule, t);
      NetIsInFlight(cfg, store, t, currency);
    }
    TotalSame(store.transfers.Keys, Nets(cfg, store, currency), Flights(cfg, store, currency));
  }
}
