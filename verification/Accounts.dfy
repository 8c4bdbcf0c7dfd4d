// The account stream: its events, the guards of the four commands and the state
// that replaying a stream gives.
//
// Amounts are minor units. The stored events carry them as canonical money text;
// Money.ParseFormat shows that the text and the number determine each other.
module Accounts {
  import opened Wrappers

  datatype Status = Active | Frozen

  datatype Event =
    | AccountCreated(accountId: string, ownerId: string, currency: string)
    | MoneyDeposited(amount: int, currency: string, transactionId: string)
    | MoneyWithdrawn(amount: int, currency: string, transactionId: string)
    | AccountFrozen(reason: string)
  {
    predicate IsMoney() { MoneyDeposited? || MoneyWithdrawn? }

    // What the event adds to the balance.
    function Delta(): int {
      match this
      case MoneyDeposited(n, _, _) => n
      case MoneyWithdrawn(n, _, _) => -n
      case _ => 0
    }
  }

  datatype State = State(
    accountId: Option<string>, ownerId: Option<string>, currency: Option<string>,
    status: Status, balance: int, version: nat)
  {
    // `if (this.accountId)`: an empty identifier counts as missing.
    predicate Exists() { accountId.Some? && accountId.value != "" }
  }

  const BLANK := State(None, None, None, Active, 0, 0)

  // An amount is None when its text is not a money amount.
  datatype Command =
    | Create(accountId: string, ownerId: string, currency: string)
    | Deposit(amount: Option<int>, currency: string, transactionId: string)
    | Withdraw(amount: Option<int>, currency: string, transactionId: string)
    | Freeze(reason: string)

  datatype Error =
    | AlreadyExists | NotActive | CurrencyMismatch | InvalidMoney
    | NotPositive | InsufficientFunds | ReasonRequired | AlreadyFrozen

  // The guards shared by deposit and withdraw, in the order they run.
  function MoneyGuard(st: State, amount: Option<int>, currency: string): Option<Error> {
    if st.status != Active then Some(NotActive)
    else if st.currency != Some(currency) then Some(CurrencyMismatch)
    else if amount.None? then Some(InvalidMoney)
    else if amount.value <= 0 then Some(NotPositive)
    else None
  }

  function Decide(st: State, cmd: Command): Result<Event, Error> {
    match cmd
    case Create(id, owner, currency) =>
      if st.Exists() then Failure(AlreadyExists) else Success(AccountCreated(id, owner, currency))
    case Deposit(amount, currency, tx) =>
      var rejected := MoneyGuard(st, amount, currency);
      if rejected.Some? then Failure(rejected.value)
      else Success(MoneyDeposited(amount.value, currency, tx))
    case Withdraw(amount, currency, tx) =>
      var rejected := MoneyGuard(st, amount, currency);
      if rejected.Some? then Failure(rejected.value)
      else if st.balance < amount.value then Failure(InsufficientFunds)
      else Success(MoneyWithdrawn(amount.value, currency, tx))
    case Freeze(reason) =>
      if reason == "" then Failure(ReasonRequired)
      else if st.status == Frozen then Failure(AlreadyFrozen)
      else Success(AccountFrozen(reason))
  }

  function When(st: State, e: Event): State {
    var next := st.(version := st.version + 1);
    match e
    case AccountCreated(id, owner, currency) =>
      next.(accountId := Some(id), ownerId := Some(owner), currency := Some(currency), status := Active)
    case MoneyDeposited(n, _, _) => next.(balance := st.balance + n)
    case MoneyWithdrawn(n, _, _) => next.(balance := st.balance - n)
    case AccountFrozen(_) => next.(status := Frozen)
  }

  // `loadFromHistory` on an aggregate in state st.
  function Replay(st: State, es: seq<Event>): (r: State)
    ensures r.version == st.version + |es|
  {
    if es == [] then st else When(Replay(st, es[..|es|-1]), es[|es|-1])
  }

  function Fold(es: seq<Event>): (r: State)
    ensures r.version == |es|
  {
    Replay(BLANK, es)
  }

  lemma FoldSnoc(es: seq<Event>, e: Event)
    ensures Fold(es + [e]) == When(Fold(es), e)
  {
    assert (es + [e])[..|es|] == es;
  }

  // Replaying a prefix and then the rest is replaying everything.
  lemma {:induction false} ReplaySplit(st: State, es: seq<Event>, k: nat)
    requires k <= |es|
    ensures Replay(Replay(st, es[..k]), es[k..]) == Replay(st, es)
    decreases |es|
  {
    var n := |es|;
    if k == n {
      assert es[..k] == es;
    } else {
      ReplaySplit(st, es[..n-1], k);
      assert es[..n-1][..k] == es[..k];
      assert es[..n-1][k..] == es[k..][..n-1-k];
    }
  }

  // ---- Histories made of accepted commands ----

  // A command addressed to the account id: only creation names an account.
  predicate AddressedTo(id: string, cmd: Command) { cmd.Create? ==> cmd.accountId == id }

  // Some command addressed to id is accepted in state st and raises e.
  ghost predicate Raised(id: string, st: State, e: Event) {
    exists cmd :: AddressedTo(id, cmd) && Decide(st, cmd) == Success(e)
  }

  // A history built by accepted commands only, one event at a time.
  ghost predicate Accepted(id: string, es: seq<Event>) {
    es == [] || (Accepted(id, es[..|es|-1]) && Raised(id, Fold(es[..|es|-1]), es[|es|-1]))
  }

  lemma AcceptedSnoc(id: string, es: seq<Event>, e: Event)
    requires Accepted(id, es) && Raised(id, Fold(es), e)
    ensures Accepted(id, es + [e])
  {
    assert (es + [e])[..|es|] == es;
  }

  // Every event of an accepted history was accepted by the guards on exactly the
  // fold of the events before it, and every prefix is an accepted history.
  lemma {:induction false} AcceptedAt(id: string, es: seq<Event>, v: nat)
    requires Accepted(id, es) && v <= |es|
    ensures Accepted(id, es[..v])
    ensures v < |es| ==> Raised(id, Fold(es[..v]), es[v])
    decreases |es|
  {
    if v == |es| {
      assert es[..v] == es;
    } else if v < |es| - 1 {
      AcceptedAt(id, es[..|es|-1], v);
      assert es[..|es|-1][..v] == es[..v];
    }
  }

  // What replaying an accepted history of account id always gives.
  ghost predicate Sound(id: string, st: State) {
    && st.balance >= 0
    && (st.accountId.Some? <==> st.currency.Some?)
    && (st.accountId.Some? <==> st.ownerId.Some?)
    && (st.accountId.Some? ==> st.accountId.value == id)
    && (st.accountId.None? ==> st.balance == 0)
  }

  lemma {:induction false} AcceptedIsSound(id: string, es: seq<Event>)
    requires Accepted(id, es)
    ensures Sound(id, Fold(es))
    decreases |es|
  {
    if es != [] {
      AcceptedIsSound(id, es[..|es|-1]);
    }
  }

  function Deposits(es: seq<Event>): int {
    if es == [] then 0
    else Deposits(es[..|es|-1]) + (if es[|es|-1].MoneyDeposited? then es[|es|-1].amount else 0)
  }

  function Withdrawals(es: seq<Event>): int {
    if es == [] then 0
    else Withdrawals(es[..|es|-1]) + (if es[|es|-1].MoneyWithdrawn? then es[|es|-1].amount else 0)
  }

  lemma {:induction false} BalanceIsNet(es: seq<Event>)
    ensures Fold(es).balance == Deposits(es) - Withdrawals(es)
    decreases |es|
  {
    if es != [] {
      BalanceIsNet(es[..|es|-1]);
    }
  }

  // At every prefix of an accepted history the balance is what came in less what
  // went out, every amount moved is positive, and the balance is never negative.
  lemma LedgerNeverOverdrawn(id: string, es: seq<Event>, k: nat)
    requires Accepted(id, es) && k <= |es|
    ensures Fold(es[..k]).balance == Deposits(es[..k]) - Withdrawals(es[..k]) >= 0
    ensures k < |es| && es[k].IsMoney() ==> es[k].amount > 0
    ensures k < |es| && es[k].MoneyWithdrawn? ==> es[k].amount <= Fold(es[..k]).balance
  {
    AcceptedAt(id, es, k);
    AcceptedIsSound(id, es[..k]);
    BalanceIsNet(es[..k]);
  }

  // An existing account accepts no second creation.
  lemma ExistsStays(id: string, st: State, e: Event)
    requires st.Exists() && Raised(id, st, e)
    ensures !e.AccountCreated?
    ensures When(st, e).accountId == st.accountId && When(st, e).currency == st.currency
    ensures When(st, e).ownerId == st.ownerId
  {
    var cmd :| AddressedTo(id, cmd) && Decide(st, cmd) == Success(e);
  }

  // Once set, identity and currency never change.
  lemma {:induction false} IdentityIsFixed(id: string, es: seq<Event>, k: nat)
    requires id != "" && Accepted(id, es) && k <= |es|
    requires Fold(es[..k]).accountId.Some?
    ensures Fold(es).accountId == Fold(es[..k]).accountId == Some(id)
    ensures Fold(es).currency == Fold(es[..k]).currency
    ensures Fold(es).ownerId == Fold(es[..k]).ownerId
    decreases |es|
  {
    if k == |es| {
      assert es[..k] == es;
      AcceptedIsSound(id, es);
    } else {
      assert es[..|es|-1][..k] == es[..k];
      IdentityIsFixed(id, es[..|es|-1], k);
      ExistsStays(id, Fold(es[..|es|-1]), es[|es|-1]);
    }
  }

  // Money only ever moves in the account's own currency, and not before it has one.
  lemma {:induction false} MoneyInOwnCurrency(id: string, es: seq<Event>, v: nat)
    requires id != "" && Accepted(id, es) && v < |es| && es[v].IsMoney()
    ensures Fold(es).currency == Some(es[v].currency)
    decreases |es|
  {
    var n := |es| - 1;
    AcceptedIsSound(id, es[..n]);
    if v < n {
      MoneyInOwnCurrency(id, es[..n], v);
    }
  }

  // A frozen account accepts nothing more exactly when it had been created; a
  // stream that starts with AccountFrozen can still be created and is then active.
  lemma FrozenIsFinal(id: string, es: seq<Event>)
    requires id != "" && Accepted(id, es) && Fold(es).status == Frozen
    ensures Fold(es).accountId.Some? <==> (forall e :: !Raised(id, Fold(es), e))
    ensures Fold(es).accountId.None? ==>
              forall owner, currency :: Fold(es + [AccountCreated(id, owner, currency)]).status == Active
  {
    AcceptedIsSound(id, es);
    if Fold(es).accountId.None? {
      assert Decide(Fold(es), Create(id, "o", "c")) == Success(AccountCreated(id, "o", "c"));
      assert Raised(id, Fold(es), AccountCreated(id, "o", "c"));
      forall owner, currency
        ensures Fold(es + [AccountCreated(id, owner, currency)]).status == Active
      {
        FoldSnoc(es, AccountCreated(id, owner, currency));
      }
    }
  }

  // The freeze guard does not ask whether the account exists.
  lemma FreezeBeforeCreate(id: string, owner: string, currency: string, reason: string)
    requires id != "" && reason != ""
    ensures Accepted(id, [AccountFrozen(reason), AccountCreated(id, owner, currency)])
    ensures Fold([AccountFrozen(reason)]).status == Frozen
  {
    var f := AccountFrozen(reason);
    var c := AccountCreated(id, owner, currency);
    assert Decide(Fold([]), Freeze(reason)) == Success(f);
    AcceptedSnoc(id, [], f);
    assert [] + [f] == [f];
    FoldSnoc([], f);
    assert Decide(Fold([f]), Create(id, owner, currency)) == Success(c);
    AcceptedSnoc(id, [f], c);
    assert [f] + [c] == [f, c];
  }

  // ---- What a stream says, event by event ----

  // The last AccountCreated of the stream.
  function Creation(es: seq<Event>): (r: Option<Event>)
    ensures r.Some? ==> r.value.AccountCreated? && r.value in es
  {
    if es == [] then None
    else if es[|es|-1].AccountCreated? then Some(es[|es|-1])
    else Creation(es[..|es|-1])
  }

  // There is an AccountFrozen and no AccountCreated after it.
  predicate EndsFrozen(es: seq<Event>) {
    es != [] && (es[|es|-1].AccountFrozen? || (!es[|es|-1].AccountCreated? && EndsFrozen(es[..|es|-1])))
  }

  // Identity, owner and currency are those of the last creation; the account is frozen
  // exactly when it was not created after the last freeze.
  lemma {:induction false} StreamSays(es: seq<Event>)
    ensures Fold(es).accountId == (if Creation(es).Some? then Some(Creation(es).value.accountId) else None)
    ensures Creation(es).Some? ==>
              && Fold(es).ownerId == Some(Creation(es).value.ownerId)
              && Fold(es).currency == Some(Creation(es).value.currency)
    ensures Creation(es).None? ==> Fold(es).ownerId == Fold(es).currency == None
    ensures Fold(es).status == if EndsFrozen(es) then Frozen else Active
    decreases |es|
  {
    if es != [] {
      StreamSays(es[..|es|-1]);
    }
  }

  // The stream holds an AccountCreated of this account in this currency.
  ghost predicate Opened(id: string, es: seq<Event>, currency: string) {
    exists i: nat, owner :: i < |es| && es[i] == AccountCreated(id, owner, currency)
  }

  // An accepted history replays to an existing account of a currency exactly when it
  // holds its creation in that currency.
  lemma OpenedIff(id: string, es: seq<Event>, currency: string)
    requires id != "" && Accepted(id, es)
    ensures Fold(es).Exists() && Fold(es).currency == Some(currency) <==> Opened(id, es, currency)
    ensures Fold(es).Exists() <==> exists e :: e in es && e.AccountCreated?
  {
    StreamSays(es);
    AcceptedIsSound(id, es);
    if Creation(es).Some? {
      var i :| 0 <= i < |es| && es[i] == Creation(es).value;
      assert es[i] == AccountCreated(id, es[i].ownerId, es[i].currency);
    }
    forall e | e in es && e.AccountCreated?
      ensures Fold(es).Exists() && Fold(es).currency == Some(e.currency)
    {
      var i :| 0 <= i < |es| && es[i] == e;
      CreatedAt(id, es, i);
    }
  }

  lemma CreatedAt(id: string, es: seq<Event>, i: nat)
    requires id != "" && Accepted(id, es) && i < |es| && es[i].AccountCreated?
    ensures Fold(es).accountId == Some(id) && Fold(es).currency == Some(es[i].currency)
  {
    AcceptedAt(id, es, i);
    AcceptedAt(id, es, i + 1);
    assert es[..i+1][..i] == es[..i];
    IdentityIsFixed(id, es, i + 1);
  }

  // ---- What is refused, reason by reason ----

  function AmountOf(cmd: Command): Option<int> {
    match cmd
    case Deposit(amount, _, _) => amount
    case Withdraw(amount, _, _) => amount
    case _ => None
  }

  predicate MovesMoney(cmd: Command) { cmd.Deposit? || cmd.Withdraw? }

  // The reason applies to the command after these events, and none that is tested
  // before it does.
  predicate Refused(es: seq<Event>, cmd: Command, why: Error) {
    match why
    case AlreadyExists => cmd.Create? && Creation(es).Some? && Creation(es).value.accountId != ""
    case NotActive => MovesMoney(cmd) && EndsFrozen(es)
    case CurrencyMismatch => MovesMoney(cmd) && !EndsFrozen(es) && !OfCurrency(es, cmd.currency)
    case InvalidMoney =>
      MovesMoney(cmd) && !EndsFrozen(es) && OfCurrency(es, cmd.currency) && AmountOf(cmd).None?
    case NotPositive =>
      && MovesMoney(cmd) && !EndsFrozen(es) && OfCurrency(es, cmd.currency)
      && AmountOf(cmd).Some? && AmountOf(cmd).value <= 0
    case InsufficientFunds =>
      && cmd.Withdraw? && !EndsFrozen(es) && OfCurrency(es, cmd.currency)
      && AmountOf(cmd).Some? && 0 < AmountOf(cmd).value && Deposits(es) - Withdrawals(es) < AmountOf(cmd).value
    case ReasonRequired => cmd.Freeze? && cmd.reason == ""
    case AlreadyFrozen => cmd.Freeze? && cmd.reason != "" && EndsFrozen(es)
  }

  predicate OfCurrency(es: seq<Event>, currency: string) {
    Creation(es).Some? && Creation(es).value.currency == currency
  }

  // The event a command is for.
  predicate Fulfils(cmd: Command, e: Event) {
    match e
    case AccountCreated(id, owner, currency) =>
      cmd.Create? && cmd.accountId == id && cmd.ownerId == owner && cmd.currency == currency
    case MoneyDeposited(n, currency, tx) =>
      cmd.Deposit? && cmd.amount == Some(n) && cmd.currency == currency && cmd.transactionId == tx
    case MoneyWithdrawn(n, currency, tx) =>
      cmd.Withdraw? && cmd.amount == Some(n) && cmd.currency == currency && cmd.transactionId == tx
    case AccountFrozen(reason) => cmd.Freeze? && cmd.reason == reason
  }

  // A command on a stream is refused for a reason exactly when the events of the stream
  // give that reason, and otherwise raises its own event.
  lemma RefusedIff(es: seq<Event>, cmd: Command, why: Error)
    ensures Decide(Fold(es), cmd) == Failure(why) <==> Refused(es, cmd, why)
    ensures Decide(Fold(es), cmd).Success? ==> Fulfils(cmd, Decide(Fold(es), cmd).value)
  {
    StreamSays(es);
    BalanceIsNet(es);
  }
}
