// The account aggregate as the source has it: fields that commands and replay
// update in place, and the buffer of events not yet stored.
module AccountAggregates {
  import opened Wrappers
  import A = Accounts
  import Money

  // An event with the stream version it was raised or stored with.
  datatype Recorded = Recorded(version: nat, event: A.Event)

  function Bodies(es: seq<Recorded>): (r: seq<A.Event>)
    ensures |r| == |es|
    ensures forall i :: 0 <= i < |es| ==> r[i] == es[i].event
  {
    seq(|es|, i requires 0 <= i < |es| => es[i].event)
  }

  // The events of a stream after version `from`, with their versions.
  function Tail(stream: seq<A.Event>, from: nat): seq<Recorded>
    requires from <= |stream|
  {
    seq(|stream| - from, i requires 0 <= i < |stream| - from => Recorded(from + i + 1, stream[from + i]))
  }

  // What getSnapshotState keeps; the version travels beside it.
  datatype SnapshotState = SnapshotState(
    accountId: Option<string>, ownerId: Option<string>, currency: Option<string>, status: A.Status, balance: int)

  function Restored(s: SnapshotState, version: nat): A.State {
    A.State(s.accountId, s.ownerId, s.currency, s.status, s.balance, version)
  }

  // A command either raises the event its guards allow, stamped with the next
  // version, or changes nothing and reports the guard that refused.
  predicate Decided(cmd: A.Command, before: A.State, buffer: seq<Recorded>,
                    r: Result<(), A.Error>, after: A.State, bufferAfter: seq<Recorded>)
  {
    match A.Decide(before, cmd)
    case Success(e) =>
      r == Success(()) && after == A.When(before, e) && bufferAfter == buffer + [Recorded(before.version + 1, e)]
    case Failure(why) => r == Failure(why) && after == before && bufferAfter == buffer
  }

  class AccountAggregate {
    var accountId: Option<string>
    var ownerId: Option<string>
    var currency: Option<string>
    var status: A.Status
    var balanceMinorUnits: int
    var version: nat
    var uncommittedEvents: seq<Recorded>

    function Current(): A.State
      reads this
    {
      A.State(accountId, ownerId, currency, status, balanceMinorUnits, version)
    }

    constructor ()
      ensures Current() == A.BLANK && uncommittedEvents == []
    {
      accountId, ownerId, currency := None, None, None;
      status, balanceMinorUnits, version := A.Active, 0, 0;
      uncommittedEvents := [];
    }

    method When(e: Recorded)
      modifies this
      ensures Current() == A.When(old(Current()), e.event).(version := e.version)
      ensures uncommittedEvents == old(uncommittedEvents)
    {
      version := e.version;
      match e.event {
        case AccountCreated(id, owner, c) =>
          accountId, ownerId, currency := Some(id), Some(owner), Some(c);
          status := A.Active;
        case MoneyDeposited(n, _, _) => balanceMinorUnits := balanceMinorUnits + n;
        case MoneyWithdrawn(n, _, _) => balanceMinorUnits := balanceMinorUnits - n;
        case AccountFrozen(_) => status := A.Frozen;
      }
    }

    method Apply(e: Recorded, isFromHistory: bool)
      modifies this
      ensures Current() == A.When(old(Current()), e.event).(version := e.version)
      ensures uncommittedEvents == old(uncommittedEvents) + (if isFromHistory then [] else [e])
    {
      When(e);
      if !isFromHistory {
        uncommittedEvents := uncommittedEvents + [e];
      }
    }

    // Replaying stored events gives the fold of their bodies and takes the version
    // of the last one; nothing becomes uncommitted.
    method LoadFromHistory(events: seq<Recorded>)
      modifies this
      ensures Current() == A.Replay(old(Current()), Bodies(events))
                             .(version := if events == [] then old(version) else events[|events|-1].version)
      ensures uncommittedEvents == old(uncommittedEvents)
    {
      ghost var start := Current();
      for i := 0 to |events|
        invariant Current() == A.Replay(start, Bodies(events)[..i])
                                 .(version := if i == 0 then start.version else events[i-1].version)
        invariant uncommittedEvents == old(uncommittedEvents)
      {
        Apply(events[i], true);
        assert Bodies(events)[..i+1][..i] == Bodies(events)[..i];
      }
      assert Bodies(events)[..|events|] == Bodies(events);
    }

    // ---- The commands ----

    method Create(id: string, owner: string, c: string) returns (r: Result<(), A.Error>)
      modifies this
      ensures Decided(A.Create(id, owner, c),
                      old(Current()), old(uncommittedEvents), r, Current(), uncommittedEvents)
    {
      if accountId.Some? && accountId.value != "" {
        return Failure(A.AlreadyExists);
      }
      Apply(Recorded(version + 1, A.AccountCreated(id, owner, c)), false);
      return Success(());
    }

    method Deposit(amount: string, c: string, transactionId: string) returns (r: Result<(), A.Error>)
      modifies this
      ensures Decided(A.Deposit(Money.Parse(amount), c, transactionId),
                      old(Current()), old(uncommittedEvents), r, Current(), uncommittedEvents)
    {
      if status != A.Active {
        return Failure(A.NotActive);
      }
      if currency != Some(c) {
        return Failure(A.CurrencyMismatch);
      }
      var amountMinorUnits := Money.Parse(amount);
      if amountMinorUnits.None? {
        return Failure(A.InvalidMoney);
      }
      if amountMinorUnits.value <= 0 {
        return Failure(A.NotPositive);
      }
      Apply(Recorded(version + 1, A.MoneyDeposited(amountMinorUnits.value, c, transactionId)), false);
      return Success(());
    }

    method Withdraw(amount: string, c: string, transactionId: string) returns (r: Result<(), A.Error>)
      modifies this
      ensures Decided(A.Withdraw(Money.Parse(amount), c, transactionId),
                      old(Current()), old(uncommittedEvents), r, Current(), uncommittedEvents)
    {
      if status != A.Active {
        return Failure(A.NotActive);
      }
      if currency != Some(c) {
        return Failure(A.CurrencyMismatch);
      }
      var amountMinorUnits := Money.Parse(amount);
      if amountMinorUnits.None? {
        return Failure(A.InvalidMoney);
      }
      if amountMinorUnits.value <= 0 {
        return Failure(A.NotPositive);
      }
      if balanceMinorUnits < amountMinorUnits.value {
        return Failure(A.InsufficientFunds);
      }
      Apply(Recorded(version + 1, A.MoneyWithdrawn(amountMinorUnits.value, c, transactionId)), false);
      return Success(());
    }

    method Freeze(reason: string) returns (r: Result<(), A.Error>)
      modifies this
      ensures Decided(A.Freeze(reason),
                      old(Current()), old(uncommittedEvents), r, Current(), uncommittedEvents)
    {
      if reason == "" {
        return Failure(A.ReasonRequired);
      }
      if status == A.Frozen {
        return Failure(A.AlreadyFrozen);
      }
      Apply(Recorded(version + 1, A.AccountFrozen(reason)), false);
      return Success(());
    }

    method PullUncommittedEvents() returns (events: seq<Recorded>)
      modifies this
      ensures events == old(uncommittedEvents) && uncommittedEvents == []
      ensures Current() == old(Current())
    {
      events := uncommittedEvents;
      uncommittedEvents := [];
    }

    function GetSnapshotState(): (r: SnapshotState)
      reads this
      ensures Restored(r, version) == Current()
    {
      SnapshotState(accountId, ownerId, currency, status, balanceMinorUnits)
    }

    method RestoreSnapshot(state: SnapshotState, at: nat)
      modifies this
      ensures Current() == Restored(state, at)
      ensures uncommittedEvents == old(uncommittedEvents)
    {
      accountId, ownerId, currency := state.accountId, state.ownerId, state.currency;
      status, balanceMinorUnits := state.status, state.balance;
      version := at;
    }
  }
}
