// The transfer aggregate as the source has it: fields that commands and replay
// update in place, and the buffer of events not yet stored.
module TransferAggregates {
  import opened Wrappers
  import T = Transfers
  import Money

  // An event with its stream version and the time it occurred at.
  datatype Recorded = Recorded(version: nat, occurredAt: int, event: T.Event)

  function Bodies(es: seq<Recorded>): (r: seq<T.Event>)
    ensures |r| == |es|
    ensures forall i :: 0 <= i < |es| ==> r[i] == es[i].event
  {
    seq(|es|, i requires 0 <= i < |es| => es[i].event)
  }

  // The stored form of a stream: versions are 1, 2, 3, ...
  predicate Numbered(es: seq<Recorded>) { forall i :: 0 <= i < |es| ==> es[i].version == i + 1 }

  // A command either raises the event its guards allow, stamped with the next
  // version and the clock, or changes nothing and reports the guard that refused.
  predicate Decided(cmd: T.Command, now: int, before: T.State, buffer: seq<Recorded>,
                    r: Result<(), T.Error>, after: T.State, bufferAfter: seq<Recorded>)
  {
    match T.Decide(before, cmd)
    case Success(e) =>
      r == Success(()) && after == T.When(before, e) && bufferAfter == buffer + [Recorded(before.version + 1, now, e)]
    case Failure(why) => r == Failure(why) && after == before && bufferAfter == buffer
  }

  class TransferAggregate {
    var info: Option<T.Info>   // transferId, sourceAccountId, destinationAccountId, amountMinorUnits, currency
    var status: Option<T.Status>
    var version: nat
    var failure: Option<(string, T.Stage)>
    var sourceDebitTransactionId: Option<string>
    var destinationCreditTransactionId: Option<string>
    var compensationTransactionId: Option<string>
    var debitAttempts: nat
    var creditAttempts: nat
    var compensationAttempts: nat
    var createdAt: Option<int>
    var updatedAt: Option<int>
    var uncommittedEvents: seq<Recorded>

    function Current(): T.State
      reads this
    {
      T.State(info, status, failure,
              T.LegState(sourceDebitTransactionId, debitAttempts),
              T.LegState(destinationCreditTransactionId, creditAttempts),
              T.LegState(compensationTransactionId, compensationAttempts), version)
    }

    constructor ()
      ensures Current() == T.BLANK && uncommittedEvents == []
      ensures createdAt == updatedAt == None
    {
      info, status, version, failure := None, None, 0, None;
      sourceDebitTransactionId, destinationCreditTransactionId, compensationTransactionId := None, None, None;
      debitAttempts, creditAttempts, compensationAttempts := 0, 0, 0;
      createdAt, updatedAt := None, None;
      uncommittedEvents := [];
    }

    method When(e: Recorded)
      modifies this
      ensures Current() == T.When(old(Current()), e.event).(version := e.version)
      ensures updatedAt == Some(e.occurredAt)
      ensures createdAt == if e.event.TransferInitiated? then Some(e.occurredAt) else old(createdAt)
      ensures uncommittedEvents == old(uncommittedEvents)
    {
      version := e.version;
      updatedAt := Some(e.occurredAt);
      match e.event {
        case TransferInitiated(i) =>
          info, status, createdAt, failure := Some(i), Some(T.Initiated), Some(e.occurredAt), None;
        case TransferStarted(Debit, tx, n) =>
          status, sourceDebitTransactionId, debitAttempts, failure := Some(T.DebitInProgress), Some(tx), n, None;
        case TransferStarted(Credit, tx, n) =>
          status, destinationCreditTransactionId := Some(T.CreditInProgress), Some(tx);
          creditAttempts, failure := n, None;
        case TransferStarted(Compensation, tx, n) =>
          status, compensationTransactionId, compensationAttempts := Some(T.CompensationInProgress), Some(tx), n;
        case TransferDebited(_) => status := Some(T.Debited);
        case TransferCompleted => status := Some(T.Completed);
        case TransferFailed(reason, stage) => status, failure := Some(T.Failed), Some((reason, stage));
        case TransferCompensated(_) => status := Some(T.Compensated);
      }
    }

    method Apply(e: Recorded, isFromHistory: bool)
      modifies this
      ensures Current() == T.When(old(Current()), e.event).(version := e.version)
      ensures updatedAt == Some(e.occurredAt)
      ensures uncommittedEvents == old(uncommittedEvents) + (if isFromHistory then [] else [e])
    {
      When(e);
      if !isFromHistory {
        uncommittedEvents := uncommittedEvents + [e];
      }
    }

    // Loading a stored stream into a new aggregate gives the fold of the stream.
    method LoadFromHistory(events: seq<Recorded>)
      requires Current() == T.BLANK && Numbered(events)
      modifies this
      ensures Current() == T.Fold(Bodies(events))
      ensures events != [] ==> updatedAt == Some(events[|events|-1].occurredAt)
      ensures uncommittedEvents == old(uncommittedEvents)
    {
      for i := 0 to |events|
        invariant Current() == T.Fold(Bodies(events)[..i])
        invariant i > 0 ==> updatedAt == Some(events[i-1].occurredAt)
        invariant uncommittedEvents == old(uncommittedEvents)
      {
        Apply(events[i], true);
        assert Bodies(events)[..i+1][..i] == Bodies(events)[..i];
      }
      assert Bodies(events)[..|events|] == Bodies(events);
    }

    method Initiate(transferId: string, source: string, destination: string, amount: string, currency: string, now: int)
      returns (r: Result<(), T.Error>)
      modifies this
      ensures Decided(T.Initiate(transferId, source, destination, Money.Parse(amount), currency), now,
                      old(Current()), old(uncommittedEvents), r, Current(), uncommittedEvents)
    {
      if info.Some? && info.value.transferId != "" {
        return Failure(T.AlreadyExists);
      }
      if source == destination {
        return Failure(T.SameAccount);
      }
      var amountMinorUnits := Money.Parse(amount);
      if amountMinorUnits.None? {
        return Failure(T.InvalidMoney);
      }
      if amountMinorUnits.value <= 0 {
        return Failure(T.NotPositive);
      }
      Apply(Recorded(version + 1, now,
                     T.TransferInitiated(T.Info(transferId, source, destination, amountMinorUnits.value, currency))),
            false);
      return Success(());
    }

    method StartDebit(transactionId: string, now: int) returns (r: Result<(), T.Error>)
      modifies this
      ensures Decided(T.Start(T.Debit, transactionId), now,
                      old(Current()), old(uncommittedEvents), r, Current(), uncommittedEvents)
    {
      if status != Some(T.Initiated) && status != Some(T.DebitInProgress) {
        return Failure(T.WrongStatus);
      }
      Apply(Recorded(version + 1, now, T.TransferStarted(T.Debit, transactionId, debitAttempts + 1)), false);
      return Success(());
    }

    method MarkDebited(now: int) returns (r: Result<(), T.Error>)
      modifies this
      ensures Decided(T.MarkDebited, now,
                      old(Current()), old(uncommittedEvents), r, Current(), uncommittedEvents)
    {
      if status != Some(T.DebitInProgress) {
        return Failure(T.WrongStatus);
      }
      Apply(Recorded(version + 1, now, T.TransferDebited(sourceDebitTransactionId)), false);
      return Success(());
    }

    method StartCredit(transactionId: string, now: int) returns (r: Result<(), T.Error>)
      modifies this
      ensures Decided(T.Start(T.Credit, transactionId), now,
                      old(Current()), old(uncommittedEvents), r, Current(), uncommittedEvents)
    {
      if status != Some(T.Debited) && status != Some(T.CreditInProgress) {
        return Failure(T.WrongStatus);
      }
      Apply(Recorded(version + 1, now, T.TransferStarted(T.Credit, transactionId, creditAttempts + 1)), false);
      return Success(());
    }

    method Complete(now: int) returns (r: Result<(), T.Error>)
      modifies this
      ensures Decided(T.Complete, now,
                      old(Current()), old(uncommittedEvents), r, Current(), uncommittedEvents)
    {
      if status != Some(T.CreditInProgress) {
        return Failure(T.WrongStatus);
      }
      Apply(Recorded(version + 1, now, T.TransferCompleted), false);
      return Success(());
    }

    method Fail(reason: string, stage: T.Stage, now: int) returns (r: Result<(), T.Error>)
      modifies this
      ensures Decided(T.Fail(reason, stage), now,
                      old(Current()), old(uncommittedEvents), r, Current(), uncommittedEvents)
    {
      if status != Some(T.DebitInProgress) && status != Some(T.CreditInProgress) {
        return Failure(T.WrongStatus);
      }
      if reason == "" {
        return Failure(T.ReasonRequired);
      }
      Apply(Recorded(version + 1, now, T.TransferFailed(reason, stage)), false);
      return Success(());
    }

    method StartCompensation(transactionId: string, now: int) returns (r: Result<(), T.Error>)
      modifies this
      ensures Decided(T.Start(T.Compensation, transactionId), now,
                      old(Current()), old(uncommittedEvents), r, Current(), uncommittedEvents)
    {
      if status != Some(T.Failed) && status != Some(T.CompensationInProgress) {
        return Failure(T.WrongStatus);
      }
      if failure.None? || failure.value.1 != T.AtCredit {
        return Failure(T.NotCompensable);
      }
      Apply(Recorded(version + 1, now, T.TransferStarted(T.Compensation, transactionId, compensationAttempts + 1)),
          false);
      return Success(());
    }

    method MarkCompensated(now: int) returns (r: Result<(), T.Error>)
      modifies this
      ensures Decided(T.MarkCompensated, now,
                      old(Current()), old(uncommittedEvents), r, Current(), uncommittedEvents)
    {
      if status != Some(T.CompensationInProgress) {
        return Failure(T.WrongStatus);
      }
      Apply(Recorded(version + 1, now, T.TransferCompensated(compensationTransactionId)), false);
      return Success(());
    }

    method PullUncommittedEvents() returns (events: seq<Recorded>)
      modifies this
      ensures events == old(uncommittedEvents) && uncommittedEvents == []
      ensures Current() == old(Current())
    {
      events := uncommittedEvents;
      uncommittedEvents := [];
    }
  }
}
