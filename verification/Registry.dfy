// The transaction registry: one record per transaction id, which decides whether
// a caller may run its money movement.
module Registry {
  import opened Wrappers

  datatype Operation = DepositOp | WithdrawOp
  datatype Status = Pending | Completed | FailedRetryable | FailedTerminal

  // The amount is what parsing the request's text gave, in minor units.
  datatype Record = Record(account: string, operation: Operation, amount: int, currency: string, status: Status)

  // An amount is None when its text is not a money amount.
  datatype Input = Input(transactionId: string, account: string, operation: Operation, amount: Option<int>,
      currency: string)

  type Records = map<string, Record>

  datatype Reservation = Created | Existing(record: Record) | Unreadable

  function TryReserve(records: Records, input: Input): Reservation {
    if input.transactionId in records then Existing(records[input.transactionId])
    else if input.amount.None? then Unreadable
    else Created
  }

  function Reserved(records: Records, input: Input): Records {
    if TryReserve(records, input) != Created then records
    else records[input.transactionId :=
                   Record(input.account, input.operation, input.amount.value, input.currency, Pending)]
  }

  function Mark(records: Records, tx: string, status: Status): Records {
    if tx in records then records[tx := records[tx].(status := status)] else records
  }

  predicate SameIntent(input: Input, record: Record) {
    && input.account == record.account
    && input.operation == record.operation
    && input.amount == Some(record.amount)
    && input.currency == record.currency
  }

  // The record is of this movement: the same account, operation, amount and currency.
  predicate Describes(record: Record, input: Input) {
    input.amount.Some?
    && record == Record(input.account, input.operation, input.amount.value, input.currency, record.status)
  }

  datatype Refusal = UnreadableAmount | OtherMovement | AlreadyInProgress | PreviouslyFailed
  datatype Verdict = Run | Reopen | Cached | Refuse(why: Refusal)

  // What a caller may do after its reservation.
  function Admit(input: Input, r: Reservation, retryFailed: bool): Verdict {
    match r
    case Created => Run
    case Unreadable => Refuse(UnreadableAmount)
    case Existing(record) =>
      if input.amount.None? then Refuse(UnreadableAmount)
      else if !SameIntent(input, record) then Refuse(OtherMovement)
      else match record.status
        case Completed => Cached
        case Pending => Refuse(AlreadyInProgress)
        case FailedRetryable => if retryFailed then Reopen else Refuse(PreviouslyFailed)
        case FailedTerminal => Refuse(PreviouslyFailed)
  }

  // Why a call is refused, reason by reason.
  lemma RefusedIff(records: Records, input: Input, retryFailed: bool, why: Refusal)
    ensures var tx := input.transactionId;
            Admit(input, TryReserve(records, input), retryFailed) == Refuse(why) <==>
              match why
              case UnreadableAmount => input.amount.None?
              case OtherMovement => input.amount.Some? && tx in records && !Describes(records[tx], input)
              case AlreadyInProgress => tx in records && Describes(records[tx], input) && records[tx].status == Pending
              case PreviouslyFailed =>
                && tx in records && Describes(records[tx], input)
                && (records[tx].status == FailedTerminal || (records[tx].status == FailedRetryable && !retryFailed))
  {
  }

  class TransactionRecordRepository {
    var records: Records

    constructor ()
      ensures records == map[]
    {
      records := map[];
    }

    method Reserve(input: Input) returns (r: Reservation)
      modifies this
      ensures r == TryReserve(old(records), input)
      ensures records == Reserved(old(records), input)
      ensures var before, tx := old(records), input.transactionId;
              && (r == Created <==> tx !in before && input.amount.Some?)
              && (r.Existing? <==> tx in before) && (r.Existing? ==> r.record == before[tx])
              && (r == Created ==> tx in records && records - {tx} == before && Describes(records[tx], input)
                                   && records[tx].status == Pending)
              && (r != Created ==> records == before)
    {
      if input.transactionId in records {
        return Existing(records[input.transactionId]);
      }
      if input.amount.None? {
        return Unreadable;
      }
      var record := Record(input.account, input.operation, input.amount.value, input.currency, Pending);
      records := records[input.transactionId := record];
      return Created;
    }

    // markPending, markCompleted and markFailed.
    method SetStatus(tx: string, status: Status)
      modifies this
      ensures records == Mark(old(records), tx, status)
      ensures records.Keys == old(records).Keys
      ensures forall other :: other in records ==>
                if other == tx then records[other] == old(records)[other].(status := status)
                else records[other] == old(records)[other]
    {
      if tx !in records {
        return;
      }
      var current := records[tx];
      records := records[tx := current.(status := status)];
    }
  }

  // What a handler run ended with: accepted, or an error that is retryable or not.
  datatype HandlerResult = Accepted | Failed(retryable: bool)

  // How the awaited markCompleted ended: done, or with an error before or after it
  // had its effect.
  datatype Marking = Marked | Broken(written: bool, retryable: bool)

  // One call of execute that nothing else interleaves with.
  datatype Call = Call(input: Input, handler: HandlerResult, marking: Marking, retryFailed: bool)

  // The error that ended the run of the handler, if any: markCompleted shares the
  // handler's try block, so its error is caught as the handler's is.
  function Thrown(call: Call): Option<bool> {
    match (call.handler, call.marking)
    case (Failed(retryable), _) => Some(retryable)
    case (Accepted, Broken(_, retryable)) => Some(retryable)
    case (Accepted, Marked) => None
  }

  datatype CallResult = CallResult(records: Records, ran: bool, accepted: bool)

  function Executed(records: Records, call: Call): CallResult {
    match Admit(call.input, TryReserve(records, call.input), call.retryFailed)
    case Cached => CallResult(records, false, true)
    case Refuse(_) => CallResult(records, false, false)
    case _ =>
      var status := match Thrown(call)
                    case None => Completed
                    case Some(retryable) => if retryable then FailedRetryable else FailedTerminal;
      CallResult(Mark(Reserved(records, call.input), call.input.transactionId, status), true, Thrown(call).None?)
  }

  // A run leaves a completed record exactly when the handler succeeded and the success
  // could be marked, and a retryable one exactly when the error that ended it - the
  // handler's, or that of the marking - is retryable.
  predicate LeavesStatus(handler: HandlerResult, marking: Marking, status: Status) {
    && (status == Completed <==> handler.Accepted? && marking.Marked?)
    && (status == FailedRetryable <==>
          handler == Failed(true) || (handler.Accepted? && marking.Broken? && marking.retryable))
    && (status == FailedTerminal <==>
          handler == Failed(false) || (handler.Accepted? && marking.Broken? && !marking.retryable))
  }

  // What a call does, in the terms of the records alone.
  lemma ExecutedSays(records: Records, call: Call)
    ensures var after, tx := Executed(records, call), call.input.transactionId;
            && (after.ran <==>
                  && call.input.amount.Some?
                  && (tx in records ==>
                        && records[tx].status == FailedRetryable && call.retryFailed
                        && Describes(records[tx], call.input)))
            && (!after.ran ==> after.records == records)
            && after.records - {tx} == records - {tx}
            && (after.ran ==>
                  && tx in after.records && Describes(after.records[tx], call.input)
                  && LeavesStatus(call.handler, call.marking, after.records[tx].status))
            && (after.accepted <==>
                  if after.ran then call.handler.Accepted? && call.marking.Marked?
                  else tx in records && records[tx].status == Completed && Describes(records[tx], call.input))
  {
  }

  // The handler runs exactly when the id is new, or when the same movement failed
  // retryably and the caller may retry; a call that does not run it leaves every record
  // as it was.
  method Execute(repository: TransactionRecordRepository, input: Input, handler: HandlerResult, marking: Marking,
                 retryFailed: bool)
    returns (ran: bool, accepted: bool)
    modifies repository
    ensures CallResult(repository.records, ran, accepted) ==
              Executed(old(repository.records), Call(input, handler, marking, retryFailed))
    ensures var before, tx := old(repository.records), input.transactionId;
            ran <==> (input.amount.Some? && (
              tx !in before || (before[tx].status == FailedRetryable && retryFailed && Describes(before[tx], input))))
    ensures !ran ==> repository.records == old(repository.records)
    ensures ran ==>
              && input.transactionId in repository.records && Describes(repository.records[input.transactionId], input)
              && LeavesStatus(handler, marking, repository.records[input.transactionId].status)
    ensures repository.records - {input.transactionId} == old(repository.records) - {input.transactionId}
    ensures accepted <==> (if ran then handler.Accepted? && marking.Marked?
                           else input.transactionId in old(repository.records)
                                && Describes(old(repository.records)[input.transactionId], input)
                                && old(repository.records)[input.transactionId].status == Completed)
  {
    ExecutedSays(repository.records, Call(input, handler, marking, retryFailed));
    var tx := input.transactionId;
    var reservation := repository.Reserve(input);
    match Admit(input, reservation, retryFailed) {
      case Run =>
      case Reopen => repository.SetStatus(tx, Pending);
      case Cached => return false, true;
      case Refuse(_) => return false, false;
    }
    var retryable := false;
    match handler {
      case Accepted =>
        if marking.Marked? || marking.written {
          repository.SetStatus(tx, Completed);
        }
        if marking.Marked? {
          return true, true;
        }
        retryable := marking.retryable;
      case Failed(again) => retryable := again;
    }
    repository.SetStatus(tx, if retryable then FailedRetryable else FailedTerminal);
    return true, false;
  }

  // ---- One call after another ----

  function AfterCalls(records: Records, calls: seq<Call>): Records {
    if calls == [] then records else Executed(AfterCalls(records, calls[..|calls|-1]), calls[|calls|-1]).records
  }

  // A record that is completed, terminally failed or pending is final: whatever calls
  // follow, retrying or not, it stays as it is, and a further call of its id runs no
  // handler and is accepted exactly when the record is completed and of its movement.
  lemma {:induction false} RecordIsFinal(records: Records, calls: seq<Call>, tx: string, next: Call)
    requires tx in records && records[tx].status != FailedRetryable && next.input.transactionId == tx
    ensures var after := AfterCalls(records, calls);
            && tx in after && after[tx] == records[tx]
            && !Executed(after, next).ran
            && (Executed(after, next).accepted <==>
                  records[tx].status == Completed && Describes(records[tx], next.input))
    decreases |calls|
  {
    if calls != [] {
      var n := |calls| - 1;
      RecordIsFinal(records, calls[..n], tx, next);
      var before := AfterCalls(records, calls[..n]);
      ExecutedSays(before, calls[n]);
      assert calls[n].input.transactionId != tx ==> tx in before - {calls[n].input.transactionId};
      assert AfterCalls(records, calls) == Executed(before, calls[n]).records;
    }
    ExecutedSays(AfterCalls(records, calls), next);
  }

  // The law of two calls of one id. After an error that is not retryable no later call
  // runs or is accepted, whatever it asks for; after a retryable one the same movement
  // runs again exactly if it asks to retry; after a success the same movement is accepted
  // without running.
  lemma TwoCalls(records: Records, first: Call, between: seq<Call>, second: Call)
    requires first.input.transactionId == second.input.transactionId && Executed(records, first).ran
    ensures var after := Executed(records, first);
            && (first.handler == Failed(false) ==>
                  var r := Executed(AfterCalls(after.records, between), second); !r.ran && !r.accepted)
            && (first.handler == Failed(true) && second.input == first.input ==>
                  (Executed(after.records, second).ran <==> second.retryFailed))
            && (first.handler == Accepted && first.marking == Marked && second.input == first.input ==>
                  var r := Executed(AfterCalls(after.records, between), second); !r.ran && r.accepted)
  {
    ExecutedSays(records, first);
    var after, tx := Executed(records, first).records, first.input.transactionId;
    assert first.handler == Failed(false) ==> after[tx].status == FailedTerminal;
    if after[tx].status != FailedRetryable {
      RecordIsFinal(after, between, tx, second);
    }
    ExecutedSays(after, second);
  }
}
