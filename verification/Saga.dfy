// The transfer saga as a transition system.
//
// Any number of workers - transfer coordinators and API requests - share the
// account streams, the transfer streams and the transaction registry. One step is
// what one worker does between two awaits; steps of different workers interleave
// freely and a worker can die at any point.
module Saga {
  import opened Wrappers
  import A = Accounts
  import T = Transfers
  import R = Registry

  type Leg = T.Leg

  // `${transferId}:debit`, `${transferId}:credit`, `${transferId}:compensation`
  function Suffix(leg: Leg): string {
    match leg
    case Debit => ":debit"
    case Credit => ":credit"
    case Compensation => ":compensation"
  }

  function LegId(t: string, leg: Leg): string { t + Suffix(leg) }

  // The transaction id belongs to a leg of some transfer.
  ghost predicate IsLegId(tx: string) { exists t, leg :: tx == LegId(t, leg) }

  // What a failed call throws.
  datatype Failure =
    | Rejected(why: A.Error)                            // by the account
    | AccountConflict(account: string)                  // every write of executeWithRetry conflicted
    | TransferConflict(t: string)
    | WrongStatus(leg: Leg, status: Option<T.Status>)   // by the command that closes a leg
    | Taken(tx: string, refusal: R.Refusal)             // by the registry
    | Infrastructure(text: string)
    | Retryable                                         // RetryableTransferProcessingError

  // legAmount renders minor units as a number, prints it and parses the text; the
  // three legs share it, and None means that the text is rejected as money. text is
  // the message of an error, and terminal is isTerminalDomainError on a message;
  // SagaTexts has the ones of the code.
  datatype Config = Config(legAmount: int -> Option<int>, text: Failure -> string, terminal: string -> bool) {
    predicate Terminal(f: Failure) { terminal(text(f)) }
  }

  // Who asked for a money movement.
  datatype Owner = TransferLeg(transferId: string, leg: Leg) | Api

  // One call of TransactionRegistryService.execute: what is registered and what the
  // handler will ask of the account.
  datatype Job = Job(owner: Owner, input: R.Input, amount: Option<int>) {
    function Tx(): string { input.transactionId }

    function Command(): A.Command {
      if input.operation == R.WithdrawOp then A.Withdraw(amount, input.currency, input.transactionId)
      else A.Deposit(amount, input.currency, input.transactionId)
    }
  }

  // The registry is given the minor units as if they were major units.
  function LegJob(cfg: Config, leg: Leg, tx: string, info: T.Info): Job {
    var account := if leg == T.Credit then info.destination else info.source;
    var operation := if leg == T.Debit then R.WithdrawOp else R.DepositOp;
    Job(TransferLeg(info.transferId, leg),
        R.Input(tx, account, operation, Some(100 * info.amount), info.currency),
        cfg.legAmount(info.amount))
  }

  // executeWithRetry: read the stream, then decide on what was read and append with
  // the version read as the expected version. Attempts count from 1 to 3.
  datatype Attempt<E> = Read(attempt: nat) | Write(attempt: nat, seen: seq<E>)

  const MAX_WRITE_ATTEMPTS: nat := 3

  // Where a worker is. Everything it holds is lost when it dies.
  datatype Pc =
    | Idle
    | Picked(t: string)                                             // processTransfer
    | Entering(t: string, leg: Leg, tx: string)                     // processDebit, -Credit, -Compensation
    | Starting(t: string, leg: Leg, tx: string, info: T.Info, write: Attempt<T.Event>)
    | Reserving(job: Job)
    | Reopening(job: Job)
    | Moving(job: Job, move: Attempt<A.Event>)                      // the handler
    | MarkingCompleted(job: Job)
    | MarkingFailed(job: Job, error: Failure)
    | Finishing(t: string, leg: Leg, write: Attempt<T.Event>)
    | Failing(t: string, leg: Leg, reason: string, write: Attempt<T.Event>)

  datatype Store = Store(accounts: map<string, seq<A.Event>>, transfers: map<string, seq<T.Event>>,
      registry: R.Records) {
    function Account(id: string): seq<A.Event> { if id in accounts then accounts[id] else [] }

    function Transfer(t: string): seq<T.Event> { if t in transfers then transfers[t] else [] }

    function AppendAccount(id: string, e: A.Event): Store {
      this.(accounts := accounts[id := Account(id) + [e]])
    }

    function AppendTransfer(t: string, e: T.Event): Store {
      this.(transfers := transfers[t := Transfer(t) + [e]])
    }
  }

  datatype System = System(store: Store, workers: map<nat, Pc>) {
    function At(w: nat): Pc { if w in workers then workers[w] else Idle }

    function Go(w: nat, pc: Pc): System { this.(workers := workers[w := pc]) }
  }

  const START := System(Store(map[], map[], map[]), map[])

  // How an await ends: done, or failed with some text before or after it had its effect.
  datatype Outcome = Done | LostBefore(text: string) | LostAfter(text: string)

  // The command that closes a leg.
  function FinishCommand(leg: Leg): T.Command {
    match leg
    case Debit => T.MarkDebited
    case Credit => T.Complete
    case Compensation => T.MarkCompensated
  }

  function FailureStage(leg: Leg): T.Stage { if leg == T.Debit then T.AtDebit else T.AtCredit }

  // processTransfer: which leg the loaded status calls for.
  function Dispatch(t: string, st: T.State): Pc {
    match st.status
    case Some(Initiated) | Some(DebitInProgress) => Entering(t, T.Debit, st.debit.tx.GetOr(LegId(t, T.Debit)))
    case Some(Debited) | Some(CreditInProgress) => Entering(t, T.Credit, st.credit.tx.GetOr(LegId(t, T.Credit)))
    case Some(Failed) =>
      if st.FailedAt(T.AtCredit) then Entering(t, T.Compensation, st.compensation.tx.GetOr(LegId(t, T.Compensation)))
      else Idle
    case Some(CompensationInProgress) =>
      Entering(t, T.Compensation, st.compensation.tx.GetOr(LegId(t, T.Compensation)))
    case _ => Idle
  }

  // How one round of executeWithRetry ends. A write whose acknowledgement is lost,
  // or whose snapshot could not be saved, has still been written.
  datatype Round<E, X> =
    | Again(next: Attempt<E>)
    | Wrote(event: E, o: Outcome)
    | Refused(why: X)
    | Conflict
    | Lost(text: string)

  function WriteRound<E, X>(stream: seq<E>, n: nat, seen: seq<E>, decision: Result<E, X>, o: Outcome): Round<E, X> {
    match decision
    case Failure(why) => Refused(why)
    case Success(e) =>
      if o.LostBefore? then Lost(o.text)
      else if |stream| != |seen| then (if n < MAX_WRITE_ATTEMPTS then Again(Read(n + 1)) else Conflict)
      else Wrote(e, o)
  }

  function TransferRound(stream: seq<T.Event>, cmd: T.Command, a: Attempt<T.Event>, o: Outcome)
    : Round<T.Event, T.Error>
  {
    match a
    case Read(n) => if o.Done? then Again(Write(n, stream)) else Lost(o.text)
    case Write(n, seen) => WriteRound(stream, n, seen, T.Decide(T.Fold(seen), cmd), o)
  }

  function AccountRound(stream: seq<A.Event>, cmd: A.Command, a: Attempt<A.Event>, o: Outcome)
    : Round<A.Event, A.Error>
  {
    match a
    case Read(n) => if o.Done? then Again(Write(n, stream)) else Lost(o.text)
    case Write(n, seen) => WriteRound(stream, n, seen, A.Decide(A.Fold(seen), cmd), o)
  }

  // What a step does to the store.
  datatype Change =
    | Nothing
    | Moved(account: string, money: A.Event)
    | Transferred(t: string, event: T.Event)
    | Recorded(tx: string, record: R.Record)

  function Changed(store: Store, change: Change): Store {
    match change
    case Nothing => store
    case Moved(id, e) => store.AppendAccount(id, e)
    case Transferred(t, e) => store.AppendTransfer(t, e)
    case Recorded(tx, record) => store.(registry := store.registry[tx := record])
  }

  // reserve, markPending, markCompleted and markFailed.
  function Reserved(store: Store, input: R.Input): Change {
    if R.TryReserve(store.registry, input) != R.Created then Nothing
    else Recorded(input.transactionId, R.Reserved(store.registry, input)[input.transactionId])
  }

  function Marked(store: Store, tx: string, status: R.Status): Change {
    if tx in store.registry then Recorded(tx, store.registry[tx].(status := status)) else Nothing
  }

  // What follows an accepted registry call: legs go on to their closing command.
  function AfterAccepted(job: Job): Pc {
    match job.owner
    case TransferLeg(t, leg) => Finishing(t, leg, Read(1))
    case Api => Idle
  }

  // The catch block: debit and credit turn an error whose message looks terminal into
  // a failed transfer; every other error leaves the procedure.
  function AfterError(cfg: Config, owner: Owner, f: Failure): Pc {
    match owner
    case TransferLeg(t, leg) =>
      if leg != T.Compensation && cfg.Terminal(f) then Failing(t, leg, cfg.text(f), Read(1)) else Idle
    case Api => Idle
  }

  // What follows a reservation. The legs ask to retry what failed retryably.
  function AfterReserve(cfg: Config, job: Job, verdict: R.Verdict): Pc {
    match verdict
    case Run => Moving(job, Read(1))
    case Reopen => Reopening(job)
    case Cached => AfterAccepted(job)
    case Refuse(why) => AfterError(cfg, job.owner, Taken(job.Tx(), why))
  }

  // After a round of the handler: every failure is caught and marked.
  function AfterMove(job: Job, round: Round<A.Event, A.Error>): Pc {
    match round
    case Again(next) => Moving(job, next)
    case Wrote(_, o) => if o.Done? then MarkingCompleted(job) else MarkingFailed(job, Infrastructure(o.text))
    case Refused(why) => MarkingFailed(job, Rejected(why))
    case Conflict => MarkingFailed(job, AccountConflict(job.input.account))
    case Lost(text) => MarkingFailed(job, Infrastructure(text))
  }

  // After a round of the command that closes a leg, which sits in the leg's try block.
  function AfterFinish(cfg: Config, t: string, leg: Leg, write: Attempt<T.Event>, round: Round<T.Event, T.Error>): Pc {
    match round
    case Again(next) => Finishing(t, leg, next)
    case Wrote(_, o) => if o.Done? then Idle else AfterError(cfg, TransferLeg(t, leg), Infrastructure(o.text))
    case Refused(_) =>
      AfterError(cfg, TransferLeg(t, leg), WrongStatus(leg, if write.Write? then T.Fold(write.seen).status else None))
    case Conflict => AfterError(cfg, TransferLeg(t, leg), TransferConflict(t))
    case Lost(text) => AfterError(cfg, TransferLeg(t, leg), Infrastructure(text))
  }

  // The event a round has written to a transfer stream.
  function WrittenTo(t: string, round: Round<T.Event, T.Error>): Change {
    if round.Wrote? then Transferred(t, round.event) else Nothing
  }

  // One step of a worker: what it does to the store and where the worker goes.
  function Effect(cfg: Config, store: Store, pc: Pc, o: Outcome): (Change, Pc) {
    match pc
    case Idle => (Nothing, Idle)
    case Picked(t) => (Nothing, if o.Done? then Dispatch(t, T.Fold(store.Transfer(t))) else Idle)
    case Entering(t, leg, tx) =>
      var view := T.Fold(store.Transfer(t));
      (Nothing,
       if !o.Done? || view.info.None? then Idle
       else if T.MayStart(leg, view.status) then Starting(t, leg, tx, view.info.value, Read(1))
       else Reserving(LegJob(cfg, leg, tx, view.info.value)))
    case Starting(t, leg, tx, info, write) =>
      var round := TransferRound(store.Transfer(t), T.Start(leg, tx), write, o);
      (WrittenTo(t, round),
       if round.Again? then Starting(t, leg, tx, info, round.next)
       else if round.Wrote? && o.Done? then Reserving(LegJob(cfg, leg, tx, info))
       else Idle)
    case Reserving(job) =>
      (if o.LostBefore? then Nothing else Reserved(store, job.input),
       if !o.Done? then AfterError(cfg, job.owner, Infrastructure(o.text))
       else AfterReserve(cfg, job,
              R.Admit(job.input, R.TryReserve(store.registry, job.input), job.owner.TransferLeg?)))
    case Reopening(job) =>
      (if o.LostBefore? then Nothing else Marked(store, job.Tx(), R.Pending),
       if o.Done? then Moving(job, Read(1)) else AfterError(cfg, job.owner, Infrastructure(o.text)))
    case Moving(job, move) =>
      var round := AccountRound(store.Account(job.input.account), job.Command(), move, o);
      (if round.Wrote? then Moved(job.input.account, round.event) else Nothing, AfterMove(job, round))
    case MarkingCompleted(job) =>
      // markCompleted sits in the same try as the handler
      (if o.LostBefore? then Nothing else Marked(store, job.Tx(), R.Completed),
       if o.Done? then AfterAccepted(job) else MarkingFailed(job, Infrastructure(o.text)))
    case MarkingFailed(job, error) =>
      (if o.LostBefore? then Nothing
       else Marked(store, job.Tx(),
              if error.Retryable? && job.owner.TransferLeg? then R.FailedRetryable else R.FailedTerminal),
       AfterError(cfg, job.owner, if o.Done? then error else Infrastructure(o.text)))
    case Finishing(t, leg, write) =>
      var round := TransferRound(store.Transfer(t), FinishCommand(leg), write, o);
      (WrittenTo(t, round), AfterFinish(cfg, t, leg, write, round))
    case Failing(t, leg, reason, write) =>
      var round := TransferRound(store.Transfer(t), T.Fail(reason, FailureStage(leg)), write, o);
      (WrittenTo(t, round), if round.Again? then Failing(t, leg, reason, round.next) else Idle)
  }

  // The next step of worker w.
  function Advance(cfg: Config, s: System, w: nat, o: Outcome): System {
    var (change, pc) := Effect(cfg, s.store, s.At(w), o);
    if s.At(w).Idle? then s else System(Changed(s.store, change), s.workers).Go(w, pc)
  }

  datatype Action =
    | Step(w: nat, o: Outcome)
    | Crash(w: nat)
    | Pick(w: nat, t: string)                    // the coordinator takes a listed transfer
    | Submit(w: nat, input: R.Input)             // a deposit or withdrawal arrives at the API
    | CreateAccount(id: string, owner: string, currency: string)
    | FreezeAccount(id: string, reason: string)
    | InitiateTransfer(t: string, source: string, destination: string, amount: Option<int>, currency: string)

  // A command on one account whose read, decision and append no one else separates.
  function AccountCommand(s: System, id: string, cmd: A.Command): System {
    match A.Decide(A.Fold(s.store.Account(id)), cmd)
    case Failure(_) => s
    case Success(e) => s.(store := s.store.AppendAccount(id, e))
  }

  // InitiateTransferHandler: both accounts exist and hold the transfer's currency.
  predicate MayInitiate(store: Store, source: string, destination: string, currency: string) {
    var from, to := A.Fold(store.Account(source)), A.Fold(store.Account(destination));
    from.Exists() && to.Exists() && from.currency == Some(currency) && to.currency == Some(currency)
  }

  // Identifiers are not empty.
  predicate Enabled(s: System, a: Action) {
    match a
    case Step(_, _) => true
    case Crash(_) => true
    case Pick(w, _) => s.At(w).Idle?
    case Submit(w, _) => s.At(w).Idle?
    case CreateAccount(id, _, _) => id != ""
    case FreezeAccount(id, _) => id != ""
    case InitiateTransfer(t, source, destination, _, currency) =>
      t != "" && MayInitiate(s.store, source, destination, currency)
  }

  // An action that is not enabled does nothing.
  function Next(cfg: Config, s: System, a: Action): System {
    if !Enabled(s, a) then s
    else match a
      case Step(w, o) => Advance(cfg, s, w, o)
      case Crash(w) => s.Go(w, Idle)
      case Pick(w, t) => s.Go(w, Picked(t))
      case Submit(w, input) => s.Go(w, Reserving(Job(Api, input, input.amount)))
      case CreateAccount(id, owner, currency) => AccountCommand(s, id, A.Create(id, owner, currency))
      case FreezeAccount(id, reason) => AccountCommand(s, id, A.Freeze(reason))
      case InitiateTransfer(t, source, destination, amount, currency) =>
        match T.Decide(T.Fold(s.store.Transfer(t)), T.Initiate(t, source, destination, amount, currency))
        case Failure(_) => s
        case Success(e) => s.(store := s.store.AppendTransfer(t, e))
  }

  // The system after any schedule of actions.
  function Exec(cfg: Config, schedule: seq<Action>): System {
    if schedule == [] then START
    else Next(cfg, Exec(cfg, schedule[..|schedule|-1]), schedule[|schedule|-1])
  }

  // n steps of worker w that nothing disturbs.
  function Steps(w: nat, n: nat): seq<Action> { seq(n, _ => Step(w, Done)) }

  // Leg ids of different legs or different transfers are different strings.
  lemma LegIdInjective(t: string, leg: Leg, t': string, leg': Leg)
    requires LegId(t, leg) == LegId(t', leg')
    ensures t == t' && leg == leg'
  {
    var x, x' := LegId(t, leg), LegId(t', leg');
    assert x[|x|-1] == Suffix(leg)[|Suffix(leg)|-1] && x'[|x'|-1] == Suffix(leg')[|Suffix(leg')|-1];
    assert x[|x|-3] == Suffix(leg)[|Suffix(leg)|-3] && x'[|x'|-3] == Suffix(leg')[|Suffix(leg')|-3];
    assert leg == leg';
    assert t == x[..|x| - |Suffix(leg)|] && t' == x'[..|x'| - |Suffix(leg')|];
  }
}
