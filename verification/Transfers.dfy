// The transfer stream: its events, the guards of its commands and the state that
// replaying a stream gives.
module Transfers {
  import opened Wrappers

  datatype Leg = Debit | Credit | Compensation

  datatype Stage = AtDebit | AtCredit

  datatype Status =
    | Initiated | DebitInProgress | Debited | CreditInProgress | Completed
    | Failed | CompensationInProgress | Compensated

  datatype Info = Info(transferId: string, source: string, destination: string, amount: int, currency: string)

  datatype Event =
    | TransferInitiated(info: Info)
    | TransferStarted(leg: Leg, transactionId: string, attempts: nat)
      // TransferDebitStarted, TransferCreditStarted and TransferCompensationStarted
    | TransferDebited(debitTx: Option<string>)
    | TransferCompleted
    | TransferFailed(reason: string, stage: Stage)
    | TransferCompensated(compensationTx: Option<string>)

  // The transaction id and attempt counter of one leg.
  datatype LegState = LegState(tx: Option<string>, attempts: nat)

  datatype State = State(
    info: Option<Info>, status: Option<Status>, failure: Option<(string, Stage)>,
    debit: LegState, credit: LegState, compensation: LegState, version: nat)
  {
    function Leg(leg: Leg): LegState {
      match leg
      case Debit => debit
      case Credit => credit
      case Compensation => compensation
    }

    predicate FailedAt(stage: Stage) { failure.Some? && failure.value.1 == stage }
  }

  const UNSTARTED := LegState(None, 0)
  const BLANK := State(None, None, None, UNSTARTED, UNSTARTED, UNSTARTED, 0)

  // The amount is None when its text is not a money amount.
  datatype Command =
    | Initiate(transferId: string, source: string, destination: string, amount: Option<int>, currency: string)
    | Start(leg: Leg, transactionId: string)
    | MarkDebited
    | Complete
    | Fail(reason: string, stage: Stage)
    | MarkCompensated

  datatype Error =
    | AlreadyExists | SameAccount | InvalidMoney | NotPositive
    | WrongStatus | ReasonRequired | NotCompensable

  // The statuses from which a leg may be started or started again.
  predicate MayStart(leg: Leg, status: Option<Status>) {
    match leg
    case Debit => status == Some(Initiated) || status == Some(DebitInProgress)
    case Credit => status == Some(Debited) || status == Some(CreditInProgress)
    case Compensation => status == Some(Failed) || status == Some(CompensationInProgress)
  }

  function Decide(st: State, cmd: Command): Result<Event, Error> {
    match cmd
    case Initiate(id, source, destination, amount, currency) =>
      if st.info.Some? && st.info.value.transferId != "" then Failure(AlreadyExists)
      else if source == destination then Failure(SameAccount)
      else if amount.None? then Failure(InvalidMoney)
      else if amount.value <= 0 then Failure(NotPositive)
      else Success(TransferInitiated(Info(id, source, destination, amount.value, currency)))
    case Start(leg, tx) =>
      if !MayStart(leg, st.status) then Failure(WrongStatus)
      else if leg == Compensation && !st.FailedAt(AtCredit) then Failure(NotCompensable)
      else Success(TransferStarted(leg, tx, st.Leg(leg).attempts + 1))
    case MarkDebited =>
      if st.status != Some(DebitInProgress) then Failure(WrongStatus)
      else Success(TransferDebited(st.debit.tx))
    case Complete =>
      if st.status != Some(CreditInProgress) then Failure(WrongStatus)
      else Success(TransferCompleted)
    case Fail(reason, stage) =>
      if st.status != Some(DebitInProgress) && st.status != Some(CreditInProgress) then Failure(WrongStatus)
      else if reason == "" then Failure(ReasonRequired)
      else Success(TransferFailed(reason, stage))
    case MarkCompensated =>
      if st.status != Some(CompensationInProgress) then Failure(WrongStatus)
      else Success(TransferCompensated(st.compensation.tx))
  }

  function When(st: State, e: Event): State {
    var next := st.(version := st.version + 1);
    match e
    case TransferInitiated(info) =>
      next.(info := Some(info), status := Some(Initiated), failure := None)
    case TransferStarted(Debit, tx, n) =>
      next.(status := Some(DebitInProgress), debit := LegState(Some(tx), n), failure := None)
    case TransferStarted(Credit, tx, n) =>
      next.(status := Some(CreditInProgress), credit := LegState(Some(tx), n), failure := None)
    case TransferStarted(Compensation, tx, n) =>
      next.(status := Some(CompensationInProgress), compensation := LegState(Some(tx), n))
    case TransferDebited(_) => next.(status := Some(Debited))
    case TransferCompleted => next.(status := Some(Completed))
    case TransferFailed(reason, stage) => next.(status := Some(Failed), failure := Some((reason, stage)))
    case TransferCompensated(_) => next.(status := Some(Compensated))
  }

  function Fold(es: seq<Event>): (r: State)
    ensures r.version == |es|
  {
    if es == [] then BLANK else When(Fold(es[..|es|-1]), es[|es|-1])
  }

  lemma FoldSnoc(es: seq<Event>, e: Event)
    ensures Fold(es + [e]) == When(Fold(es), e)
  {
    assert (es + [e])[..|es|] == es;
  }

  // ---- Streams made of accepted commands ----

  predicate AddressedTo(id: string, cmd: Command) { cmd.Initiate? ==> cmd.transferId == id }

  ghost predicate Raised(id: string, st: State, e: Event) {
    exists cmd :: AddressedTo(id, cmd) && Decide(st, cmd) == Success(e)
  }

  ghost predicate Accepted(id: string, es: seq<Event>) {
    es == [] || (Accepted(id, es[..|es|-1]) && Raised(id, Fold(es[..|es|-1]), es[|es|-1]))
  }

  lemma AcceptedSnoc(id: string, es: seq<Event>, e: Event)
    requires Accepted(id, es) && Raised(id, Fold(es), e)
    ensures Accepted(id, es + [e])
  {
    assert (es + [e])[..|es|] == es;
  }

  // ---- The life cycle, written as a pattern over the whole stream ----

  // es[lo..hi] holds the first hi - lo starts of the leg, numbered from 1.
  predicate Starts(es: seq<Event>, lo: nat, hi: nat, leg: Leg) {
    && lo <= hi <= |es|
    && forall i :: lo <= i < hi ==>
         es[i].TransferStarted? && es[i].leg == leg && es[i].attempts == i - lo + 1
  }

  predicate Opening(id: string, e: Event) {
    && e.TransferInitiated?
    && e.info.transferId == id
    && e.info.source != e.info.destination
    && e.info.amount > 0
  }

  // d debit starts, the debit mark, c credit starts.
  predicate DebitedPart(es: seq<Event>, d: nat, c: nat) {
    && d > 0 && |es| >= 2 + d + c
    && Starts(es, 1, 1 + d, Debit)
    && es[1+d] == TransferDebited(Some(es[d].transactionId))
    && Starts(es, 2 + d, 2 + d + c, Credit)
  }

  // Where the stream fails: after d > 0 debit starts, or after c > 0 credit starts.
  predicate FailurePart(es: seq<Event>, d: nat, c: nat, f: nat) {
    && f < |es| && es[f].TransferFailed? && es[f].reason != ""
    && (if c == 0 then d > 0 && f == 1 + d && Starts(es, 1, 1 + d, Debit)
        else f == 2 + d + c && DebitedPart(es, d, c))
  }

  // Initiated DebitStarted* then Failed or Debited CreditStarted* then Completed or
  // Failed; after a failure at the credit stage CompensationStarted* Compensated?.
  // d, c and k count the starts of the three legs.
  predicate Lifecycle(id: string, es: seq<Event>, status: Status, d: nat, c: nat, k: nat) {
    && |es| > 0 && Opening(id, es[0])
    && (var f := if c == 0 then 1 + d else 2 + d + c;
        match status
        case Initiated => d == 0 && c == 0 && k == 0 && |es| == 1
        case DebitInProgress => d > 0 && c == 0 && k == 0 && |es| == 1 + d && Starts(es, 1, 1 + d, Debit)
        case Debited => c == 0 && k == 0 && |es| == 2 + d && DebitedPart(es, d, 0)
        case CreditInProgress => c > 0 && k == 0 && |es| == 2 + d + c && DebitedPart(es, d, c)
        case Completed =>
          c > 0 && k == 0 && |es| == 3 + d + c && DebitedPart(es, d, c) && es[2+d+c] == TransferCompleted
        case Failed => k == 0 && |es| == f + 1 && FailurePart(es, d, c, f)
        case CompensationInProgress =>
          k > 0 && |es| == f + 1 + k && FailurePart(es, d, c, f) && es[f].stage == AtCredit
          && Starts(es, f + 1, f + 1 + k, Compensation)
        case Compensated =>
          k > 0 && |es| == f + 2 + k && FailurePart(es, d, c, f) && es[f].stage == AtCredit
          && Starts(es, f + 1, f + 1 + k, Compensation)
          && es[f+1+k] == TransferCompensated(Some(es[f+k].transactionId)))
  }

  // The state reports the status and the counts of the pattern.
  predicate Reports(es: seq<Event>, st: State, status: Status, d: nat, c: nat, k: nat) {
    && |es| > 0 && es[0].TransferInitiated?
    && st.info == Some(es[0].info)
    && st.status == Some(status)
    && st.debit.attempts == d && st.credit.attempts == c && st.compensation.attempts == k
    && (status == DebitInProgress && 0 < d < |es| && es[d].TransferStarted? ==>
        st.debit.tx == Some(es[d].transactionId))
    && (status == CompensationInProgress && es[|es|-1].TransferStarted? ==>
        st.compensation.tx == Some(es[|es|-1].transactionId))
    && (status in {Failed, CompensationInProgress, Compensated} ==>
          var f := if c == 0 then 1 + d else 2 + d + c;
          f < |es| && es[f].TransferFailed? && st.failure == Some((es[f].reason, es[f].stage)))
  }

  // The parts of the pattern look only at the events they name.
  lemma StartsLocal(es: seq<Event>, e: Event, lo: nat, hi: nat, leg: Leg)
    requires lo <= hi <= |es|
    ensures Starts(es + [e], lo, hi, leg) == Starts(es, lo, hi, leg)
    ensures Starts(es + [e], lo, |es| + 1, leg) <==>
              (Starts(es, lo, |es|, leg) && e.TransferStarted? && e.leg == leg && e.attempts == |es| - lo + 1)
  {
    var all := es + [e];
    assert forall i :: 0 <= i < |es| ==> es[i] == all[i];
    assert all[|es|] == e;
  }

  lemma DebitedLocal(es: seq<Event>, e: Event, d: nat, c: nat)
    requires 2 + d + c <= |es|
    ensures DebitedPart(es + [e], d, c) == DebitedPart(es, d, c)
  {
    StartsLocal(es, e, 1, 1 + d, Debit);
    StartsLocal(es, e, 2 + d, 2 + d + c, Credit);
  }

  lemma FailureLocal(es: seq<Event>, e: Event, d: nat, c: nat, f: nat)
    requires f < |es|
    ensures FailurePart(es + [e], d, c, f) == FailurePart(es, d, c, f)
  {
    if c == 0 && f == 1 + d {
      StartsLocal(es, e, 1, 1 + d, Debit);
    } else if c != 0 && f == 2 + d + c {
      DebitedLocal(es, e, d, c);
    }
  }

  // The whole pattern with the counts the replayed state holds.
  predicate Described(id: string, es: seq<Event>, st: State) {
    && st.status.Some?
    && Lifecycle(id, es, st.status.value, st.debit.attempts, st.credit.attempts, st.compensation.attempts)
    && Reports(es, st, st.status.value, st.debit.attempts, st.credit.attempts, st.compensation.attempts)
  }

  // Every stream of accepted commands follows the life cycle, and its attempt
  // counters are the numbers of start events.
  lemma {:induction false} AcceptedFollowsLifecycle(id: string, es: seq<Event>)
    requires id != "" && Accepted(id, es) && es != []
    ensures Described(id, es, Fold(es))
    decreases |es|
  {
    var init, e := es[..|es|-1], es[|es|-1];
    assert es == init + [e];
    if init != [] {
      AcceptedFollowsLifecycle(id, init);
      var cmd :| AddressedTo(id, cmd) && Decide(Fold(init), cmd) == Success(e);
      if cmd.Start? {
        StartKeepsPattern(id, init, Fold(init), cmd.leg, e);
      } else {
        MarkKeepsPattern(id, init, Fold(init), cmd, e);
      }
    }
  }

  lemma StartKeepsPattern(id: string, es: seq<Event>, st: State, leg: Leg, e: Event)
    requires id != "" && Described(id, es, st)
    requires e.TransferStarted? && Decide(st, Start(leg, e.transactionId)) == Success(e)
    ensures Described(id, es + [e], When(st, e))
  {
    match leg
    case Debit => StartsLocal(es, e, 1, |es|, Debit);
    case Credit => CreditKeepsPattern(id, es, st, e);
    case Compensation => CompensationKeepsPattern(id, es, st, e);
  }

  lemma CreditKeepsPattern(id: string, es: seq<Event>, st: State, e: Event)
    requires id != "" && Described(id, es, st)
    requires e.TransferStarted? && Decide(st, Start(Credit, e.transactionId)) == Success(e)
    ensures Described(id, es + [e], When(st, e))
  {
    var d, c := st.debit.attempts, st.credit.attempts;
    DebitedLocal(es, e, d, c);
    StartsLocal(es, e, 1, 1 + d, Debit);
    StartsLocal(es, e, 2 + d, |es|, Credit);
  }

  lemma CompensationKeepsPattern(id: string, es: seq<Event>, st: State, e: Event)
    requires id != "" && Described(id, es, st)
    requires e.TransferStarted? && Decide(st, Start(Compensation, e.transactionId)) == Success(e)
    ensures Described(id, es + [e], When(st, e))
  {
    var d, c := st.debit.attempts, st.credit.attempts;
    var f := if c == 0 then 1 + d else 2 + d + c;
    FailureLocal(es, e, d, c, f);
    StartsLocal(es, e, f + 1, |es|, Compensation);
  }

  lemma MarkKeepsPattern(id: string, es: seq<Event>, st: State, cmd: Command, e: Event)
    requires id != "" && Described(id, es, st)
    requires !cmd.Start? && AddressedTo(id, cmd) && Decide(st, cmd) == Success(e)
    ensures Described(id, es + [e], When(st, e))
  {
    var d, c, k := st.debit.attempts, st.credit.attempts, st.compensation.attempts;
    if c == 0 {
      StartsLocal(es, e, 1, 1 + d, Debit);
    }
    if st.status == Some(CreditInProgress) {
      DebitedLocal(es, e, d, c);
    }
    if cmd.MarkDebited? {
      StartsLocal(es, e, 1, 1 + d, Debit);
    }
    if cmd.MarkCompensated? {
      var f := if c == 0 then 1 + d else 2 + d + c;
      FailureLocal(es, e, d, c, f);
      StartsLocal(es, e, f + 1, f + 1 + k, Compensation);
    }
  }

  // Conversely every stream of that form is one the commands can produce.
  lemma {:induction false} LifecycleIsAccepted(id: string, es: seq<Event>, status: Status, d: nat, c: nat, k: nat)
    requires id != "" && Lifecycle(id, es, status, d, c, k)
    ensures Accepted(id, es) && Reports(es, Fold(es), status, d, c, k)
    decreases |es|
  {
    var init, e := es[..|es|-1], es[|es|-1];
    assert es == init + [e];
    if status == Initiated {
      var cmd := Initiate(id, e.info.source, e.info.destination, Some(e.info.amount), e.info.currency);
      assert init == [] && Decide(Fold(init), cmd) == Success(e);
      FoldSnoc(init, e);
    } else {
      var (prev, cmd, d', c', k') := LastCommand(es, status, d, c, k);
      LifecycleShrinks(id, init, e, status, d, c, k);
      LifecycleIsAccepted(id, init, prev, d', c', k');
      LastCommandRaises(id, init, e, status, d, c, k);
    }
    AcceptedSnoc(id, init, e);
  }

  // The status and counts before the last event, and the command that raised it.
  function LastCommand(es: seq<Event>, status: Status, d: nat, c: nat, k: nat): (Status, Command, nat, nat, nat)
    requires es != []
  {
    var e := es[|es|-1];
    var tx := if e.TransferStarted? then e.transactionId else "";
    match status
    case Initiated => (Initiated, MarkDebited, d, c, k)
    case DebitInProgress =>
      (if d <= 1 then Initiated else DebitInProgress, Start(Debit, tx), if d == 0 then 0 else d - 1, c, k)
    case Debited => (DebitInProgress, MarkDebited, d, c, k)
    case CreditInProgress =>
      (if c <= 1 then Debited else CreditInProgress, Start(Credit, tx), d, if c == 0 then 0 else c - 1, k)
    case Completed => (CreditInProgress, Complete, d, c, k)
    case Failed =>
      (if c == 0 then DebitInProgress else CreditInProgress,
       if e.TransferFailed? then Fail(e.reason, e.stage) else MarkDebited, d, c, k)
    case CompensationInProgress =>
      (if k <= 1 then Failed else CompensationInProgress, Start(Compensation, tx), d, c, if k == 0 then 0 else k - 1)
    case Compensated => (CompensationInProgress, MarkCompensated, d, c, k)
  }

  lemma LifecycleShrinks(id: string, init: seq<Event>, e: Event, status: Status, d: nat, c: nat, k: nat)
    requires status != Initiated && Lifecycle(id, init + [e], status, d, c, k)
    ensures var (prev, _, d', c', k') := LastCommand(init + [e], status, d, c, k);
            Lifecycle(id, init, prev, d', c', k')
  {
    var f := if c == 0 then 1 + d else 2 + d + c;
    if status in {DebitInProgress, Debited} || (status == Failed && c == 0) {
      StartsLocal(init, e, 1, if status == DebitInProgress then d else 1 + d, Debit);
    } else if status in {CompensationInProgress, Compensated} {
      FailureLocal(init, e, d, c, f);
      StartsLocal(init, e, f + 1, if status == Compensated then f + 1 + k else f + k, Compensation);
    } else if status == CreditInProgress {
      StartsLocal(init, e, 1, 1 + d, Debit);
      StartsLocal(init, e, 2 + d, 1 + d + c, Credit);
    } else {
      DebitedLocal(init, e, d, c);
    }
  }

  lemma LastCommandRaises(id: string, init: seq<Event>, e: Event, status: Status, d: nat, c: nat, k: nat)
    requires id != "" && status != Initiated && Lifecycle(id, init + [e], status, d, c, k)
    requires var (prev, _, d', c', k') := LastCommand(init + [e], status, d, c, k);
             Lifecycle(id, init, prev, d', c', k') && Reports(init, Fold(init), prev, d', c', k')
    ensures Raised(id, Fold(init), e)
    ensures Reports(init + [e], Fold(init + [e]), status, d, c, k)
  {
    var cmd := LastCommand(init + [e], status, d, c, k).1;
    LastCommandDecides(id, init, e, status, d, c, k, Fold(init));
    assert AddressedTo(id, cmd);
    FoldSnoc(init, e);
    LastEventReports(id, init, e, status, d, c, k, Fold(init));
  }

  lemma LastCommandDecides(id: string, init: seq<Event>, e: Event, status: Status, d: nat, c: nat, k: nat, st: State)
    requires id != "" && status != Initiated && Lifecycle(id, init + [e], status, d, c, k)
    requires var (prev, _, d', c', k') := LastCommand(init + [e], status, d, c, k);
             Lifecycle(id, init, prev, d', c', k') && Reports(init, st, prev, d', c', k')
    ensures Decide(st, LastCommand(init + [e], status, d, c, k).1) == Success(e)
  {
  }

  lemma LastEventReports(id: string, init: seq<Event>, e: Event, status: Status, d: nat, c: nat, k: nat, st: State)
    requires id != "" && status != Initiated && Lifecycle(id, init + [e], status, d, c, k)
    requires var (prev, _, d', c', k') := LastCommand(init + [e], status, d, c, k);
             Lifecycle(id, init, prev, d', c', k') && Reports(init, st, prev, d', c', k')
    ensures Reports(init + [e], When(st, e), status, d, c, k)
  {
  }

  // A non-empty stream accepts nothing more exactly when it is Completed,
  // Compensated, or Failed before any credit was attempted.
  lemma TerminalStates(id: string, es: seq<Event>)
    requires id != "" && Accepted(id, es) && es != []
    ensures (forall e :: !Raised(id, Fold(es), e)) <==>
              var st := Fold(es);
              st.status == Some(Completed) || st.status == Some(Compensated)
              || (st.status == Some(Failed) && st.FailedAt(AtDebit))
  {
    AcceptedFollowsLifecycle(id, es);
    var st := Fold(es);
    var leg := if MayStart(Debit, st.status) then Debit
               else if MayStart(Credit, st.status) then Credit else Compensation;
    var next := TransferStarted(leg, "tx", st.Leg(leg).attempts + 1);
    assert Decide(st, Start(leg, "tx")).Success? ==>
        Decide(st, Start(leg, "tx")) == Success(next) && Raised(id, st, next);
  }

  // ---- What a stream says of a leg, and what is refused ----

  // The last start of the leg.
  function LastStart(es: seq<Event>, leg: Leg): (r: Option<Event>)
    ensures r.Some? ==> r.value.TransferStarted? && r.value.leg == leg && r.value in es
  {
    if es == [] then None
    else if es[|es|-1].TransferStarted? && es[|es|-1].leg == leg then Some(es[|es|-1])
    else LastStart(es[..|es|-1], leg)
  }

  // A leg has the transaction id and the attempt number of its last start, whatever
  // became of it.
  lemma {:induction false} StreamSaysOfLeg(es: seq<Event>, leg: Leg)
    ensures Fold(es).Leg(leg) ==
              match LastStart(es, leg)
              case None => LegState(None, 0)
              case Some(start) => LegState(Some(start.transactionId), start.attempts)
    decreases |es|
  {
    if es != [] {
      StreamSaysOfLeg(es[..|es|-1], leg);
    }
  }

  // The statuses from which a command may go on.
  function From(cmd: Command): set<Option<Status>> {
    match cmd
    case Initiate(_, _, _, _, _) => {}
    case Start(Debit, _) => {Some(Initiated), Some(DebitInProgress)}
    case Start(Credit, _) => {Some(Debited), Some(CreditInProgress)}
    case Start(Compensation, _) => {Some(Failed), Some(CompensationInProgress)}
    case MarkDebited => {Some(DebitInProgress)}
    case Complete => {Some(CreditInProgress)}
    case Fail(_, _) => {Some(DebitInProgress), Some(CreditInProgress)}
    case MarkCompensated => {Some(CompensationInProgress)}
  }

  // The reason applies to the command in this state, and none that is tested before it.
  predicate Refused(st: State, cmd: Command, why: Error) {
    var known := st.info.Some? && st.info.value.transferId != "";
    match why
    case AlreadyExists => cmd.Initiate? && known
    case SameAccount => cmd.Initiate? && !known && cmd.source == cmd.destination
    case InvalidMoney => cmd.Initiate? && !known && cmd.source != cmd.destination && cmd.amount == None
    case NotPositive =>
      && cmd.Initiate? && !known && cmd.source != cmd.destination
      && cmd.amount.Some? && cmd.amount.value <= 0
    case WrongStatus => !cmd.Initiate? && st.status !in From(cmd)
    case ReasonRequired => cmd.Fail? && st.status in From(cmd) && cmd.reason == ""
    case NotCompensable =>
      && cmd.Start? && cmd.leg == Compensation && st.status in From(cmd)
      && (st.failure.None? || st.failure.value.1 == AtDebit)
  }

  // The event a command is for: a start is the next attempt of its leg, and the mark of a
  // leg has the id of the leg's last start.
  predicate Fulfils(es: seq<Event>, cmd: Command, e: Event) {
    match e
    case TransferInitiated(info) =>
      cmd == Initiate(info.transferId, info.source, info.destination, Some(info.amount), info.currency)
    case TransferStarted(leg, tx, n) =>
      && cmd == Start(leg, tx)
      && n == 1 + (if LastStart(es, leg).Some? then LastStart(es, leg).value.attempts else 0)
    case TransferDebited(tx) => cmd == MarkDebited && Names(LastStart(es, Debit), tx)
    case TransferCompleted => cmd == Complete
    case TransferFailed(reason, stage) => cmd == Fail(reason, stage)
    case TransferCompensated(tx) => cmd == MarkCompensated && Names(LastStart(es, Compensation), tx)
  }

  predicate Names(start: Option<Event>, tx: Option<string>) {
    if start.Some? then start.value.TransferStarted? && tx == Some(start.value.transactionId) else tx == None
  }

  // A command on a stream is refused for a reason exactly when that reason applies, and
  // otherwise raises its own event.
  lemma RefusedIff(es: seq<Event>, cmd: Command, why: Error)
    ensures Decide(Fold(es), cmd) == Failure(why) <==> Refused(Fold(es), cmd, why)
    ensures Decide(Fold(es), cmd).Success? ==> Fulfils(es, cmd, Decide(Fold(es), cmd).value)
  {
    StreamSaysOfLeg(es, Debit);
    StreamSaysOfLeg(es, Credit);
    StreamSaysOfLeg(es, Compensation);
  }
}
