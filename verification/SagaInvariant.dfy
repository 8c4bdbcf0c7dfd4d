// The status of a transfer agrees with the money events in the account streams.
//
// This needs more than the records: an error that the transfer's own id or the
// infrastructure causes must not look like a rejection by the domain.
module SagaInvariant {
  import opened Wrappers
  import opened Sums
  import opened Saga
  import opened SagaBase
  import opened SagaLegs
  import A = Accounts
  import T = Transfers
  import R = Registry

  // ---- What is assumed of a schedule and of a transfer id ----

  // No failure of the infrastructure looks like a rejection.
  predicate CalmAction(cfg: Config, a: Action) {
    a.Step? && !a.o.Done? ==> !cfg.Terminal(Infrastructure(a.o.text))
  }

  predicate Calm(cfg: Config, schedule: seq<Action>) { forall a :: a in schedule ==> CalmAction(cfg, a) }

  // Nor does an error whose message quotes the transfer's id or status.
  ghost predicate Tame(cfg: Config, t: string) {
    && (forall leg, why :: leg != T.Compensation ==> !cfg.Terminal(Taken(LegId(t, leg), why)))
    && !cfg.Terminal(TransferConflict(t))
    && (forall leg, status :: leg != T.Compensation ==> !cfg.Terminal(WrongStatus(leg, status)))
  }

  // ---- How far a transfer has come ----

  // A coordinator may work on the leg.
  predicate Reached(leg: Leg, st: T.State) {
    match leg
    case Debit => st.status.Some?
    case Credit =>
      st.status in {Some(T.Debited), Some(T.CreditInProgress), Some(T.Completed),
                    Some(T.CompensationInProgress), Some(T.Compensated)}
      || (st.status == Some(T.Failed) && st.FailedAt(T.AtCredit))
    case Compensation =>
      st.status in {Some(T.CompensationInProgress), Some(T.Compensated)}
      || (st.status == Some(T.Failed) && st.FailedAt(T.AtCredit))
  }

  // The start of the leg is recorded in the stream.
  predicate Started(leg: Leg, st: T.State) {
    match leg
    case Debit => st.status.Some? && st.status != Some(T.Initiated)
    case Credit => Reached(T.Credit, st) && st.status != Some(T.Debited)
    case Compensation => st.status in {Some(T.CompensationInProgress), Some(T.Compensated)}
  }

  // No money event carries the id and, the record being terminal, none ever will.
  ghost predicate Dead(store: Store, tx: string) {
    Open(store, tx, R.FailedTerminal) && Moves(store.accounts, tx) == 0
  }

  // How many money events each leg can have, by status. A leg is closed when its
  // record is terminal.
  predicate Tally(st: T.State, debits: int, credits: int, reversals: int, debitClosed: bool, creditClosed: bool) {
    match st.status
    case None => debits == credits == reversals == 0
    case Some(Initiated) => debits == credits == reversals == 0
    case Some(DebitInProgress) => 0 <= debits <= 1 && credits == reversals == 0
    case Some(Debited) => debits == 1 && credits == reversals == 0
    case Some(CreditInProgress) => debits == 1 && 0 <= credits <= 1 && reversals == 0
    case Some(Completed) => debits == credits == 1 && reversals == 0
    case Some(Failed) =>
      if st.FailedAt(T.AtCredit) then debits == 1 && credits == reversals == 0 && creditClosed
      else debits == credits == reversals == 0 && debitClosed
    case Some(CompensationInProgress) => debits == 1 && credits == 0 && creditClosed && 0 <= reversals <= 1
    case Some(Compensated) => debits == 1 && credits == 0 && creditClosed && reversals == 1
  }

  // Status st of transfer t and the money agree.
  ghost predicate Agrees(store: Store, t: string, st: T.State) {
    Tally(st, Moves(store.accounts, LegId(t, T.Debit)), Moves(store.accounts, LegId(t, T.Credit)),
          Moves(store.accounts, LegId(t, T.Compensation)),
          Open(store, LegId(t, T.Debit), R.FailedTerminal), Open(store, LegId(t, T.Credit), R.FailedTerminal))
  }

  // What a worker on one of t's legs may rely on, st being t's state.
  ghost predicate PlaceOk(store: Store, t: string, st: T.State, pc: Pc) {
    match pc
    case Entering(u, leg, _) => u == t ==> Reached(leg, st)
    case Starting(u, leg, _, _, _) => u == t ==> Reached(leg, st)
    case Finishing(u, leg, _) => u == t ==> Started(leg, st) && Moves(store.accounts, LegId(t, leg)) == 1
    case Failing(u, leg, _, _) => u == t ==> Started(leg, st) && Dead(store, LegId(t, leg))
    case _ =>
      JobAt(pc).Some? && JobAt(pc).value.owner.TransferLeg? && JobAt(pc).value.owner.transferId == t ==>
        Started(JobAt(pc).value.owner.leg, st)
  }

  ghost predicate AgreementOk(store: Store, t: string) {
    Agrees(store, t, T.Fold(store.Transfer(t)))
  }

  ghost predicate Agreement(s: System, t: string) {
    && AgreementOk(s.store, t)
    && (forall w {:trigger s.At(w)} :: PlaceOk(s.store, t, T.Fold(s.store.Transfer(t)), s.At(w)))
  }

  // ---- The tally after a change ----

  // A first money event of a leg that is started and not closed fits every status.
  lemma TallyHit(st: T.State, leg: Leg, debits: int, credits: int, reversals: int, debitClosed: bool,
      creditClosed: bool)
    requires Tally(st, debits, credits, reversals, debitClosed, creditClosed) && Started(leg, st)
    requires match leg
             case Debit => debits == 0 && !debitClosed
             case Credit => credits == 0 && !creditClosed
             case Compensation => reversals == 0
    ensures Tally(st, if leg.Debit? then 1 else debits, if leg.Credit? then 1 else credits,
                  if leg.Compensation? then 1 else reversals, debitClosed, creditClosed)
  {
  }

  // Closing a leg never contradicts a tally.
  lemma TallyCloses(st: T.State, debits: int, credits: int, reversals: int, x: bool, y: bool, x': bool, y': bool)
    requires Tally(st, debits, credits, reversals, x, y) && (x ==> x') && (y ==> y')
    ensures Tally(st, debits, credits, reversals, x', y')
  {
  }

  // A first money event of a leg counts for that leg alone.
  lemma LegCounts(store: Store, id: string, e: A.Event, t: string, leg: Leg)
    requires e.IsMoney() && e.transactionId == LegId(t, leg) && Moves(store.accounts, LegId(t, leg)) == 0
    ensures var after := store.AppendAccount(id, e).accounts;
            && Moves(after, LegId(t, T.Debit)) == (if leg.Debit? then 1 else Moves(store.accounts, LegId(t, T.Debit)))
            && Moves(after, LegId(t, T.Credit)) ==
                (if leg.Credit? then 1 else Moves(store.accounts, LegId(t, T.Credit)))
            && Moves(after, LegId(t, T.Compensation)) ==
                 (if leg.Compensation? then 1 else Moves(store.accounts, LegId(t, T.Compensation)))
  {
    OtherLegs(t, leg);
    MovesAppend(store, id, e, LegId(t, T.Debit));
    MovesAppend(store, id, e, LegId(t, T.Credit));
    MovesAppend(store, id, e, LegId(t, T.Compensation));
  }

  lemma OtherLegs(t: string, leg: Leg)
    ensures forall other :: LegId(t, other) == LegId(t, leg) ==> other == leg
  {
    forall other | LegId(t, other) == LegId(t, leg) ensures other == leg {
      LegIdInjective(t, other, t, leg);
    }
  }

  // An event without an id of t's legs.
  lemma StrangeEvent(store: Store, id: string, e: A.Event, t: string)
    requires AgreementOk(store, t) && forall leg :: Hit(e, LegId(t, leg)) == 0
    ensures AgreementOk(store.AppendAccount(id, e), t)
  {
    MovesAppend(store, id, e, LegId(t, T.Debit));
    MovesAppend(store, id, e, LegId(t, T.Credit));
    MovesAppend(store, id, e, LegId(t, T.Compensation));
  }

  lemma MovedAgrees(cfg: Config, store: Store, pc: Pc, e: A.Event, t: string)
    requires PcOk(cfg, store, pc) && pc.Moving? && OwnPc(pc, t)
    requires A.Decide(A.Fold(store.Account(pc.job.input.account)), pc.job.Command()) == Success(e)
    requires AgreementOk(store, t) && PlaceOk(store, t, T.Fold(store.Transfer(t)), pc)
    ensures AgreementOk(store.AppendAccount(pc.job.input.account, e), t)
  {
    var id, job, st := pc.job.input.account, pc.job, T.Fold(store.Transfer(t));
    MoneyEvent(A.Fold(store.Account(id)), job, e);
    if job.owner.TransferLeg? && job.owner.transferId == t {
      LegCounts(store, id, e, t, job.owner.leg);
      TallyHit(st, job.owner.leg, Moves(store.accounts, LegId(t, T.Debit)), Moves(store.accounts, LegId(t, T.Credit)),
               Moves(store.accounts, LegId(t, T.Compensation)),
               Open(store, LegId(t, T.Debit), R.FailedTerminal), Open(store, LegId(t, T.Credit), R.FailedTerminal));
    } else {
      StrangeEvent(store, id, e, t);
    }
  }

  // The event takes the transfer forward: nothing reached or started is lost.
  predicate Forward(st: T.State, st': T.State) {
    && (forall leg :: Reached(leg, st) ==> Reached(leg, st'))
    && (forall leg :: Started(leg, st) ==> Started(leg, st'))
  }

  function CountOf(leg: Leg, debits: int, credits: int, reversals: int): int {
    match leg
    case Debit => debits
    case Credit => credits
    case Compensation => reversals
  }

  // Starting a leg that has been reached, ...
  lemma TallyStart(t: string, st: T.State, leg: Leg, tx: string, e: T.Event,
      debits: int, credits: int, reversals: int, debitClosed: bool, creditClosed: bool)
    requires StateOk(t, st) && Tally(st, debits, credits, reversals, debitClosed, creditClosed) && Reached(leg, st)
    requires T.Decide(st, T.Start(leg, tx)) == Success(e)
    ensures Tally(T.When(st, e), debits, credits, reversals, debitClosed, creditClosed) && Forward(st, T.When(st, e))
  {
  }

  // ... closing a leg whose money has moved ...
  lemma TallyFinish(t: string, st: T.State, leg: Leg, e: T.Event,
      debits: int, credits: int, reversals: int, debitClosed: bool, creditClosed: bool)
    requires StateOk(t, st) && Tally(st, debits, credits, reversals, debitClosed, creditClosed)
    requires CountOf(leg, debits, credits, reversals) == 1
    requires T.Decide(st, FinishCommand(leg)) == Success(e)
    ensures Tally(T.When(st, e), debits, credits, reversals, debitClosed, creditClosed) && Forward(st, T.When(st, e))
  {
  }

  // ... and failing a leg whose money can never move take the transfer forward.
  lemma TallyFail(t: string, st: T.State, leg: Leg, reason: string, e: T.Event,
      debits: int, credits: int, reversals: int, debitClosed: bool, creditClosed: bool)
    requires StateOk(t, st) && Tally(st, debits, credits, reversals, debitClosed, creditClosed)
    requires leg != T.Compensation && Started(leg, st) && CountOf(leg, debits, credits, reversals) == 0
    requires if leg.Debit? then debitClosed else creditClosed
    requires T.Decide(st, T.Fail(reason, FailureStage(leg))) == Success(e)
    ensures Tally(T.When(st, e), debits, credits, reversals, debitClosed, creditClosed) && Forward(st, T.When(st, e))
  {
  }

  lemma CommandAgrees(store: Store, t: string, st: T.State, pc: Pc, e: T.Event)
    requires TransferCommand(pc).Some? && pc.t == t && (pc.Failing? ==> pc.leg != T.Compensation)
    requires StateOk(t, st) && Agrees(store, t, st) && PlaceOk(store, t, st, pc)
    requires T.Decide(st, TransferCommand(pc).value) == Success(e)
    ensures Agrees(store, t, T.When(st, e)) && Forward(st, T.When(st, e))
  {
    var d, c, k := Moves(store.accounts, LegId(t, T.Debit)), Moves(store.accounts, LegId(t, T.Credit)),
                   Moves(store.accounts, LegId(t, T.Compensation));
    var x, y := Open(store, LegId(t, T.Debit), R.FailedTerminal), Open(store, LegId(t, T.Credit), R.FailedTerminal);
    match pc
    case Starting(_, leg, tx, _, _) => TallyStart(t, st, leg, tx, e, d, c, k, x, y);
    case Finishing(_, leg, _) => TallyFinish(t, st, leg, e, d, c, k, x, y);
    case Failing(_, leg, reason, _) => TallyFail(t, st, leg, reason, e, d, c, k, x, y);
    case _ =>
  }

  lemma TransferredAgrees(cfg: Config, store: Store, pc: Pc, e: T.Event, t: string)
    requires PcOk(cfg, store, pc) && May(store, pc, Transferred(t, e))
    requires AgreementOk(store, t) && PlaceOk(store, t, T.Fold(store.Transfer(t)), pc)
    ensures AgreementOk(store.AppendTransfer(t, e), t)
    ensures Forward(T.Fold(store.Transfer(t)), T.Fold(store.AppendTransfer(t, e).Transfer(t)))
  {
    T.FoldSnoc(store.Transfer(t), e);
    CommandAgrees(store, t, T.Fold(store.Transfer(t)), pc, e);
  }

  // Records become terminal, and stay so.
  lemma RecordedAgrees(cfg: Config, store: Store, pc: Pc, tx: string, record: R.Record, t: string)
    requires MayRecord(store, pc, tx, record) && AgreementOk(store, t)
    ensures AgreementOk(Changed(store, Recorded(tx, record)), t)
  {
    var store' := Changed(store, Recorded(tx, record));
    var d, c := LegId(t, T.Debit), LegId(t, T.Credit);
    assert store'.Transfer(t) == store.Transfer(t);
    TallyCloses(T.Fold(store.Transfer(t)), Moves(store.accounts, d), Moves(store.accounts, c),
                Moves(store.accounts, LegId(t, T.Compensation)),
                Open(store, d, R.FailedTerminal), Open(store, c, R.FailedTerminal),
                Open(store', d, R.FailedTerminal), Open(store', c, R.FailedTerminal));
  }

  lemma ChangeAgrees(cfg: Config, store: Store, pc: Pc, change: Change, t: string)
    requires PcOk(cfg, store, pc) && May(store, pc, change) && OwnPc(pc, t)
    requires AgreementOk(store, t) && PlaceOk(store, t, T.Fold(store.Transfer(t)), pc)
    ensures AgreementOk(Changed(store, change), t)
    ensures Forward(T.Fold(store.Transfer(t)), T.Fold(Changed(store, change).Transfer(t)))
  {
    match change
    case Nothing =>
    case Moved(_, e) => MovedAgrees(cfg, store, pc, e, t);
    case Transferred(u, e) =>
      if u == t {
        TransferredAgrees(cfg, store, pc, e, t);
      } else {
        assert store.AppendTransfer(u, e).Transfer(t) == store.Transfer(t);
      }
    case Recorded(tx, record) => RecordedAgrees(cfg, store, pc, tx, record, t);
  }

  // ---- The workers' places after a change ----

  // An id whose money has moved, or never will, keeps its count and its dead record.
  lemma SettledIdStays(cfg: Config, store: Store, pc: Pc, change: Change, tx: string)
    requires PcOk(cfg, store, pc) && May(store, pc, change)
    ensures Moves(store.accounts, tx) == 1 ==> Moves(Changed(store, change).accounts, tx) == 1
    ensures Dead(store, tx) ==> Dead(Changed(store, change), tx)
  {
    if change.Moved? {
      MoneyEvent(A.Fold(store.Account(change.account)), pc.job, change.money);
      MovesAppend(store, change.account, change.money, tx);
    }
  }

  lemma ChangeKeepsPlace(cfg: Config, store: Store, pc: Pc, change: Change, t: string, other: Pc)
    requires PcOk(cfg, store, pc) && May(store, pc, change)
    requires Forward(T.Fold(store.Transfer(t)), T.Fold(Changed(store, change).Transfer(t)))
    requires PlaceOk(store, t, T.Fold(store.Transfer(t)), other)
    ensures PlaceOk(Changed(store, change), t, T.Fold(Changed(store, change).Transfer(t)), other)
  {
    if other.Finishing? || other.Failing? {
      SettledIdStays(cfg, store, pc, change, LegId(t, other.leg));
    }
  }

  // ---- Where the worker goes ----

  lemma DispatchReaches(t: string, st: T.State)
    requires st == T.BLANK || StateOk(t, st)
    ensures Dispatch(t, st).Entering? ==> Reached(Dispatch(t, st).leg, st)
    ensures Dispatch(t, st).Entering? || Dispatch(t, st).Idle?
  {
  }

  lemma StartedAfter(st: T.State, leg: Leg, tx: string, e: T.Event)
    requires T.Decide(st, T.Start(leg, tx)) == Success(e)
    ensures Started(leg, T.When(st, e))
  {
  }

  lemma EnteringPlace(cfg: Config, store: Store, pc: Pc, o: Outcome, t: string)
    requires PcOk(cfg, store, pc) && pc.Entering? && PlaceOk(store, t, T.Fold(store.Transfer(t)), pc)
    ensures PlaceOk(store, t, T.Fold(store.Transfer(t)), Effect(cfg, store, pc, o).1)
  {
  }

  lemma StartingPlace(cfg: Config, store: Store, pc: Pc, o: Outcome, t: string)
    requires PcOk(cfg, store, pc) && pc.Starting?
    requires PlaceOk(store, t, T.Fold(store.Transfer(t)), pc)
    ensures var (change, pc') := Effect(cfg, store, pc, o);
            PlaceOk(Changed(store, change), t, T.Fold(Changed(store, change).Transfer(t)), pc')
  {
    var stream := store.Transfer(pc.t);
    TransferRoundFacts(stream, T.Start(pc.leg, pc.tx), pc.write, o);
    var round := TransferRound(stream, T.Start(pc.leg, pc.tx), pc.write, o);
    if round.Wrote? {
      StartedAfter(T.Fold(stream), pc.leg, pc.tx, round.event);
      T.FoldSnoc(stream, round.event);
    }
  }

  // After an accepted call, the money of the leg having moved.
  lemma AcceptedPlace(store: Store, t: string, st: T.State, pc: Pc, job: Job)
    requires JobAt(pc) == Some(job) && PlaceOk(store, t, st, pc) && JobAt(pc).Some?
    requires job.owner.TransferLeg? ==> job.Tx() == LegId(job.owner.transferId, job.owner.leg)
    requires Moves(store.accounts, job.Tx()) == 1
    ensures PlaceOk(store, t, st, AfterAccepted(job))
  {
  }

  // After an error that does not look terminal, or that leaves the leg dead.
  lemma ErrorPlace(cfg: Config, store: Store, t: string, st: T.State, owner: Owner, f: Failure)
    requires owner.TransferLeg? && owner.transferId == t && owner.leg != T.Compensation && cfg.Terminal(f) ==>
               Started(owner.leg, st) && Dead(store, LegId(t, owner.leg))
    ensures PlaceOk(store, t, st, AfterError(cfg, owner, f))
  {
  }

  lemma ReservingPlace(cfg: Config, store: Store, pc: Pc, o: Outcome, t: string)
    requires PcOk(cfg, store, pc) && pc.Reserving? && RecordOk(store, pc.job.Tx())
    requires Tame(cfg, t) && (!o.Done? ==> !cfg.Terminal(Infrastructure(o.text)))
    requires PlaceOk(store, t, T.Fold(store.Transfer(t)), pc)
    ensures var (change, pc') := Effect(cfg, store, pc, o);
            PlaceOk(Changed(store, change), t, T.Fold(Changed(store, change).Transfer(t)), pc')
  {
    var job, st := pc.job, T.Fold(store.Transfer(t));
    var store' := Changed(store, Effect(cfg, store, pc, o).0);
    assert store'.Transfer(t) == store.Transfer(t);
    var verdict := R.Admit(job.input, R.TryReserve(store.registry, job.input), job.owner.TransferLeg?);
    if !o.Done? {
      ErrorPlace(cfg, store', t, st, job.owner, Infrastructure(o.text));
    } else if verdict.Refuse? {
      assert job.owner.TransferLeg? ==> job.Tx() == LegId(job.owner.transferId, job.owner.leg);
      ErrorPlace(cfg, store', t, st, job.owner, Taken(job.Tx(), verdict.why));
    } else if verdict.Cached? {
      AcceptedPlace(store', t, st, pc, job);
    }
  }

  lemma MarkingPlace(cfg: Config, store: Store, pc: Pc, o: Outcome, t: string)
    requires PcOk(cfg, store, pc) && (pc.MarkingCompleted? || pc.MarkingFailed?)
    requires CalmPlace(cfg, pc) && (!o.Done? ==> !cfg.Terminal(Infrastructure(o.text)))
    requires PlaceOk(store, t, T.Fold(store.Transfer(t)), pc)
    ensures var (change, pc') := Effect(cfg, store, pc, o);
            PlaceOk(Changed(store, change), t, T.Fold(Changed(store, change).Transfer(t)), pc')
  {
    var job, st := pc.job, T.Fold(store.Transfer(t));
    var store' := Changed(store, Effect(cfg, store, pc, o).0);
    assert store'.Transfer(t) == store.Transfer(t);
    if !o.Done? {
      ErrorPlace(cfg, store', t, st, job.owner, Infrastructure(o.text));
    } else if pc.MarkingCompleted? {
      AcceptedPlace(store', t, st, pc, job);
    } else {
      ErrorPlace(cfg, store', t, st, job.owner, pc.error);
    }
  }

  // A worker that has failed for a reason of the infrastructure knows a calm text.
  predicate CalmPlace(cfg: Config, pc: Pc) {
    pc.MarkingFailed? && pc.error.Infrastructure? ==> !cfg.Terminal(pc.error)
  }

  lemma MovingPlace(cfg: Config, store: Store, pc: Pc, o: Outcome, t: string)
    requires pc.Moving? && PlaceOk(store, t, T.Fold(store.Transfer(t)), pc)
    ensures var (change, pc') := Effect(cfg, store, pc, o);
            PlaceOk(Changed(store, change), t, T.Fold(Changed(store, change).Transfer(t)), pc')
  {
    var store' := Changed(store, Effect(cfg, store, pc, o).0);
    assert store'.Transfer(t) == store.Transfer(t);
  }

  lemma ClosingPlace(cfg: Config, store: Store, pc: Pc, o: Outcome, t: string)
    requires PcOk(cfg, store, pc) && (pc.Finishing? || pc.Failing?)
    requires Tame(cfg, t) && (!o.Done? ==> !cfg.Terminal(Infrastructure(o.text)))
    requires PlaceOk(store, t, T.Fold(store.Transfer(t)), pc)
    ensures var (change, pc') := Effect(cfg, store, pc, o);
            PlaceOk(Changed(store, change), t, T.Fold(Changed(store, change).Transfer(t)), pc')
  {
    var stream, cmd := store.Transfer(pc.t), TransferCommand(pc).value;
    TransferRoundFacts(stream, cmd, pc.write, o);
  }

  lemma EffectPlace(cfg: Config, store: Store, pc: Pc, o: Outcome, t: string)
    requires PcOk(cfg, store, pc) && StoreOk(store) && CalmPlace(cfg, pc)
    requires Tame(cfg, t) && (!o.Done? ==> !cfg.Terminal(Infrastructure(o.text)))
    requires PlaceOk(store, t, T.Fold(store.Transfer(t)), pc)
    ensures var (change, pc') := Effect(cfg, store, pc, o);
            PlaceOk(Changed(store, change), t, T.Fold(Changed(store, change).Transfer(t)), pc')
  {
    match pc
    case Idle =>
    case Picked(u) =>
      assert StreamOk(store, u);
      DispatchReaches(u, T.Fold(store.Transfer(u)));
    case Entering(_, _, _) => EnteringPlace(cfg, store, pc, o, t);
    case Starting(_, _, _, _, _) => StartingPlace(cfg, store, pc, o, t);
    case Reserving(job) =>
      assert RecordOk(store, job.Tx());
      ReservingPlace(cfg, store, pc, o, t);
    case Moving(_, _) => MovingPlace(cfg, store, pc, o, t);
    case MarkingCompleted(_) => MarkingPlace(cfg, store, pc, o, t);
    case MarkingFailed(_, _) => MarkingPlace(cfg, store, pc, o, t);
    case Finishing(_, _, _) => ClosingPlace(cfg, store, pc, o, t);
    case Failing(_, _, _, _) => ClosingPlace(cfg, store, pc, o, t);
  }

  // ---- The agreement after every schedule ----

  ghost predicate AllCalm(cfg: Config, s: System) { forall w {:trigger s.At(w)} :: CalmPlace(cfg, s.At(w)) }

  lemma OtherPlaces(cfg: Config, s: System, w: nat, change: Change, t: string, v: nat)
    requires PcOk(cfg, s.store, s.At(w)) && May(s.store, s.At(w), change) && AllCalm(cfg, s) && Agreement(s, t)
    requires Forward(T.Fold(s.store.Transfer(t)), T.Fold(Changed(s.store, change).Transfer(t)))
    ensures PlaceOk(Changed(s.store, change), t, T.Fold(Changed(s.store, change).Transfer(t)), s.At(v))
    ensures CalmPlace(cfg, s.At(v))
  {
    assert PlaceOk(s.store, t, T.Fold(s.store.Transfer(t)), s.At(v));
    ChangeKeepsPlace(cfg, s.store, s.At(w), change, t, s.At(v));
  }

  // The worker that steps goes to a calm place, too.
  lemma EffectCalm(cfg: Config, store: Store, pc: Pc, o: Outcome)
    requires CalmPlace(cfg, pc) && CalmAction(cfg, Step(0, o))
    ensures CalmPlace(cfg, Effect(cfg, store, pc, o).1)
  {
  }

  lemma PlacesOf(cfg: Config, s: System, w: nat, store: Store, pc: Pc, t: string)
    requires AgreementOk(store, t) && PlaceOk(store, t, T.Fold(store.Transfer(t)), pc) && CalmPlace(cfg, pc)
    requires forall v {:trigger s.At(v)} ::
               PlaceOk(store, t, T.Fold(store.Transfer(t)), s.At(v)) && CalmPlace(cfg, s.At(v))
    ensures Agreement(System(store, s.workers).Go(w, pc), t) && AllCalm(cfg, System(store, s.workers).Go(w, pc))
  {
    var s' := System(store, s.workers).Go(w, pc);
    forall v ensures PlaceOk(store, t, T.Fold(store.Transfer(t)), s'.At(v)) && CalmPlace(cfg, s'.At(v)) {
      assert s'.At(v) == if v == w then pc else s.At(v);
    }
  }

  lemma AgreementAdvance(cfg: Config, s: System, w: nat, o: Outcome, t: string)
    requires StoreOk(s.store) && PcOk(cfg, s.store, s.At(w)) && OwnPc(s.At(w), t)
    requires AllCalm(cfg, s) && Agreement(s, t) && Tame(cfg, t) && CalmAction(cfg, Step(w, o))
    ensures Agreement(Advance(cfg, s, w, o), t) && AllCalm(cfg, Advance(cfg, s, w, o))
  {
    var pc := s.At(w);
    assert PlaceOk(s.store, t, T.Fold(s.store.Transfer(t)), pc) && CalmPlace(cfg, pc);
    var (change, pc') := Effect(cfg, s.store, pc, o);
    EffectMay(cfg, s.store, pc, o);
    ChangeAgrees(cfg, s.store, pc, change, t);
    EffectPlace(cfg, s.store, pc, o, t);
    EffectCalm(cfg, s.store, pc, o);
    forall v {:trigger s.At(v)}
      ensures PlaceOk(Changed(s.store, change), t, T.Fold(Changed(s.store, change).Transfer(t)), s.At(v))
      ensures CalmPlace(cfg, s.At(v))
    {
      OtherPlaces(cfg, s, w, change, t, v);
    }
    PlacesOf(cfg, s, w, Changed(s.store, change), pc', t);
  }

  // Steps of no worker: a quiet event on an account, or a first event of a transfer.
  lemma AgreementElsewhere(cfg: Config, s: System, a: Action, t: string)
    requires Inv(cfg, s) && Own(cfg, s, t) && AllCalm(cfg, s) && Agreement(s, t) && !a.Step? && Enabled(s, a)
    requires Foreign(a, t)
    ensures Agreement(Next(cfg, s, a), t) && AllCalm(cfg, Next(cfg, s, a))
  {
    var s' := Next(cfg, s, a);
    var st := T.Fold(s.store.Transfer(t));
    forall v ensures CalmPlace(cfg, s'.At(v)) { assert CalmPlace(cfg, s.At(v)); }
    if a.CreateAccount? || a.FreezeAccount? {
      var cmd := if a.CreateAccount? then A.Create(a.id, a.owner, a.currency) else A.Freeze(a.reason);
      QuietAgreement(cfg, s, a.id, cmd, t);
    } else if a.InitiateTransfer? {
      InitiateAgreement(cfg, s, a, t);
    } else {
      forall v ensures PlaceOk(s'.store, t, T.Fold(s'.store.Transfer(t)), s'.At(v)) {
        assert PlaceOk(s.store, t, st, s.At(v));
      }
    }
  }

  lemma QuietAgreement(cfg: Config, s: System, id: string, cmd: A.Command, t: string)
    requires StoreOk(s.store) && Agreement(s, t) && id != "" && A.AddressedTo(id, cmd) && (cmd.Create? || cmd.Freeze?)
    ensures Agreement(AccountCommand(s, id, cmd), t)
  {
    var decision, s' := A.Decide(A.Fold(s.store.Account(id)), cmd), AccountCommand(s, id, cmd);
    if decision.Success? {
      var e := decision.value;
      QuietStore(s.store, id, cmd, e);
      StrangeEvent(s.store, id, e, t);
      assert s'.store.Transfer(t) == s.store.Transfer(t);
      forall v ensures PlaceOk(s'.store, t, T.Fold(s'.store.Transfer(t)), s'.At(v)) {
        assert PlaceOk(s.store, t, T.Fold(s.store.Transfer(t)), s.At(v));
        if s.At(v).Finishing? || s.At(v).Failing? {
          MovesAppend(s.store, id, e, LegId(t, s.At(v).leg));
        }
      }
    }
  }

  // A blank transfer has moved nothing.
  lemma FirstAgrees(cfg: Config, store: Store, t: string, st: T.State, cmd: T.Command, e: T.Event)
    requires t != "" && (st == T.BLANK || StateOk(t, st)) && Agrees(store, t, st)
    requires cmd.Initiate? && cmd.transferId == t && T.Decide(st, cmd) == Success(e)
    ensures Agrees(store, t, T.When(st, e)) && Forward(st, T.When(st, e))
  {
    FirstEvent(t, st, cmd, e);
  }

  lemma InitiateAgreement(cfg: Config, s: System, a: Action, t: string)
    requires Inv(cfg, s) && Agreement(s, t) && a.InitiateTransfer? && Enabled(s, a)
    ensures Agreement(Next(cfg, s, a), t)
  {
    var u := a.t;
    var decision, s' := T.Decide(T.Fold(s.store.Transfer(u)), Initiation(a)), Next(cfg, s, a);
    if decision.Success? {
      if u == t {
        assert StreamOk(s.store, t);
        FirstAgrees(cfg, s.store, t, T.Fold(s.store.Transfer(t)), Initiation(a), decision.value);
        T.FoldSnoc(s.store.Transfer(t), decision.value);
      } else {
        assert s'.store.Transfer(t) == s.store.Transfer(t);
      }
      forall v ensures PlaceOk(s'.store, t, T.Fold(s'.store.Transfer(t)), s'.At(v)) {
        assert PlaceOk(s.store, t, T.Fold(s.store.Transfer(t)), s.At(v));
      }
    }
  }

  // The agreement holds after every schedule in which no client uses an id of t's
  // legs, no infrastructure error looks terminal and t's own errors do not either.
  lemma {:induction false} AgreementReachable(cfg: Config, schedule: seq<Action>, t: string)
    requires LegIdsUnused(schedule, t) && Calm(cfg, schedule) && Tame(cfg, t)
    ensures Agreement(Exec(cfg, schedule), t) && AllCalm(cfg, Exec(cfg, schedule))
    decreases |schedule|
  {
    if schedule == [] {
      StartOk(cfg);
      assert RecordOk(START.store, LegId(t, T.Debit)) && RecordOk(START.store, LegId(t, T.Credit))
             && RecordOk(START.store, LegId(t, T.Compensation));
      assert forall w :: START.At(w) == Idle;
    } else {
      var n := |schedule| - 1;
      var s, a := Exec(cfg, schedule[..n]), schedule[n];
      Reachable(cfg, schedule[..n]);
      OwnReachable(cfg, schedule[..n], t);
      AgreementReachable(cfg, schedule[..n], t);
      assert a in schedule;
      if a.Step? {
        assert PcOk(cfg, s.store, s.At(a.w)) && OwnPc(s.At(a.w), t);
        AgreementAdvance(cfg, s, a.w, a.o, t);
      } else if Enabled(s, a) {
        AgreementElsewhere(cfg, s, a, t);
      }
    }
  }
}
