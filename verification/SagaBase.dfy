// What every step of the saga keeps, whatever ids clients choose and whatever texts
// errors carry: the state of each transfer stream, what a registry record says about
// the money events of its id, and what every worker may rely on where it is.
module SagaBase {
  import opened Wrappers
  import opened Sums
  import opened Saga
  import A = Accounts
  import T = Transfers
  import R = Registry

  // ---- Counting the money events that carry a transaction id ----

  ghost function Hit(e: A.Event, tx: string): int {
    if e.IsMoney() && e.transactionId == tx then 1 else 0
  }

  ghost function Hits(es: seq<A.Event>, tx: string): int {
    if es == [] then 0 else Hits(es[..|es|-1], tx) + Hit(es[|es|-1], tx)
  }

  ghost function HitMap(accounts: map<string, seq<A.Event>>, tx: string): map<string, int> {
    map id | id in accounts :: Hits(accounts[id], tx)
  }

  // The number of money events, over all account streams, with this transaction id.
  ghost function Moves(accounts: map<string, seq<A.Event>>, tx: string): int {
    Sum(HitMap(accounts, tx))
  }

  lemma HitsSnoc(es: seq<A.Event>, e: A.Event, tx: string)
    ensures Hits(es + [e], tx) == Hits(es, tx) + Hit(e, tx)
  {
    assert (es + [e])[..|es|] == es;
  }

  lemma MovesAppend(store: Store, id: string, e: A.Event, tx: string)
    ensures Moves(store.AppendAccount(id, e).accounts, tx) == Moves(store.accounts, tx) + Hit(e, tx)
  {
    var es := store.Account(id);
    var m := HitMap(store.accounts, tx);
    var n := Hits(es, tx) + Hit(e, tx);
    HitsSnoc(es, e, tx);
    assert HitMap(store.accounts[id := es + [e]], tx) == m[id := n];
    SumUpdate(m, id, n);
    assert Hits(es, tx) == if id in m then m[id] else 0;
  }

  // ---- What holds of the store ----

  // What holds of the replayed state of transfer t, seen alone.
  predicate StateOk(t: string, st: T.State) {
    && t != ""
    && st.info.Some? && st.info.value.transferId == t
    && st.status.Some?
    && (forall leg :: st.Leg(leg).tx.Some? ==> st.Leg(leg).tx.value == LegId(t, leg))
    && (st.status == Some(T.Failed) ==> st.failure.Some?)
    && (st.status in {Some(T.CompensationInProgress), Some(T.Compensated)} ==> st.FailedAt(T.AtCredit))
  }

  predicate StreamOk(store: Store, t: string) {
    store.Transfer(t) != [] ==> StateOk(t, T.Fold(store.Transfer(t)))
  }

  predicate Open(store: Store, tx: string, status: R.Status) {
    tx in store.registry && store.registry[tx].status == status
  }

  // At most one money event per transaction id; what the record says about it.
  ghost predicate RecordOk(store: Store, tx: string) {
    && 0 <= Moves(store.accounts, tx) <= 1
    && (tx !in store.registry ==> Moves(store.accounts, tx) == 0)
    && (tx in store.registry ==> store.registry[tx].status != R.FailedRetryable)
    && (Open(store, tx, R.Completed) ==> Moves(store.accounts, tx) == 1)
  }

  ghost predicate AccountOk(store: Store, id: string) {
    id in store.accounts ==> id != "" && A.Accepted(id, store.accounts[id])
  }

  ghost predicate StoreOk(store: Store) {
    && (forall t :: StreamOk(store, t))
    && (forall tx :: RecordOk(store, tx))
    && (forall id :: AccountOk(store, id))
  }

  // ---- What holds at each place a worker can be ----

  predicate LegKnown(store: Store, t: string) {
    store.Transfer(t) != [] && StateOk(t, T.Fold(store.Transfer(t)))
  }

  predicate JobOk(cfg: Config, store: Store, job: Job) {
    match job.owner
    case TransferLeg(t, leg) =>
      LegKnown(store, t) && job == LegJob(cfg, leg, LegId(t, leg), T.Fold(store.Transfer(t)).info.value)
    case Api => job.amount == job.input.amount
  }

  predicate Fresh<E(==)>(stream: seq<E>, a: Attempt<E>) { a.Write? ==> a.seen <= stream }

  // A handler that ended with this error has appended nothing.
  predicate Effectless(f: Failure) { f.Rejected? || f.AccountConflict? }

  ghost predicate PcOk(cfg: Config, store: Store, pc: Pc) {
    match pc
    case Idle => true
    case Picked(_) => true
    case Entering(t, leg, tx) => LegKnown(store, t) && tx == LegId(t, leg)
    case Starting(t, leg, tx, info, write) =>
      && LegKnown(store, t) && tx == LegId(t, leg)
      && T.Fold(store.Transfer(t)).info == Some(info)
      && Fresh(store.Transfer(t), write)
    case Reserving(job) => JobOk(cfg, store, job)
    case Reopening(job) => false
    case Moving(job, move) =>
      && JobOk(cfg, store, job)
      && Open(store, job.Tx(), R.Pending) && Moves(store.accounts, job.Tx()) == 0
      && Fresh(store.Account(job.input.account), move)
    case MarkingCompleted(job) =>
      JobOk(cfg, store, job) && Open(store, job.Tx(), R.Pending) && Moves(store.accounts, job.Tx()) == 1
    case MarkingFailed(job, error) =>
      && JobOk(cfg, store, job) && (Effectless(error) || error.Infrastructure?)
      && (Open(store, job.Tx(), R.Pending) || (Open(store, job.Tx(), R.Completed) && error.Infrastructure?))
      && (Effectless(error) ==> Moves(store.accounts, job.Tx()) == 0)
    case Finishing(t, leg, write) => LegKnown(store, t) && Fresh(store.Transfer(t), write)
    case Failing(t, leg, reason, write) =>
      LegKnown(store, t) && leg != T.Compensation && Fresh(store.Transfer(t), write)
  }

  // The transaction id whose handler a worker is running.
  function Holds(pc: Pc): Option<string> {
    match pc
    case Moving(job, _) => Some(job.Tx())
    case MarkingCompleted(job) => Some(job.Tx())
    case MarkingFailed(job, _) => Some(job.Tx())
    case Reopening(job) => Some(job.Tx())
    case _ => None
  }

  ghost predicate WorkersOk(cfg: Config, s: System) {
    && (forall w {:trigger PcOk(cfg, s.store, s.At(w))} :: PcOk(cfg, s.store, s.At(w)))
    && (forall w, w' :: Holds(s.At(w)).Some? && Holds(s.At(w)) == Holds(s.At(w')) ==> w == w')
  }

  ghost predicate Inv(cfg: Config, s: System) { StoreOk(s.store) && WorkersOk(cfg, s) }

  // ---- What a worker may do to the store ----

  // The command a worker is about to append to its transfer stream.
  function TransferCommand(pc: Pc): Option<T.Command> {
    match pc
    case Starting(_, leg, tx, _, _) => Some(T.Start(leg, tx))
    case Finishing(_, leg, _) => Some(FinishCommand(leg))
    case Failing(_, leg, reason, _) => Some(T.Fail(reason, FailureStage(leg)))
    case _ => None
  }

  // A new record is pending and holds the job's movement; a later write changes the
  // status of the worker's own record only.
  ghost predicate MayRecord(store: Store, pc: Pc, tx: string, record: R.Record) {
    if pc.Reserving? then
      && tx == pc.job.Tx() && tx !in store.registry
      && record.status == R.Pending && R.SameIntent(pc.job.input, record)
    else
      && Holds(pc) == Some(tx) && (Open(store, tx, R.Pending) || Open(store, tx, R.Completed))
      && record == store.registry[tx].(status := record.status)
      && (if pc.MarkingCompleted? then record.status == R.Completed
          else pc.MarkingFailed? && record.status == R.FailedTerminal)
  }

  ghost predicate May(store: Store, pc: Pc, change: Change) {
    match change
    case Nothing => true
    case Moved(id, e) =>
      && pc.Moving? && id == pc.job.input.account
      && A.Decide(A.Fold(store.Account(id)), pc.job.Command()) == Success(e)
    case Transferred(t, e) =>
      && TransferCommand(pc).Some? && pc.t == t
      && T.Decide(T.Fold(store.Transfer(t)), TransferCommand(pc).value) == Success(e)
    case Recorded(tx, record) => MayRecord(store, pc, tx, record)
  }

  // A round that writes has decided on the stream as it is.
  lemma TransferRoundFacts(stream: seq<T.Event>, cmd: T.Command, a: Attempt<T.Event>, o: Outcome)
    requires Fresh(stream, a)
    ensures var round := TransferRound(stream, cmd, a, o);
            && (round.Again? ==> Fresh(stream, round.next))
            && (round.Wrote? ==> round.o == o && T.Decide(T.Fold(stream), cmd) == Success(round.event))
  {
    assert a.Write? && |a.seen| == |stream| ==> a.seen == stream;
  }

  lemma AccountRoundFacts(stream: seq<A.Event>, cmd: A.Command, a: Attempt<A.Event>, o: Outcome)
    requires Fresh(stream, a)
    ensures var round := AccountRound(stream, cmd, a, o);
            && (round.Again? ==> Fresh(stream, round.next))
            && (round.Wrote? ==> round.o == o && A.Decide(A.Fold(stream), cmd) == Success(round.event))
  {
    assert a.Write? && |a.seen| == |stream| ==> a.seen == stream;
  }

  lemma EffectMay(cfg: Config, store: Store, pc: Pc, o: Outcome)
    requires PcOk(cfg, store, pc)
    ensures May(store, pc, Effect(cfg, store, pc, o).0)
  {
    match pc
    case Starting(t, leg, tx, _, write) => TransferRoundFacts(store.Transfer(t), T.Start(leg, tx), write, o);
    case Moving(job, move) => AccountRoundFacts(store.Account(job.input.account), job.Command(), move, o);
    case Finishing(t, leg, write) => TransferRoundFacts(store.Transfer(t), FinishCommand(leg), write, o);
    case Failing(t, leg, reason, write) =>
      TransferRoundFacts(store.Transfer(t), T.Fail(reason, FailureStage(leg)), write, o);
    case _ =>
  }

  // ---- The store after a change ----

  lemma MoneyEvent(st: A.State, job: Job, e: A.Event)
    requires A.Decide(st, job.Command()) == Success(e)
    ensures e.IsMoney() && e.transactionId == job.Tx() && st.currency.Some?
    ensures A.AddressedTo(job.input.account, job.Command())
  {
  }

  lemma MovedStore(cfg: Config, store: Store, pc: Pc, e: A.Event)
    requires StoreOk(store) && PcOk(cfg, store, pc) && pc.Moving?
    requires A.Decide(A.Fold(store.Account(pc.job.input.account)), pc.job.Command()) == Success(e)
    ensures StoreOk(store.AppendAccount(pc.job.input.account, e))
  {
    var id := pc.job.input.account;
    var store' := store.AppendAccount(id, e);
    MoneyEvent(A.Fold(store.Account(id)), pc.job, e);
    assert AccountOk(store, id);
    assert A.Raised(id, A.Fold(store.Account(id)), e);
    A.AcceptedSnoc(id, store.Account(id), e);
    forall x ensures RecordOk(store', x) {
      assert RecordOk(store, x);
      MovesAppend(store, id, e, x);
    }
    forall t ensures StreamOk(store', t) { assert StreamOk(store, t); }
    forall a ensures AccountOk(store', a) { assert AccountOk(store, a); }
  }

  // Every event a command raises keeps what holds of a transfer's state.
  lemma EventKeepsState(t: string, st: T.State, cmd: T.Command, e: T.Event)
    requires StateOk(t, st) && T.Decide(st, cmd) == Success(e)
    requires cmd.Start? ==> cmd.transactionId == LegId(t, cmd.leg)
    ensures StateOk(t, T.When(st, e)) && T.When(st, e).info == st.info
  {
  }

  lemma StreamAppends(store: Store, t: string, e: T.Event, u: string)
    requires StateOk(t, T.When(T.Fold(store.Transfer(t)), e)) && StreamOk(store, u)
    ensures StreamOk(store.AppendTransfer(t, e), u)
  {
    T.FoldSnoc(store.Transfer(t), e);
    assert u != t ==> store.AppendTransfer(t, e).Transfer(u) == store.Transfer(u);
  }

  lemma TransferredStore(store: Store, t: string, e: T.Event)
    requires StoreOk(store) && StateOk(t, T.When(T.Fold(store.Transfer(t)), e))
    ensures StoreOk(store.AppendTransfer(t, e))
  {
    var store' := store.AppendTransfer(t, e);
    forall u ensures StreamOk(store', u) {
      assert StreamOk(store, u);
      StreamAppends(store, t, e, u);
    }
    forall tx ensures RecordOk(store', tx) { assert RecordOk(store, tx); }
    forall id ensures AccountOk(store', id) { assert AccountOk(store, id); }
  }

  lemma RecordedStore(cfg: Config, store: Store, pc: Pc, tx: string, record: R.Record)
    requires StoreOk(store) && PcOk(cfg, store, pc) && MayRecord(store, pc, tx, record)
    ensures StoreOk(Changed(store, Recorded(tx, record)))
  {
    var store' := Changed(store, Recorded(tx, record));
    forall x ensures RecordOk(store', x) { assert RecordOk(store, x); }
    forall t ensures StreamOk(store', t) { assert StreamOk(store, t); }
    forall id ensures AccountOk(store', id) { assert AccountOk(store, id); }
  }

  lemma ChangeKeepsStore(cfg: Config, store: Store, pc: Pc, change: Change)
    requires StoreOk(store) && PcOk(cfg, store, pc) && May(store, pc, change)
    ensures StoreOk(Changed(store, change))
  {
    match change
    case Nothing =>
    case Moved(_, e) => MovedStore(cfg, store, pc, e);
    case Transferred(t, e) =>
      EventKeepsState(t, T.Fold(store.Transfer(t)), TransferCommand(pc).value, e);
      TransferredStore(store, t, e);
    case Recorded(tx, record) => RecordedStore(cfg, store, pc, tx, record);
  }

  // ---- The other workers after a change ----

  // What a change of one transfer stream leaves of a leg.
  lemma LegStays(store: Store, t: string, e: T.Event, u: string)
    requires LegKnown(store, u)
    requires u == t ==> StateOk(t, T.When(T.Fold(store.Transfer(t)), e))
                        && T.When(T.Fold(store.Transfer(t)), e).info == T.Fold(store.Transfer(t)).info
    ensures var store' := store.AppendTransfer(t, e);
            && LegKnown(store', u) && store.Transfer(u) <= store'.Transfer(u)
            && T.Fold(store'.Transfer(u)).info == T.Fold(store.Transfer(u)).info
  {
    if u == t {
      T.FoldSnoc(store.Transfer(t), e);
    }
  }

  // An event keeps the places of all workers if it keeps the state and the description.
  predicate Extends(t: string, st: T.State, e: T.Event) {
    StateOk(t, T.When(st, e)) && (st.info.Some? ==> T.When(st, e).info == st.info)
  }

  lemma TransferredPc(cfg: Config, store: Store, t: string, e: T.Event, pc: Pc)
    requires PcOk(cfg, store, pc) && Extends(t, T.Fold(store.Transfer(t)), e)
    ensures PcOk(cfg, store.AppendTransfer(t, e), pc)
  {
    match pc
    case Entering(u, _, _) => LegStays(store, t, e, u);
    case Starting(u, _, _, _, _) => LegStays(store, t, e, u);
    case Reserving(job) => TransferredJob(cfg, store, t, e, job);
    case Moving(job, _) => TransferredJob(cfg, store, t, e, job);
    case MarkingCompleted(job) => TransferredJob(cfg, store, t, e, job);
    case MarkingFailed(job, _) => TransferredJob(cfg, store, t, e, job);
    case Finishing(u, _, _) => LegStays(store, t, e, u);
    case Failing(u, _, _, _) => LegStays(store, t, e, u);
    case _ =>
  }

  lemma TransferredJob(cfg: Config, store: Store, t: string, e: T.Event, job: Job)
    requires JobOk(cfg, store, job) && Extends(t, T.Fold(store.Transfer(t)), e)
    ensures JobOk(cfg, store.AppendTransfer(t, e), job)
  {
    if job.owner.TransferLeg? {
      LegStays(store, t, e, job.owner.transferId);
    }
  }

  // An event on an account leaves a place as it is unless it counts for the
  // transaction id that is held there.
  lemma MovedPc(cfg: Config, store: Store, id: string, e: A.Event, pc: Pc)
    requires PcOk(cfg, store, pc)
    requires Holds(pc).Some? ==> Hit(e, Holds(pc).value) == 0
    ensures PcOk(cfg, store.AppendAccount(id, e), pc)
  {
    var store' := store.AppendAccount(id, e);
    assert forall t :: store'.Transfer(t) == store.Transfer(t);
    if Holds(pc).Some? {
      MovesAppend(store, id, e, Holds(pc).value);
      assert JobOk(cfg, store', pc.job);
    }
    if pc.Moving? {
      assert store.Account(pc.job.input.account) <= store'.Account(pc.job.input.account);
    }
  }

  lemma RecordedPc(cfg: Config, store: Store, tx: string, record: R.Record, pc: Pc)
    requires PcOk(cfg, store, pc) && Holds(pc) != Some(tx)
    ensures PcOk(cfg, Changed(store, Recorded(tx, record)), pc)
  {
  }

  lemma ChangeKeepsOther(cfg: Config, store: Store, pc: Pc, change: Change, other: Pc)
    requires PcOk(cfg, store, pc) && May(store, pc, change) && PcOk(cfg, store, other)
    requires Holds(other).Some? ==> Holds(other) != Holds(pc)
    ensures PcOk(cfg, Changed(store, change), other)
  {
    match change
    case Nothing =>
    case Moved(id, e) =>
      MoneyEvent(A.Fold(store.Account(id)), pc.job, e);
      MovedPc(cfg, store, id, e, other);
    case Transferred(t, e) =>
      EventKeepsState(t, T.Fold(store.Transfer(t)), TransferCommand(pc).value, e);
      TransferredPc(cfg, store, t, e, other);
    case Recorded(tx, record) => RecordedPc(cfg, store, tx, record, other);
  }

  // ---- Where the worker goes ----

  // After an error, and after an accepted registry call.
  lemma AfterErrorFits(cfg: Config, store: Store, job: Job, f: Failure)
    requires JobOk(cfg, store, job)
    ensures PcOk(cfg, store, AfterError(cfg, job.owner, f)) && Holds(AfterError(cfg, job.owner, f)).None?
    ensures PcOk(cfg, store, AfterAccepted(job)) && Holds(AfterAccepted(job)).None?
  {
  }

  lemma DispatchFits(cfg: Config, store: Store, t: string)
    requires StreamOk(store, t)
    ensures PcOk(cfg, store, Dispatch(t, T.Fold(store.Transfer(t))))
  {
  }

  lemma StartingFits(cfg: Config, store: Store, pc: Pc, o: Outcome)
    requires PcOk(cfg, store, pc) && pc.Starting?
    ensures var (change, pc') := Effect(cfg, store, pc, o); PcOk(cfg, Changed(store, change), pc')
  {
    var Starting(t, leg, tx, info, write) := pc;
    TransferRoundFacts(store.Transfer(t), T.Start(leg, tx), write, o);
    var (change, pc') := Effect(cfg, store, pc, o);
    if change.Transferred? {
      EventKeepsState(t, T.Fold(store.Transfer(t)), T.Start(leg, tx), change.event);
      LegStays(store, t, change.event, t);
    }
  }

  lemma ReservingFits(cfg: Config, store: Store, pc: Pc, o: Outcome)
    requires PcOk(cfg, store, pc) && pc.Reserving? && RecordOk(store, pc.job.Tx())
    ensures var (change, pc') := Effect(cfg, store, pc, o); PcOk(cfg, Changed(store, change), pc')
  {
    var job := pc.job;
    var (change, pc') := Effect(cfg, store, pc, o);
    var store' := Changed(store, change);
    assert JobOk(cfg, store', job);
    forall f ensures PcOk(cfg, store', AfterError(cfg, job.owner, f)) && PcOk(cfg, store', AfterAccepted(job)) {
      AfterErrorFits(cfg, store', job, f);
    }
  }

  lemma MovingFits(cfg: Config, store: Store, pc: Pc, o: Outcome)
    requires PcOk(cfg, store, pc) && pc.Moving?
    ensures var (change, pc') := Effect(cfg, store, pc, o); PcOk(cfg, Changed(store, change), pc')
  {
    var Moving(job, move) := pc;
    AccountRoundFacts(store.Account(job.input.account), job.Command(), move, o);
    var (change, pc') := Effect(cfg, store, pc, o);
    if change.Moved? {
      MoneyEvent(A.Fold(store.Account(job.input.account)), job, change.money);
      MovesAppend(store, job.input.account, change.money, job.Tx());
    }
    assert JobOk(cfg, Changed(store, change), job);
  }

  lemma MarkingFits(cfg: Config, store: Store, pc: Pc, o: Outcome)
    requires PcOk(cfg, store, pc) && (pc.MarkingCompleted? || pc.MarkingFailed?)
    ensures var (change, pc') := Effect(cfg, store, pc, o); PcOk(cfg, Changed(store, change), pc')
  {
    var job := pc.job;
    var (change, pc') := Effect(cfg, store, pc, o);
    var store' := Changed(store, change);
    assert JobOk(cfg, store', job);
    AfterErrorFits(cfg, store', job, if o.Done? && pc.MarkingFailed? then pc.error
                                     else if o.Done? then Retryable else Infrastructure(o.text));
  }

  // A closing command that does not write leaves the store; one that does ends there.
  lemma ClosingFits(cfg: Config, store: Store, pc: Pc, o: Outcome)
    requires PcOk(cfg, store, pc) && (pc.Finishing? || pc.Failing?)
    ensures var (change, pc') := Effect(cfg, store, pc, o); PcOk(cfg, Changed(store, change), pc')
  {
    var cmd := TransferCommand(pc).value;
    TransferRoundFacts(store.Transfer(pc.t), cmd, pc.write, o);
    var (change, pc') := Effect(cfg, store, pc, o);
    if change.Transferred? {
      EventKeepsState(pc.t, T.Fold(store.Transfer(pc.t)), cmd, change.event);
      LegStays(store, pc.t, change.event, pc.t);
      AfterWriteFits(cfg, Changed(store, change), pc, o);
    }
  }

  lemma AfterWriteFits(cfg: Config, store: Store, pc: Pc, o: Outcome)
    requires (pc.Finishing? || pc.Failing?) && LegKnown(store, pc.t)
    ensures PcOk(cfg, store, if o.Done? || pc.Failing? then Idle
                             else AfterError(cfg, TransferLeg(pc.t, pc.leg), Infrastructure(o.text)))
  {
  }

  lemma EffectFits(cfg: Config, store: Store, pc: Pc, o: Outcome)
    requires PcOk(cfg, store, pc) && StoreOk(store)
    ensures var (change, pc') := Effect(cfg, store, pc, o); PcOk(cfg, Changed(store, change), pc')
  {
    match pc
    case Picked(t) =>
      assert StreamOk(store, t);
      DispatchFits(cfg, store, t);
    case Starting(_, _, _, _, _) => StartingFits(cfg, store, pc, o);
    case Reserving(job) =>
      assert RecordOk(store, job.Tx());
      ReservingFits(cfg, store, pc, o);
    case Moving(_, _) => MovingFits(cfg, store, pc, o);
    case MarkingCompleted(_) => MarkingFits(cfg, store, pc, o);
    case MarkingFailed(_, _) => MarkingFits(cfg, store, pc, o);
    case Finishing(_, _, _) => ClosingFits(cfg, store, pc, o);
    case Failing(_, _, _, _) => ClosingFits(cfg, store, pc, o);
    case _ =>
  }

  // A worker takes hold of an id only by creating its record.
  lemma EffectHolds(cfg: Config, store: Store, pc: Pc, o: Outcome)
    requires PcOk(cfg, store, pc)
    ensures var (change, pc') := Effect(cfg, store, pc, o);
            Holds(pc').Some? ==>
              || Holds(pc') == Holds(pc)
              || (change.Recorded? && Holds(pc') == Some(change.tx) && change.tx !in store.registry)
              || (Holds(pc').value in store.registry && store.registry[Holds(pc').value].status == R.FailedRetryable)
  {
  }

  // ---- The invariant over every schedule ----

  lemma AdvanceKeeps(cfg: Config, s: System, w: nat, o: Outcome)
    requires Inv(cfg, s)
    ensures Inv(cfg, Advance(cfg, s, w, o))
  {
    var pc := s.At(w);
    assert PcOk(cfg, s.store, pc);
    var (change, pc') := Effect(cfg, s.store, pc, o);
    EffectMay(cfg, s.store, pc, o);
    ChangeKeepsStore(cfg, s.store, pc, change);
    EffectFits(cfg, s.store, pc, o);
    EffectHolds(cfg, s.store, pc, o);
    forall v | v != w ensures PcOk(cfg, Changed(s.store, change), s.At(v)) {
      assert PcOk(cfg, s.store, s.At(v));
      ChangeKeepsOther(cfg, s.store, pc, change, s.At(v));
    }
    forall v | v != w && Holds(pc').Some? ensures Holds(s.At(v)) != Holds(pc') {
      assert PcOk(cfg, s.store, s.At(v)) && RecordOk(s.store, Holds(pc').value);
    }
    StepOf(cfg, s, w, Changed(s.store, change), pc');
  }

  // A store change that no other worker's place depends on, and the worker's next place.
  lemma StepOf(cfg: Config, s: System, w: nat, store: Store, pc: Pc)
    requires Inv(cfg, s) && StoreOk(store) && PcOk(cfg, store, pc)
    requires forall v :: v != w ==> PcOk(cfg, store, s.At(v))
    requires Holds(pc).None? || (forall v :: v != w ==> Holds(s.At(v)) != Holds(pc))
    ensures Inv(cfg, System(store, s.workers).Go(w, pc))
  {
    var s' := System(store, s.workers).Go(w, pc);
    forall v ensures s'.At(v) == if v == w then pc else s.At(v) {}
  }

  lemma AccountCommandKeeps(cfg: Config, s: System, id: string, cmd: A.Command)
    requires Inv(cfg, s) && id != "" && A.AddressedTo(id, cmd) && (cmd.Create? || cmd.Freeze?)
    ensures Inv(cfg, AccountCommand(s, id, cmd))
  {
    var decision := A.Decide(A.Fold(s.store.Account(id)), cmd);
    if decision.Success? {
      var e := decision.value;
      var s' := s.(store := s.store.AppendAccount(id, e));
      QuietStore(s.store, id, cmd, e);
      forall w ensures PcOk(cfg, s'.store, s.At(w)) {
        assert PcOk(cfg, s.store, s.At(w));
        MovedPc(cfg, s.store, id, e, s.At(w));
      }
      assert forall w :: s'.At(w) == s.At(w);
    }
  }

  // Creating and freezing move no money.
  lemma QuietStore(store: Store, id: string, cmd: A.Command, e: A.Event)
    requires StoreOk(store) && id != "" && A.AddressedTo(id, cmd) && (cmd.Create? || cmd.Freeze?)
    requires A.Decide(A.Fold(store.Account(id)), cmd) == Success(e)
    ensures StoreOk(store.AppendAccount(id, e)) && !e.IsMoney()
  {
    var store' := store.AppendAccount(id, e);
    assert AccountOk(store, id);
    assert A.Raised(id, A.Fold(store.Account(id)), e);
    A.AcceptedSnoc(id, store.Account(id), e);
    forall x ensures RecordOk(store', x) {
      assert RecordOk(store, x);
      MovesAppend(store, id, e, x);
    }
    forall t ensures StreamOk(store', t) { assert StreamOk(store, t); }
    forall a ensures AccountOk(store', a) { assert AccountOk(store, a); }
  }

  function Initiation(a: Action): T.Command
    requires a.InitiateTransfer?
  {
    T.Initiate(a.t, a.source, a.destination, a.amount, a.currency)
  }

  lemma InitiateKeeps(cfg: Config, s: System, a: Action)
    requires Inv(cfg, s) && Enabled(s, a) && a.InitiateTransfer?
    ensures Inv(cfg, Next(cfg, s, a))
  {
    var st := T.Fold(s.store.Transfer(a.t));
    var decision := T.Decide(st, Initiation(a));
    if decision.Success? {
      var e := decision.value;
      var s' := s.(store := s.store.AppendTransfer(a.t, e));
      assert StreamOk(s.store, a.t);
      FirstEvent(a.t, st, Initiation(a), e);
      TransferredStore(s.store, a.t, e);
      forall w ensures PcOk(cfg, s'.store, s.At(w)) {
        assert PcOk(cfg, s.store, s.At(w));
        TransferredPc(cfg, s.store, a.t, e, s.At(w));
      }
      assert forall w :: s'.At(w) == s.At(w);
    }
  }

  // Only a blank transfer is initiated.
  lemma FirstEvent(t: string, st: T.State, cmd: T.Command, e: T.Event)
    requires t != "" && (st == T.BLANK || StateOk(t, st))
    requires cmd.Initiate? && cmd.transferId == t && T.Decide(st, cmd) == Success(e)
    ensures st == T.BLANK && Extends(t, st, e) && e.TransferInitiated?
  {
  }

  // A request or a crash puts a worker at another place.
  lemma PlaceKeeps(cfg: Config, s: System, a: Action)
    requires Inv(cfg, s) && Enabled(s, a) && (a.Crash? || a.Pick? || a.Submit?)
    ensures Inv(cfg, Next(cfg, s, a))
  {
    var pc := if a.Crash? then Idle else if a.Pick? then Picked(a.t)
              else Reserving(Job(Api, a.input, a.input.amount));
    forall v | v != a.w ensures PcOk(cfg, s.store, s.At(v)) {}
    StepOf(cfg, s, a.w, s.store, pc);
  }

  lemma NextKeeps(cfg: Config, s: System, a: Action)
    requires Inv(cfg, s)
    ensures Inv(cfg, Next(cfg, s, a))
  {
    if Enabled(s, a) {
      match a
      case Step(w, o) => AdvanceKeeps(cfg, s, w, o);
      case CreateAccount(id, owner, currency) => AccountCommandKeeps(cfg, s, id, A.Create(id, owner, currency));
      case FreezeAccount(id, reason) => AccountCommandKeeps(cfg, s, id, A.Freeze(reason));
      case InitiateTransfer(_, _, _, _, _) => InitiateKeeps(cfg, s, a);
      case _ => PlaceKeeps(cfg, s, a);
    }
  }

  lemma StartOk(cfg: Config)
    ensures Inv(cfg, START)
  {
    forall tx ensures Moves(START.store.accounts, tx) == 0 {
      assert HitMap(START.store.accounts, tx) == map[];
    }
    assert forall w :: START.At(w) == Idle;
  }

  // The invariant holds after every schedule of steps, crashes and requests.
  lemma {:induction false} Reachable(cfg: Config, schedule: seq<Action>)
    ensures Inv(cfg, Exec(cfg, schedule))
    decreases |schedule|
  {
    if schedule == [] {
      StartOk(cfg);
    } else {
      var n := |schedule| - 1;
      Reachable(cfg, schedule[..n]);
      NextKeeps(cfg, Exec(cfg, schedule[..n]), schedule[n]);
    }
  }
}
