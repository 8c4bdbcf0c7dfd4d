// The records of a transfer's legs describe the legs, as long as no client submits
// one of their ids.
module SagaLegs {
  import opened Wrappers
  import opened Sums
  import opened Saga
  import opened SagaBase
  import A = Accounts
  import T = Transfers
  import R = Registry

  // The action does not submit an id of t's legs.
  predicate Foreign(a: Action, t: string) {
    a.Submit? ==> forall leg :: a.input.transactionId != LegId(t, leg)
  }

  predicate LegIdsUnused(schedule: seq<Action>, t: string) { forall a :: a in schedule ==> Foreign(a, t) }

  // ---- The jobs and the records of t's legs ----

  function JobAt(pc: Pc): Option<Job> {
    match pc
    case Reserving(job) => Some(job)
    case Reopening(job) => Some(job)
    case Moving(job, _) => Some(job)
    case MarkingCompleted(job) => Some(job)
    case MarkingFailed(job, _) => Some(job)
    case _ => None
  }

  // A job with an id of t's legs is that leg's own.
  predicate OwnPc(pc: Pc, t: string) {
    JobAt(pc).Some? ==>
      forall leg :: JobAt(pc).value.Tx() == LegId(t, leg) ==> JobAt(pc).value.owner == TransferLeg(t, leg)
  }

  predicate LegRecord(cfg: Config, store: Store, t: string, leg: Leg) {
    LegId(t, leg) in store.registry ==>
      && LegKnown(store, t)
      && R.SameIntent(LegJob(cfg, leg, LegId(t, leg), T.Fold(store.Transfer(t)).info.value).input,
                      store.registry[LegId(t, leg)])
  }

  ghost predicate Own(cfg: Config, s: System, t: string) {
    && (forall leg :: LegRecord(cfg, s.store, t, leg))
    && (forall w {:trigger s.At(w)} :: OwnPc(s.At(w), t))
  }

  // Once a transfer is initiated its description stays.
  predicate InfoStays(store: Store, store': Store, t: string) {
    LegKnown(store, t) ==>
      LegKnown(store', t) && T.Fold(store'.Transfer(t)).info == T.Fold(store.Transfer(t)).info
  }

  lemma ChangeKeepsInfo(cfg: Config, store: Store, pc: Pc, change: Change, t: string)
    requires PcOk(cfg, store, pc) && May(store, pc, change)
    ensures InfoStays(store, Changed(store, change), t)
  {
    if change.Transferred? && LegKnown(store, t) {
      EventKeepsState(change.t, T.Fold(store.Transfer(change.t)), TransferCommand(pc).value, change.event);
      LegStays(store, change.t, change.event, t);
    }
  }

  lemma ChangeKeepsRecord(cfg: Config, store: Store, pc: Pc, change: Change, t: string, leg: Leg)
    requires PcOk(cfg, store, pc) && May(store, pc, change)
    requires OwnPc(pc, t) && LegRecord(cfg, store, t, leg)
    ensures LegRecord(cfg, Changed(store, change), t, leg)
  {
    ChangeKeepsInfo(cfg, store, pc, change, t);
    if change.Recorded? && change.tx == LegId(t, leg) && pc.Reserving? {
      assert pc.job.owner == TransferLeg(t, leg) && JobOk(cfg, store, pc.job);
    }
  }

  // A coordinator's jobs are its legs' own.
  lemma LegJobIsOwn(cfg: Config, u: string, leg: Leg, info: T.Info, t: string)
    requires info.transferId == u
    ensures OwnPc(Reserving(LegJob(cfg, leg, LegId(u, leg), info)), t)
  {
    forall other | LegId(u, leg) == LegId(t, other) ensures u == t && leg == other {
      LegIdInjective(u, leg, t, other);
    }
  }

  lemma EffectKeepsOwn(cfg: Config, store: Store, pc: Pc, o: Outcome, t: string)
    requires PcOk(cfg, store, pc) && OwnPc(pc, t)
    ensures OwnPc(Effect(cfg, store, pc, o).1, t)
  {
    if pc.Entering? {
      LegJobIsOwn(cfg, pc.t, pc.leg, T.Fold(store.Transfer(pc.t)).info.value, t);
    } else if pc.Starting? {
      LegJobIsOwn(cfg, pc.t, pc.leg, pc.info, t);
    }
  }

  lemma OwnAdvance(cfg: Config, s: System, w: nat, o: Outcome, t: string)
    requires Inv(cfg, s) && Own(cfg, s, t)
    ensures Own(cfg, Advance(cfg, s, w, o), t)
  {
    var pc, s' := s.At(w), Advance(cfg, s, w, o);
    assert PcOk(cfg, s.store, pc) && OwnPc(pc, t);
    var (change, pc') := Effect(cfg, s.store, pc, o);
    EffectMay(cfg, s.store, pc, o);
    EffectKeepsOwn(cfg, s.store, pc, o, t);
    if !pc.Idle? {
      forall leg ensures LegRecord(cfg, s'.store, t, leg) {
        ChangeKeepsRecord(cfg, s.store, pc, change, t, leg);
      }
      forall v ensures OwnPc(s'.At(v), t) { assert s'.At(v) == if v == w then pc' else s.At(v); }
    }
  }

  // Only a blank transfer is initiated, and a blank transfer has no leg records.
  lemma OwnInitiate(cfg: Config, s: System, a: Action, t: string)
    requires Inv(cfg, s) && Own(cfg, s, t) && a.InitiateTransfer? && Enabled(s, a)
    ensures Own(cfg, Next(cfg, s, a), t)
  {
    var st := T.Fold(s.store.Transfer(a.t));
    var decision, s' := T.Decide(st, Initiation(a)), Next(cfg, s, a);
    if decision.Success? {
      assert StreamOk(s.store, a.t);
      FirstEvent(a.t, st, Initiation(a), decision.value);
      if LegKnown(s.store, t) {
        LegStays(s.store, a.t, decision.value, t);
      }
      forall leg ensures LegRecord(cfg, s'.store, t, leg) { assert LegRecord(cfg, s.store, t, leg); }
      forall v ensures OwnPc(s'.At(v), t) { assert s'.At(v) == s.At(v); }
    }
  }

  // Requests, crashes and account commands.
  lemma OwnElsewhere(cfg: Config, s: System, a: Action, t: string)
    requires Inv(cfg, s) && Own(cfg, s, t) && !a.Step? && !a.InitiateTransfer? && Foreign(a, t)
    ensures Own(cfg, Next(cfg, s, a), t)
  {
    var s' := Next(cfg, s, a);
    assert s'.store.registry == s.store.registry && s'.store.transfers == s.store.transfers;
    forall leg ensures LegRecord(cfg, s'.store, t, leg) {
      assert LegRecord(cfg, s.store, t, leg) && s'.store.Transfer(t) == s.store.Transfer(t);
    }
    forall v ensures OwnPc(s'.At(v), t) { assert OwnPc(s.At(v), t); }
  }

  lemma OwnNext(cfg: Config, s: System, a: Action, t: string)
    requires Inv(cfg, s) && Own(cfg, s, t) && Foreign(a, t)
    ensures Own(cfg, Next(cfg, s, a), t)
  {
    if Enabled(s, a) {
      match a
      case Step(w, o) => OwnAdvance(cfg, s, w, o, t);
      case InitiateTransfer(_, _, _, _, _) => OwnInitiate(cfg, s, a, t);
      case _ => OwnElsewhere(cfg, s, a, t);
    }
  }

  lemma {:induction false} OwnReachable(cfg: Config, schedule: seq<Action>, t: string)
    requires LegIdsUnused(schedule, t)
    ensures Own(cfg, Exec(cfg, schedule), t)
    decreases |schedule|
  {
    if schedule != [] {
      var n := |schedule| - 1;
      Reachable(cfg, schedule[..n]);
      OwnReachable(cfg, schedule[..n], t);
      OwnNext(cfg, Exec(cfg, schedule[..n]), schedule[n], t);
    }
  }

  // After every schedule in which no client uses the leg's id, a record of the leg
  // holds a hundred times the amount that moves, and the account, the operation and
  // the currency of the leg.
  lemma RecordsDescribeLegs(cfg: Config, schedule: seq<Action>, t: string, leg: Leg)
    requires LegIdsUnused(schedule, t)
    ensures var store := Exec(cfg, schedule).store;
            LegId(t, leg) in store.registry ==>
              && T.Fold(store.Transfer(t)).info.Some?
              && (var record, info := store.registry[LegId(t, leg)], T.Fold(store.Transfer(t)).info.value;
                  && record.amount == 100 * info.amount
                  && record.account == (if leg.Credit? then info.destination else info.source)
                  && record.operation == (if leg.Debit? then R.WithdrawOp else R.DepositOp)
                  && record.currency == info.currency)
  {
    OwnReachable(cfg, schedule, t);
    assert LegRecord(cfg, Exec(cfg, schedule).store, t, leg);
  }
}
