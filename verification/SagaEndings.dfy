// Which legs in progress can still be brought to an end: the exact condition, for
// every leg whose handler nobody runs.
module SagaEndings {
  import opened Wrappers
  import opened Sums
  import opened Saga
  import opened SagaBase
  import opened SagaLegs
  import opened SagaInvariant
  import opened SagaTexts
  import opened SagaTheorems
  import opened SagaFailures
  import opened SagaPasses
  import opened SagaBlocked
  import opened SagaClients
  import A = Accounts
  import T = Transfers
  import R = Registry

  // ---- Who can still bring a leg to an end ----

  // The account says no to the movement of the leg.
  predicate Refused(cfg: Config, s: System, t: string, leg: Leg) {
    StateOf(s, t).info.Some? && Answer(cfg, s, t, leg).Failure?
  }

  // The account can still answer in a way that ends the leg: it accepts, or can be
  // frozen, which fails a debit or a credit. A reversal it refuses it refuses for good.
  predicate MayAnswer(cfg: Config, s: System, t: string, leg: Leg) {
    leg != T.Compensation || !Refused(cfg, s, t, leg)
  }

  // An error of the handler that fails the transfer.
  predicate Fails(cfg: Config, leg: Leg, f: Failure) { leg != T.Compensation && cfg.Terminal(f) }

  // What the worker that runs the leg's handler can still come to.
  predicate Promises(cfg: Config, s: System, pc: Pc, t: string, leg: Leg) {
    match pc
    case MarkingCompleted(_) => true
    case MarkingFailed(_, error) => Fails(cfg, leg, error)
    case Moving(job, move) =>
      if move.Read? then MayAnswer(cfg, s, t, leg)
      else
        var decision := A.Decide(A.Fold(move.seen), job.Command());
        if decision.Failure? then Fails(cfg, leg, Rejected(decision.error))
        else || |move.seen| == |s.store.Account(job.input.account)|
             || (if move.attempt < MAX_WRITE_ATTEMPTS then MayAnswer(cfg, s, t, leg)
                 else Fails(cfg, leg, AccountConflict(job.input.account)))
    case _ => false
  }

  predicate Hopeful(cfg: Config, s: System, pc: Pc, t: string, leg: Leg) {
    || CanClose(s.store.Transfer(t), pc, t, leg)
    || (Holds(pc) == Some(LegId(t, leg)) && Promises(cfg, s, pc, t, leg))
  }

  ghost predicate NoneHopeful(cfg: Config, s: System, t: string, leg: Leg) {
    forall w {:trigger s.At(w)} :: !Hopeful(cfg, s, s.At(w), t, leg)
  }

  // A new visit comes to nothing: the registry refuses the leg, or the account does.
  ghost predicate NoWay(cfg: Config, s: System, t: string, leg: Leg) {
    if LegId(t, leg) in s.store.registry then s.store.registry[LegId(t, leg)].status != R.Completed
    else !MayAnswer(cfg, s, t, leg)
  }

  ghost predicate Stuck(cfg: Config, s: System, t: string, leg: Leg) {
    && StateOf(s, t).status == Some(InProgress(leg))
    && NoneHopeful(cfg, s, t, leg) && NoWay(cfg, s, t, leg)
  }

  // ---- Stuck is for good ----

  lemma RefusedStays(cfg: Config, s: System, s': System, t: string)
    requires LegKnown(s.store, t) && SourceKnown(s.store, t) && StoreOk(s'.store)
    requires StateOf(s', t).info == StateOf(s, t).info
    requires var id := StateOf(s, t).info.value.source; s.store.Account(id) <= s'.store.Account(id)
    requires Refused(cfg, s, t, T.Compensation)
    ensures Refused(cfg, s', t, T.Compensation)
  {
    var id := StateOf(s, t).info.value.source;
    assert AccountOk(s'.store, id);
    CreatedStays(id, s.store.Account(id), s'.store.Account(id));
    if A.Fold(s.store.Account(id)).status == A.Frozen {
      FrozenStays(id, s.store.Account(id), s'.store.Account(id));
    }
  }

  lemma AnswerStays(cfg: Config, s: System, a: Action, t: string, leg: Leg)
    requires Inv(cfg, s) && Inv(cfg, Next(cfg, s, a)) && SourceKnown(s.store, t) && LegKnown(s.store, t)
    requires !MayAnswer(cfg, s, t, leg)
    ensures !MayAnswer(cfg, Next(cfg, s, a), t, leg)
  {
    InfoNext(cfg, s, a, t);
    AccountsGrow(cfg, s, a, StateOf(s, t).info.value.source);
    RefusedStays(cfg, s, Next(cfg, s, a), t);
  }

  // A place that promises nothing promises nothing later.
  lemma PromisesStay(cfg: Config, s: System, s': System, pc: Pc, t: string, leg: Leg)
    requires PcOk(cfg, s.store, pc) && !Promises(cfg, s, pc, t, leg)
    requires MayAnswer(cfg, s, t, leg) || !MayAnswer(cfg, s', t, leg)
    requires pc.Moving? ==> s.store.Account(pc.job.input.account) <= s'.store.Account(pc.job.input.account)
    ensures !Promises(cfg, s', pc, t, leg)
  {
  }

  lemma HopelessStays(cfg: Config, s: System, a: Action, pc: Pc, t: string, leg: Leg)
    requires PcOk(cfg, s.store, pc) && !Hopeful(cfg, s, pc, t, leg)
    requires s.store.Transfer(t) <= Next(cfg, s, a).store.Transfer(t)
    requires MayAnswer(cfg, s, t, leg) || !MayAnswer(cfg, Next(cfg, s, a), t, leg)
    ensures !Hopeful(cfg, Next(cfg, s, a), pc, t, leg)
  {
    LongerStream(s.store, Next(cfg, s, a).store, cfg, pc, t, leg);
    if pc.Moving? {
      AccountsGrow(cfg, s, a, pc.job.input.account);
    }
    if Holds(pc) == Some(LegId(t, leg)) {
      PromisesStay(cfg, s, Next(cfg, s, a), pc, t, leg);
    }
  }

  lemma OtherStaysHopeless(cfg: Config, s: System, a: Action, v: nat, t: string, leg: Leg)
    requires WorkersOk(cfg, s) && NoneHopeful(cfg, s, t, leg) && Next(cfg, s, a).At(v) == s.At(v)
    requires s.store.Transfer(t) <= Next(cfg, s, a).store.Transfer(t)
    requires MayAnswer(cfg, s, t, leg) || !MayAnswer(cfg, Next(cfg, s, a), t, leg)
    ensures !Hopeful(cfg, Next(cfg, s, a), Next(cfg, s, a).At(v), t, leg)
  {
    assert PcOk(cfg, s.store, s.At(v)) && !Hopeful(cfg, s, s.At(v), t, leg);
    HopelessStays(cfg, s, a, s.At(v), t, leg);
  }

  // ---- Where a step of a worker that promises nothing leads ----

  // The handler reads, decides, and meets a refusal, a conflict or a failure.
  lemma MovingPromisesNothing(cfg: Config, s: System, w: nat, o: Outcome, t: string, leg: Leg)
    requires s.At(w).Moving? && PcOk(cfg, s.store, s.At(w)) && OwnPc(s.At(w), t)
    requires Holds(s.At(w)) == Some(LegId(t, leg)) && !Promises(cfg, s, s.At(w), t, leg)
    requires LegKnown(s.store, t) && CalmAction(cfg, Step(w, o))
    requires var s' := Advance(cfg, s, w, o); MayAnswer(cfg, s, t, leg) || !MayAnswer(cfg, s', t, leg)
    ensures var s' := Advance(cfg, s, w, o); !Hopeful(cfg, s', s'.At(w), t, leg)
  {
    var Moving(job, move) := s.At(w);
    assert job.owner == TransferLeg(t, leg) && job == JobOf(cfg, s, t, leg);
    AccountRoundFacts(s.store.Account(job.input.account), job.Command(), move, o);
  }

  lemma MarkingPromisesNothing(cfg: Config, s: System, w: nat, o: Outcome, t: string, leg: Leg)
    requires s.At(w).MarkingFailed? && PcOk(cfg, s.store, s.At(w)) && OwnPc(s.At(w), t)
    requires Holds(s.At(w)) == Some(LegId(t, leg)) && !Promises(cfg, s, s.At(w), t, leg)
    requires CalmAction(cfg, Step(w, o))
    ensures var s' := Advance(cfg, s, w, o); !Hopeful(cfg, s', s'.At(w), t, leg)
  {
    assert s.At(w).job.owner == TransferLeg(t, leg);
  }

  // A worker on another transaction does not come to this leg's end.
  lemma OthersGoElsewhere(cfg: Config, store: Store, pc: Pc, o: Outcome, t: string, leg: Leg)
    requires PcOk(cfg, store, pc) && JobAt(pc).Some? && JobAt(pc).value.Tx() != LegId(t, leg)
    ensures var (change, pc') := Effect(cfg, store, pc, o);
            !CanClose(Changed(store, change).Transfer(t), pc', t, leg) && Holds(pc') != Some(LegId(t, leg))
  {
  }

  // A reservation of the leg itself is refused, or starts a hopeless handler.
  lemma ReservingIsHopeless(cfg: Config, s: System, w: nat, o: Outcome, t: string, leg: Leg)
    requires s.At(w).Reserving? && PcOk(cfg, s.store, s.At(w)) && OwnPc(s.At(w), t)
    requires s.At(w).job.Tx() == LegId(t, leg) && RecordOk(s.store, LegId(t, leg)) && NoWay(cfg, s, t, leg)
    requires Tame(cfg, t) && CalmAction(cfg, Step(w, o))
    requires var s' := Advance(cfg, s, w, o); MayAnswer(cfg, s, t, leg) || !MayAnswer(cfg, s', t, leg)
    ensures var s' := Advance(cfg, s, w, o); !Hopeful(cfg, s', s'.At(w), t, leg)
  {
    assert s.At(w).job.owner == TransferLeg(t, leg);
    if LegId(t, leg) in s.store.registry {
      ReservingIsRefused(cfg, s.store, s.At(w), o, t, leg);
    }
  }

  // Before the reservation and after the registry no worker takes up a handler.
  lemma StartIsNoEnd(cfg: Config, store: Store, pc: Pc, o: Outcome, t: string, leg: Leg)
    requires PcOk(cfg, store, pc) && (pc.Picked? || pc.Entering? || pc.Starting?)
    requires pc.Picked? ==> StreamOk(store, pc.t)
    ensures var (change, pc') := Effect(cfg, store, pc, o);
            !CanClose(Changed(store, change).Transfer(t), pc', t, leg) && Holds(pc').None?
  {
    if pc.Picked? {
      DispatchReaches(pc.t, T.Fold(store.Transfer(pc.t)));
    }
  }

  lemma EndHoldsNothing(cfg: Config, store: Store, pc: Pc, o: Outcome)
    requires pc.Finishing? || pc.Failing?
    ensures Holds(Effect(cfg, store, pc, o).1).None?
  {
  }

  // Where the step leads, for a worker that is not idle.
  lemma NotHopeful(cfg: Config, s: System, w: nat, o: Outcome, t: string, leg: Leg)
    requires !s.At(w).Idle?
    requires var (change, pc') := Effect(cfg, s.store, s.At(w), o);
             !CanClose(Changed(s.store, change).Transfer(t), pc', t, leg) && Holds(pc') != Some(LegId(t, leg))
    ensures var s' := Advance(cfg, s, w, o); !Hopeful(cfg, s', s'.At(w), t, leg)
  {
  }

  lemma StepIsHopeless(cfg: Config, s: System, w: nat, o: Outcome, t: string, leg: Leg)
    requires PcOk(cfg, s.store, s.At(w)) && OwnPc(s.At(w), t) && !Hopeful(cfg, s, s.At(w), t, leg)
    requires RecordOk(s.store, LegId(t, leg)) && NoWay(cfg, s, t, leg) && LegKnown(s.store, t)
    requires forall u :: StreamOk(s.store, u)
    requires Tame(cfg, t) && CalmAction(cfg, Step(w, o))
    requires var s' := Advance(cfg, s, w, o); MayAnswer(cfg, s, t, leg) || !MayAnswer(cfg, s', t, leg)
    ensures var s' := Advance(cfg, s, w, o); !Hopeful(cfg, s', s'.At(w), t, leg)
  {
    var pc := s.At(w);
    if JobAt(pc).Some? {
      if JobAt(pc).value.Tx() != LegId(t, leg) {
        OthersGoElsewhere(cfg, s.store, pc, o, t, leg);
        NotHopeful(cfg, s, w, o, t, leg);
      } else if pc.Reserving? {
        ReservingIsHopeless(cfg, s, w, o, t, leg);
      } else if pc.Moving? {
        MovingPromisesNothing(cfg, s, w, o, t, leg);
      } else {
        MarkingPromisesNothing(cfg, s, w, o, t, leg);
      }
    } else if pc.Finishing? || pc.Failing? {
      ClosingStaysUnable(cfg, s.store, pc, o, t, leg);
      EndHoldsNothing(cfg, s.store, pc, o);
      NotHopeful(cfg, s, w, o, t, leg);
    } else if !pc.Idle? {
      assert pc.Picked? ==> StreamOk(s.store, pc.t);
      StartIsNoEnd(cfg, s.store, pc, o, t, leg);
      NotHopeful(cfg, s, w, o, t, leg);
    }
  }

  // Only a worker that promises completes the record.
  lemma NoWayStays(cfg: Config, s: System, w: nat, o: Outcome, t: string, leg: Leg)
    requires PcOk(cfg, s.store, s.At(w)) && !Hopeful(cfg, s, s.At(w), t, leg) && NoWay(cfg, s, t, leg)
    requires var s' := Advance(cfg, s, w, o); MayAnswer(cfg, s, t, leg) || !MayAnswer(cfg, s', t, leg)
    ensures NoWay(cfg, Advance(cfg, s, w, o), t, leg)
  {
    EffectMay(cfg, s.store, s.At(w), o);
  }

  lemma AnswerSettled(cfg: Config, s: System, a: Action, t: string, leg: Leg)
    requires Inv(cfg, s) && Inv(cfg, Next(cfg, s, a)) && SourceKnown(s.store, t) && LegKnown(s.store, t)
    ensures MayAnswer(cfg, s, t, leg) || !MayAnswer(cfg, Next(cfg, s, a), t, leg)
  {
    if !MayAnswer(cfg, s, t, leg) {
      AnswerStays(cfg, s, a, t, leg);
    }
  }

  // The worker that steps keeps the leg in progress and gains no hope.
  lemma StuckWorker(cfg: Config, s: System, w: nat, o: Outcome, t: string, leg: Leg)
    requires StoreOk(s.store) && PcOk(cfg, s.store, s.At(w)) && OwnPc(s.At(w), t) && Agreement(s, t)
    requires LegKnown(s.store, t) && Stuck(cfg, s, t, leg) && Tame(cfg, t) && CalmAction(cfg, Step(w, o))
    requires var s' := Advance(cfg, s, w, o); MayAnswer(cfg, s, t, leg) || !MayAnswer(cfg, s', t, leg)
    ensures var s' := Advance(cfg, s, w, o);
            && StateOf(s', t).status == Some(InProgress(leg)) && NoWay(cfg, s', t, leg)
            && !Hopeful(cfg, s', s'.At(w), t, leg) && s.store.Transfer(t) <= s'.store.Transfer(t)
  {
    assert PlaceOk(s.store, t, StateOf(s, t), s.At(w)) && !Hopeful(cfg, s, s.At(w), t, leg);
    assert RecordOk(s.store, LegId(t, leg));
    EffectKeepsProgress(cfg, s.store, s.At(w), o, t, leg);
    NoWayStays(cfg, s, w, o, t, leg);
    StepIsHopeless(cfg, s, w, o, t, leg);
    StreamGrows(s.store, Effect(cfg, s.store, s.At(w), o).0, t);
  }

  lemma StuckAdvance(cfg: Config, s: System, w: nat, o: Outcome, t: string, leg: Leg)
    requires Inv(cfg, s) && Inv(cfg, Advance(cfg, s, w, o)) && Own(cfg, s, t) && Agreement(s, t)
    requires SourceKnown(s.store, t) && LegKnown(s.store, t) && Stuck(cfg, s, t, leg)
    requires Tame(cfg, t) && CalmAction(cfg, Step(w, o))
    ensures Stuck(cfg, Advance(cfg, s, w, o), t, leg)
  {
    var s' := Advance(cfg, s, w, o);
    assert PcOk(cfg, s.store, s.At(w)) && OwnPc(s.At(w), t);
    AnswerSettled(cfg, s, Step(w, o), t, leg);
    StuckWorker(cfg, s, w, o, t, leg);
    forall v {:trigger s'.At(v)} ensures !Hopeful(cfg, s', s'.At(v), t, leg) {
      if v != w {
        OtherStaysHopeless(cfg, s, Step(w, o), v, t, leg);
      }
    }
  }

  lemma StuckElsewhere(cfg: Config, s: System, a: Action, t: string, leg: Leg)
    requires Inv(cfg, s) && Inv(cfg, Next(cfg, s, a)) && !a.Step? && Enabled(s, a)
    requires SourceKnown(s.store, t) && LegKnown(s.store, t) && Stuck(cfg, s, t, leg)
    ensures Stuck(cfg, Next(cfg, s, a), t, leg)
  {
    var s' := Next(cfg, s, a);
    AnswerSettled(cfg, s, a, t, leg);
    LeavesLegs(cfg, s, a, t);
    forall v {:trigger s'.At(v)} ensures !Hopeful(cfg, s', s'.At(v), t, leg) {
      NewPlace(cfg, s, a, v);
      if s'.At(v) == s.At(v) {
        OtherStaysHopeless(cfg, s, a, v, t, leg);
      }
    }
  }

  lemma LeavesLegs(cfg: Config, s: System, a: Action, t: string)
    requires Inv(cfg, s) && !a.Step? && Enabled(s, a) && LegKnown(s.store, t)
    ensures var s' := Next(cfg, s, a);
            s'.store.Transfer(t) == s.store.Transfer(t) && s'.store.registry == s.store.registry
  {
  }

  // A client's action and a crash leave a worker where it is or at a beginning.
  lemma NewPlace(cfg: Config, s: System, a: Action, v: nat)
    requires !a.Step?
    ensures var pc := Next(cfg, s, a).At(v);
            pc == s.At(v) || pc.Idle? || pc.Picked? || pc.Reserving?
  {
  }

  lemma {:induction false} StuckStays(cfg: Config, schedule: seq<Action>, more: seq<Action>, t: string, leg: Leg)
    requires Tame(cfg, t) && Calmly(cfg, schedule, t) && Calmly(cfg, more, t)
    requires Stuck(cfg, Exec(cfg, schedule), t, leg)
    ensures Stuck(cfg, Exec(cfg, schedule + more), t, leg)
    decreases |more|
  {
    if more == [] {
      assert schedule + more == schedule;
    } else {
      var before, a := more[..|more|-1], more[|more|-1];
      StuckStays(cfg, schedule, before, t, leg);
      CalmlyAfter(cfg, schedule, before, t);
      ExecSnoc(cfg, schedule, more);
      Reachable(cfg, schedule + more);
      StuckNext(cfg, schedule + before, a, t, leg);
    }
  }

  lemma StuckNext(cfg: Config, schedule: seq<Action>, a: Action, t: string, leg: Leg)
    requires Tame(cfg, t) && Calmly(cfg, schedule, t) && CalmAction(cfg, a)
    requires Stuck(cfg, Exec(cfg, schedule), t, leg) && Inv(cfg, Next(cfg, Exec(cfg, schedule), a))
    ensures Stuck(cfg, Next(cfg, Exec(cfg, schedule), a), t, leg)
  {
    var s := Exec(cfg, schedule);
    Reachable(cfg, schedule);
    OwnReachable(cfg, schedule, t);
    AgreementReachable(cfg, schedule, t);
    SourceReachable(cfg, schedule, t);
    assert StreamOk(s.store, t);
    if a.Step? {
      StuckAdvance(cfg, s, a.w, a.o, t, leg);
    } else if Enabled(s, a) {
      StuckElsewhere(cfg, s, a, t, leg);
    }
  }

  // ---- A worker that promises keeps its promise ----

  // The mark is the last step before the end of the leg.
  lemma MarkingStep(cfg: Config, s: System, w: nat, t: string, leg: Leg)
    requires AsCoded(cfg) && PcOk(cfg, s.store, s.At(w)) && OwnPc(s.At(w), t)
    requires s.At(w).MarkingCompleted? || s.At(w).MarkingFailed?
    requires Holds(s.At(w)) == Some(LegId(t, leg)) && Promises(cfg, s, s.At(w), t, leg)
    ensures var s' := Advance(cfg, s, w, Done);
            s'.store.transfers == s.store.transfers && CanClose(s'.store.Transfer(t), s'.At(w), t, leg)
  {
    assert s.At(w).job.owner == TransferLeg(t, leg);
    if s.At(w).MarkingFailed? {
      TerminalHasText(cfg, s.At(w).error);
    }
  }

  // A write that is not stale, or for the last time, leads to a mark.
  lemma WriteStep(cfg: Config, s: System, w: nat, t: string, leg: Leg)
    requires PcOk(cfg, s.store, s.At(w)) && s.At(w).Moving? && s.At(w).move.Write?
    requires Holds(s.At(w)) == Some(LegId(t, leg)) && Promises(cfg, s, s.At(w), t, leg)
    requires !Stale(s, s.At(w))
    ensures var s' := Advance(cfg, s, w, Done);
            && s'.store.transfers == s.store.transfers
            && (s'.At(w).MarkingCompleted? || s'.At(w).MarkingFailed?)
            && Holds(s'.At(w)) == Some(LegId(t, leg)) && Promises(cfg, s', s'.At(w), t, leg)
  {
  }

  // The write will meet a conflict and be tried again.
  predicate Stale(s: System, pc: Pc)
    requires pc.Moving? && pc.move.Write?
  {
    && A.Decide(A.Fold(pc.move.seen), pc.job.Command()).Success?
    && |pc.move.seen| != |s.store.Account(pc.job.input.account)| && pc.move.attempt < MAX_WRITE_ATTEMPTS
  }

  lemma StaleStep(cfg: Config, s: System, w: nat)
    requires s.At(w).Moving? && s.At(w).move.Write? && Stale(s, s.At(w))
    ensures var s' := Advance(cfg, s, w, Done);
            s'.store == s.store && s'.At(w) == Moving(s.At(w).job, Read(s.At(w).move.attempt + 1))
  {
  }

  // What the account says now is what the next write will meet.
  lemma ReadStep(cfg: Config, s: System, w: nat, t: string, leg: Leg)
    requires PcOk(cfg, s.store, s.At(w)) && OwnPc(s.At(w), t) && LegKnown(s.store, t)
    requires s.At(w).Moving? && s.At(w).move.Read? && Holds(s.At(w)) == Some(LegId(t, leg))
    requires Answer(cfg, s, t, leg).Failure? ==> Fails(cfg, leg, Rejected(Answer(cfg, s, t, leg).error))
    ensures var s' := Advance(cfg, s, w, Done);
            && s'.store == s.store && s'.At(w).Moving? && s'.At(w).move.Write?
            && Holds(s'.At(w)) == Some(LegId(t, leg)) && Promises(cfg, s', s'.At(w), t, leg) && !Stale(s', s'.At(w))
  {
    assert s.At(w).job == JobOf(cfg, s, t, leg);
  }

  lemma StepOnce(cfg: Config, schedule: seq<Action>, w: nat, t: string)
    ensures Exec(cfg, schedule + [Step(w, Done)]) == Advance(cfg, Exec(cfg, schedule), w, Done)
    ensures Calmly(cfg, [Step(w, Done)], t)
  {
    ExecSnoc(cfg, schedule, [Step(w, Done)]);
    assert schedule + [] == schedule;
  }

  // Each of these gives the rest of the way to the end of the leg.
  ghost predicate Ends(cfg: Config, schedule: seq<Action>, more: seq<Action>, t: string, leg: Leg) {
    Calmly(cfg, more, t) && StateOf(Exec(cfg, schedule + more), t).status != Some(InProgress(leg))
  }

  lemma EndsAfter(cfg: Config, schedule: seq<Action>, first: seq<Action>, rest: seq<Action>, t: string, leg: Leg)
    requires Calmly(cfg, first, t) && Ends(cfg, schedule + first, rest, t, leg)
    ensures Ends(cfg, schedule, first + rest, t, leg)
  {
    CalmlyAfter(cfg, first, rest, t);
    assert schedule + (first + rest) == schedule + first + rest;
  }

  lemma CloserEnds(cfg: Config, schedule: seq<Action>, t: string, leg: Leg, w: nat) returns (more: seq<Action>)
    requires StateOf(Exec(cfg, schedule), t).status == Some(InProgress(leg))
    requires CanClose(Exec(cfg, schedule).store.Transfer(t), Exec(cfg, schedule).At(w), t, leg)
    ensures Ends(cfg, schedule, more, t, leg)
  {
    var n := CanCloseLeaves(cfg, schedule, t, leg, w);
    more := Steps(w, n);
  }

  // The worker runs the leg's handler and promises.
  ghost predicate Promising(cfg: Config, schedule: seq<Action>, t: string, leg: Leg, w: nat) {
    var s := Exec(cfg, schedule);
    && LegIdsUnused(schedule, t) && StateOf(s, t).status == Some(InProgress(leg))
    && Holds(s.At(w)) == Some(LegId(t, leg)) && Promises(cfg, s, s.At(w), t, leg)
  }

  lemma HolderFacts(cfg: Config, schedule: seq<Action>, t: string, w: nat)
    requires LegIdsUnused(schedule, t)
    ensures var s := Exec(cfg, schedule); PcOk(cfg, s.store, s.At(w)) && OwnPc(s.At(w), t) && StreamOk(s.store, t)
  {
    Reachable(cfg, schedule);
    OwnReachable(cfg, schedule, t);
  }

  lemma UnusedAfter(schedule: seq<Action>, more: seq<Action>, t: string)
    requires LegIdsUnused(schedule, t) && LegIdsUnused(more, t)
    ensures LegIdsUnused(schedule + more, t)
  {
  }

  lemma MarkingEnds(cfg: Config, schedule: seq<Action>, t: string, leg: Leg, w: nat) returns (more: seq<Action>)
    requires AsCoded(cfg) && Promising(cfg, schedule, t, leg, w)
    requires var pc := Exec(cfg, schedule).At(w); pc.MarkingCompleted? || pc.MarkingFailed?
    ensures Ends(cfg, schedule, more, t, leg)
  {
    var s, step := Exec(cfg, schedule), [Step(w, Done)];
    HolderFacts(cfg, schedule, t, w);
    MarkingStep(cfg, s, w, t, leg);
    StepOnce(cfg, schedule, w, t);
    assert Exec(cfg, schedule + step).store.Transfer(t) == s.store.Transfer(t);
    var rest := CloserEnds(cfg, schedule + step, t, leg, w);
    EndsAfter(cfg, schedule, step, rest, t, leg);
    more := step + rest;
  }

  lemma WriteEnds(cfg: Config, schedule: seq<Action>, t: string, leg: Leg, w: nat) returns (more: seq<Action>)
    requires AsCoded(cfg) && Promising(cfg, schedule, t, leg, w)
    requires var pc := Exec(cfg, schedule).At(w); pc.Moving? && pc.move.Write? && !Stale(Exec(cfg, schedule), pc)
    ensures Ends(cfg, schedule, more, t, leg)
  {
    var s, step := Exec(cfg, schedule), [Step(w, Done)];
    HolderFacts(cfg, schedule, t, w);
    WriteStep(cfg, s, w, t, leg);
    StepOnce(cfg, schedule, w, t);
    UnusedAfter(schedule, step, t);
    assert Exec(cfg, schedule + step).store.Transfer(t) == s.store.Transfer(t);
    var rest := MarkingEnds(cfg, schedule + step, t, leg, w);
    EndsAfter(cfg, schedule, step, rest, t, leg);
    more := step + rest;
  }

  // After a read whose decision is known.
  lemma AnsweredReadEnds(cfg: Config, schedule: seq<Action>, t: string, leg: Leg, w: nat) returns (more: seq<Action>)
    requires AsCoded(cfg) && LegIdsUnused(schedule, t)
    requires var s := Exec(cfg, schedule);
             && StateOf(s, t).status == Some(InProgress(leg)) && LegKnown(s.store, t)
             && s.At(w).Moving? && s.At(w).move.Read? && Holds(s.At(w)) == Some(LegId(t, leg))
             && (Answer(cfg, s, t, leg).Failure? ==> Fails(cfg, leg, Rejected(Answer(cfg, s, t, leg).error)))
    ensures Ends(cfg, schedule, more, t, leg)
  {
    var s, step := Exec(cfg, schedule), [Step(w, Done)];
    HolderFacts(cfg, schedule, t, w);
    ReadStep(cfg, s, w, t, leg);
    StepOnce(cfg, schedule, w, t);
    UnusedAfter(schedule, step, t);
    var rest := WriteEnds(cfg, schedule + step, t, leg, w);
    EndsAfter(cfg, schedule, step, rest, t, leg);
    more := step + rest;
  }

  // The account of a debit or credit can be frozen first.
  lemma ReadEnds(cfg: Config, schedule: seq<Action>, t: string, leg: Leg, w: nat) returns (more: seq<Action>)
    requires AsCoded(cfg) && Promising(cfg, schedule, t, leg, w)
    requires var pc := Exec(cfg, schedule).At(w); pc.Moving? && pc.move.Read?
    ensures Ends(cfg, schedule, more, t, leg)
  {
    HolderFacts(cfg, schedule, t, w);
    if leg == T.Compensation {
      more := AnsweredReadEnds(cfg, schedule, t, leg, w);
    } else {
      var freeze := FreezeOf(cfg, Exec(cfg, schedule), t, leg);
      var h := schedule + [freeze];
      FrozenFirst(cfg, schedule, freeze.id);
      assert Exec(cfg, h).store.Transfer(t) == Exec(cfg, schedule).store.Transfer(t);
      assert Exec(cfg, h).At(w) == Exec(cfg, schedule).At(w);
      FrozenRejects(cfg, Exec(cfg, h), t, leg);
      UnusedAfter(schedule, [freeze], t);
      var rest := AnsweredReadEnds(cfg, h, t, leg, w);
      EndsAfter(cfg, schedule, [freeze], rest, t, leg);
      more := [freeze] + rest;
    }
  }

  lemma PromiseEnds(cfg: Config, schedule: seq<Action>, t: string, leg: Leg, w: nat) returns (more: seq<Action>)
    requires AsCoded(cfg) && Promising(cfg, schedule, t, leg, w)
    ensures Ends(cfg, schedule, more, t, leg)
  {
    var s := Exec(cfg, schedule);
    if s.At(w).MarkingCompleted? || s.At(w).MarkingFailed? {
      more := MarkingEnds(cfg, schedule, t, leg, w);
    } else if s.At(w).move.Read? {
      more := ReadEnds(cfg, schedule, t, leg, w);
    } else if !Stale(s, s.At(w)) {
      more := WriteEnds(cfg, schedule, t, leg, w);
    } else {
      StaleStep(cfg, s, w);
      StepOnce(cfg, schedule, w, t);
      UnusedAfter(schedule, [Step(w, Done)], t);
      var rest := ReadEnds(cfg, schedule + [Step(w, Done)], t, leg, w);
      EndsAfter(cfg, schedule, [Step(w, Done)], rest, t, leg);
      more := [Step(w, Done)] + rest;
    }
  }

  // ---- The exact condition ----

  // In the caller's terms: no id of t's legs is used, and no error contains a phrase.
  lemma OrderlyIsCalm(cfg: Config, schedule: seq<Action>, t: string)
    requires AsCoded(cfg) && NoPhrase(t)
    ensures Orderly(schedule, t) <==> Calmly(cfg, schedule, t)
    ensures Tame(cfg, t)
  {
    TameIff(cfg, t);
    PlainErrorsAreCalm(cfg, schedule);
  }

  // A new visit ends the leg, after a freeze if need be.
  lemma VisitEnds(cfg: Config, schedule: seq<Action>, t: string, leg: Leg) returns (more: seq<Action>)
    requires AsCoded(cfg) && LegIdsUnused(schedule, t)
    requires StateOf(Exec(cfg, schedule), t).status == Some(InProgress(leg))
    requires !NoWay(cfg, Exec(cfg, schedule), t, leg)
    ensures Ends(cfg, schedule, more, t, leg)
  {
    var s := Exec(cfg, schedule);
    var w := IdleWorker(s);
    Reachable(cfg, schedule);
    assert StreamOk(s.store, t);
    more := VisitOf(w, t);
    VisitIsCalm(cfg, w, t);
    if LegId(t, leg) in s.store.registry {
      CompletedCanEnd(cfg, schedule, t, leg, w);
    } else if leg == T.Compensation {
      AnsweredCanEnd(cfg, schedule, t, leg, w);
    } else {
      more := LegCanEnd(cfg, schedule, t, leg, w);
    }
  }

  lemma OpenEnds(cfg: Config, schedule: seq<Action>, t: string, leg: Leg) returns (more: seq<Action>)
    requires AsCoded(cfg) && LegIdsUnused(schedule, t)
    requires StateOf(Exec(cfg, schedule), t).status == Some(InProgress(leg)) && !Stuck(cfg, Exec(cfg, schedule), t, leg)
    ensures Ends(cfg, schedule, more, t, leg)
  {
    var s := Exec(cfg, schedule);
    if NoneHopeful(cfg, s, t, leg) {
      more := VisitEnds(cfg, schedule, t, leg);
    } else {
      var w: nat :| Hopeful(cfg, s, s.At(w), t, leg);
      if CanClose(s.store.Transfer(t), s.At(w), t, leg) {
        more := CloserEnds(cfg, schedule, t, leg, w);
      } else {
        more := PromiseEnds(cfg, schedule, t, leg, w);
      }
    }
  }

  ghost predicate StaysFor(cfg: Config, schedule: seq<Action>, more: seq<Action>, t: string, leg: Leg) {
    Orderly(more, t) ==> StateOf(Exec(cfg, schedule + more), t).status == Some(InProgress(leg))
  }

  // A leg in progress stays in progress, in every orderly continuation, if and only if
  // no worker is hopeful and a new visit comes to nothing.
  lemma StaysInProgressIff(cfg: Config, schedule: seq<Action>, t: string, leg: Leg)
    requires AsCoded(cfg) && Orderly(schedule, t)
    requires StateOf(Exec(cfg, schedule), t).status == Some(InProgress(leg))
    ensures (forall more :: StaysFor(cfg, schedule, more, t, leg))
            <==> (NoneHopeful(cfg, Exec(cfg, schedule), t, leg) && NoWay(cfg, Exec(cfg, schedule), t, leg))
  {
    OrderlyIsCalm(cfg, schedule, t);
    if Stuck(cfg, Exec(cfg, schedule), t, leg) {
      forall more ensures StaysFor(cfg, schedule, more, t, leg) {
        if Orderly(more, t) {
          OrderlyIsCalm(cfg, more, t);
          StuckStays(cfg, schedule, more, t, leg);
        }
      }
    } else {
      var more := OpenEnds(cfg, schedule, t, leg);
      OrderlyIsCalm(cfg, more, t);
      assert !StaysFor(cfg, schedule, more, t, leg);
    }
  }

  // In particular a reversal that has not moved and that the source account refuses -
  // it is frozen, or the amount is not a positive one - is never compensated.
  lemma RefusedForGood(cfg: Config, schedule: seq<Action>, more: seq<Action>, t: string)
    requires AsCoded(cfg) && Orderly(schedule, t) && Orderly(more, t)
    requires var s := Exec(cfg, schedule);
             && StateOf(s, t).status == Some(T.CompensationInProgress)
             && LegMoves(s, t, T.Compensation) == 0 && Refused(cfg, s, t, T.Compensation)
    ensures StateOf(Exec(cfg, schedule + more), t).status == Some(T.CompensationInProgress)
  {
    var s := Exec(cfg, schedule);
    OrderlyIsCalm(cfg, schedule, t);
    OrderlyIsCalm(cfg, more, t);
    Reachable(cfg, schedule);
    OwnReachable(cfg, schedule, t);
    AgreementReachable(cfg, schedule, t);
    assert RecordOk(s.store, LegId(t, T.Compensation));
    forall w {:trigger s.At(w)} ensures !Hopeful(cfg, s, s.At(w), t, T.Compensation) {
      assert PcOk(cfg, s.store, s.At(w)) && OwnPc(s.At(w), t) && PlaceOk(s.store, t, StateOf(s, t), s.At(w));
      UnmovedPromisesNothing(cfg, s, w, t);
    }
    StuckStays(cfg, schedule, more, t, T.Compensation);
  }

  lemma UnmovedPromisesNothing(cfg: Config, s: System, w: nat, t: string)
    requires PcOk(cfg, s.store, s.At(w)) && OwnPc(s.At(w), t) && PlaceOk(s.store, t, StateOf(s, t), s.At(w))
    requires LegMoves(s, t, T.Compensation) == 0 && Refused(cfg, s, t, T.Compensation)
    ensures !Hopeful(cfg, s, s.At(w), t, T.Compensation)
  {
    var pc := s.At(w);
    if pc.Moving? && pc.move.Write? && Holds(pc) == Some(LegId(t, T.Compensation)) {
      assert pc.job == JobOf(cfg, s, t, T.Compensation);
      assert |pc.move.seen| == |s.store.Account(pc.job.input.account)| ==>
          pc.move.seen == s.store.Account(pc.job.input.account);
    }
  }
}
