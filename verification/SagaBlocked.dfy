// Which legs are blocked for good: a leg in progress stays in progress, in every
// continuation, when the registry refuses it and nobody is past the registry.
module SagaBlocked {
  import opened Wrappers
  import opened Sums
  import opened Saga
  import opened SagaBase
  import opened SagaLegs
  import opened SagaInvariant
  import opened SagaTexts
  import opened SagaTheorems
  import opened SagaFailures
  import opened SagaPasses
  import A = Accounts
  import T = Transfers
  import R = Registry

  function InProgress(leg: Leg): T.Status {
    match leg
    case Debit => T.DebitInProgress
    case Credit => T.CreditInProgress
    case Compensation => T.CompensationInProgress
  }

  // The worker is past the registry and can still write an end of the leg: its
  // completion, or the failure of the transfer.
  predicate CanClose(stream: seq<T.Event>, pc: Pc, t: string, leg: Leg) {
    && (pc.Finishing? || pc.Failing?) && pc.t == t && pc.leg == leg
    && (if pc.write.Read? then pc.Failing? ==> pc.reason != ""
        else && T.Decide(T.Fold(pc.write.seen), TransferCommand(pc).value).Success?
             && (|pc.write.seen| == |stream| || pc.write.attempt < MAX_WRITE_ATTEMPTS))
  }

  ghost predicate NoneCanClose(s: System, t: string, leg: Leg) {
    forall w {:trigger s.At(w)} :: !CanClose(s.store.Transfer(t), s.At(w), t, leg)
  }

  // The registry refuses the leg: it has a record that is not completed, and nobody
  // runs its handler. Failed records and those whose worker died are of this kind.
  ghost predicate Shut(s: System, tx: string) {
    && tx in s.store.registry && s.store.registry[tx].status != R.Completed
    && Unheld(s, tx)
  }

  ghost predicate Blocked(s: System, t: string, leg: Leg) {
    && StateOf(s, t).status == Some(InProgress(leg)) && Shut(s, LegId(t, leg))
    && NoneCanClose(s, t, leg)
  }

  // ---- Blocked is for good ----

  // While a leg is in progress only its own start is accepted, ...
  lemma StartStays(st: T.State, leg: Leg, other: Leg, tx: string, e: T.Event)
    requires st.status == Some(InProgress(leg)) && T.Decide(st, T.Start(other, tx)) == Success(e)
    ensures T.When(st, e).status == Some(InProgress(leg))
  {
  }

  // ... only its own end ...
  lemma EndRefused(st: T.State, leg: Leg, other: Leg)
    requires st.status == Some(InProgress(leg)) && other != leg
    ensures T.Decide(st, FinishCommand(other)).Failure?
  {
  }

  // ... and no failure of another leg that has not moved.
  lemma FailRefused(st: T.State, leg: Leg, other: Leg, reason: string,
      debits: int, credits: int, reversals: int, debitClosed: bool, creditClosed: bool)
    requires Tally(st, debits, credits, reversals, debitClosed, creditClosed)
    requires st.status == Some(InProgress(leg)) && other != leg
    requires other != T.Compensation && Started(other, st) && CountOf(other, debits, credits, reversals) == 0
    ensures T.Decide(st, T.Fail(reason, FailureStage(other))).Failure?
  {
  }

  // A command that does not end the leg does not take the transfer out of it.
  lemma OtherCommand(store: Store, t: string, leg: Leg, st: T.State, pc: Pc, e: T.Event)
    requires TransferCommand(pc).Some? && pc.t == t && (pc.Failing? ==> pc.leg != T.Compensation)
    requires st.status == Some(InProgress(leg)) && T.Decide(st, TransferCommand(pc).value) == Success(e)
    requires Agrees(store, t, st) && PlaceOk(store, t, st, pc)
    requires pc.Finishing? || pc.Failing? ==> pc.leg != leg
    ensures T.When(st, e).status == Some(InProgress(leg))
  {
    match pc
    case Starting(_, other, tx, _, _) => StartStays(st, leg, other, tx, e);
    case Finishing(_, other, _) => EndRefused(st, leg, other);
    case Failing(_, other, reason, _) =>
      FailRefused(st, leg, other, reason, Moves(store.accounts, LegId(t, T.Debit)),
                  Moves(store.accounts, LegId(t, T.Credit)), Moves(store.accounts, LegId(t, T.Compensation)),
                  Open(store, LegId(t, T.Debit), R.FailedTerminal), Open(store, LegId(t, T.Credit), R.FailedTerminal));
  }

  // A worker that writes an end of a leg could close it.
  lemma WriterCanClose(stream: seq<T.Event>, pc: Pc, o: Outcome)
    requires pc.Finishing? || pc.Failing?
    requires TransferRound(stream, TransferCommand(pc).value, pc.write, o).Wrote?
    ensures CanClose(stream, pc, pc.t, pc.leg)
  {
  }

  lemma EffectKeepsProgress(cfg: Config, store: Store, pc: Pc, o: Outcome, t: string, leg: Leg)
    requires PcOk(cfg, store, pc) && AgreementOk(store, t) && PlaceOk(store, t, T.Fold(store.Transfer(t)), pc)
    requires T.Fold(store.Transfer(t)).status == Some(InProgress(leg)) && !CanClose(store.Transfer(t), pc, t, leg)
    ensures T.Fold(Changed(store, Effect(cfg, store, pc, o).0).Transfer(t)).status == Some(InProgress(leg))
  {
    var change := Effect(cfg, store, pc, o).0;
    EffectMay(cfg, store, pc, o);
    if change.Transferred? && change.t == t {
      if pc.Finishing? || pc.Failing? {
        WriterCanClose(store.Transfer(t), pc, o);
      }
      OtherCommand(store, t, leg, T.Fold(store.Transfer(t)), pc, change.event);
      T.FoldSnoc(store.Transfer(t), change.event);
    } else {
      assert Changed(store, change).Transfer(t) == store.Transfer(t);
    }
  }

  // A closing round that can no longer write does not get able to.
  lemma ClosingStaysUnable(cfg: Config, store: Store, pc: Pc, o: Outcome, t: string, leg: Leg)
    requires PcOk(cfg, store, pc) && (pc.Finishing? || pc.Failing?)
    requires Tame(cfg, t) && CalmAction(cfg, Step(0, o)) && !CanClose(store.Transfer(t), pc, t, leg)
    ensures var (change, pc') := Effect(cfg, store, pc, o);
            !CanClose(Changed(store, change).Transfer(t), pc', t, leg)
  {
    TransferRoundFacts(store.Transfer(pc.t), TransferCommand(pc).value, pc.write, o);
  }

  // A reservation of a leg the registry refuses comes to nothing.
  lemma ReservingIsRefused(cfg: Config, store: Store, pc: Pc, o: Outcome, t: string, leg: Leg)
    requires PcOk(cfg, store, pc) && pc.Reserving? && RecordOk(store, LegId(t, leg))
    requires LegId(t, leg) in store.registry && store.registry[LegId(t, leg)].status != R.Completed
    requires Tame(cfg, t) && CalmAction(cfg, Step(0, o))
    ensures var (change, pc') := Effect(cfg, store, pc, o);
            !CanClose(Changed(store, change).Transfer(t), pc', t, leg)
  {
    var job := pc.job;
    if job.owner == TransferLeg(t, leg) {
      assert job.Tx() == LegId(t, leg);
    }
  }

  // Nobody comes to an end of a leg whose record is shut.
  lemma NoNewCloser(cfg: Config, store: Store, pc: Pc, o: Outcome, t: string, leg: Leg)
    requires PcOk(cfg, store, pc) && RecordOk(store, LegId(t, leg)) && Holds(pc) != Some(LegId(t, leg))
    requires LegId(t, leg) in store.registry && store.registry[LegId(t, leg)].status != R.Completed
    requires Tame(cfg, t) && CalmAction(cfg, Step(0, o)) && !CanClose(store.Transfer(t), pc, t, leg)
    ensures var (change, pc') := Effect(cfg, store, pc, o);
            !CanClose(Changed(store, change).Transfer(t), pc', t, leg)
  {
    match pc
    case Reserving(_) => ReservingIsRefused(cfg, store, pc, o, t, leg);
    case Finishing(_, _, _) => ClosingStaysUnable(cfg, store, pc, o, t, leg);
    case Failing(_, _, _, _) => ClosingStaysUnable(cfg, store, pc, o, t, leg);
    case _ =>
  }

  // A stale write stays stale.
  lemma LongerStream(store: Store, store': Store, cfg: Config, pc: Pc, t: string, leg: Leg)
    requires PcOk(cfg, store, pc) && store.Transfer(t) <= store'.Transfer(t)
    requires !CanClose(store.Transfer(t), pc, t, leg)
    ensures !CanClose(store'.Transfer(t), pc, t, leg)
  {
  }

  lemma StreamGrows(store: Store, change: Change, t: string)
    ensures store.Transfer(t) <= Changed(store, change).Transfer(t)
  {
  }

  lemma BlockedAdvance(cfg: Config, s: System, w: nat, o: Outcome, t: string, leg: Leg)
    requires Inv(cfg, s) && Agreement(s, t) && Blocked(s, t, leg) && Tame(cfg, t) && CalmAction(cfg, Step(w, o))
    ensures StateOf(Advance(cfg, s, w, o), t).status == Some(InProgress(leg))
    ensures NoneCanClose(Advance(cfg, s, w, o), t, leg)
  {
    var pc, s' := s.At(w), Advance(cfg, s, w, o);
    assert PcOk(cfg, s.store, pc) && PlaceOk(s.store, t, StateOf(s, t), pc) && RecordOk(s.store, LegId(t, leg));
    assert !CanClose(s.store.Transfer(t), pc, t, leg) && Holds(pc) != Some(LegId(t, leg));
    var (change, pc') := Effect(cfg, s.store, pc, o);
    EffectKeepsProgress(cfg, s.store, pc, o, t, leg);
    NoNewCloser(cfg, s.store, pc, o, t, leg);
    StreamGrows(s.store, change, t);
    if !pc.Idle? {
      forall v {:trigger s'.At(v)} ensures !CanClose(s'.store.Transfer(t), s'.At(v), t, leg) {
        assert s'.At(v) == if v == w then pc' else s.At(v);
        assert PcOk(cfg, s.store, s.At(v));
        LongerStream(s.store, s'.store, cfg, s.At(v), t, leg);
      }
    }
  }

  lemma BlockedElsewhere(cfg: Config, s: System, a: Action, t: string, leg: Leg)
    requires Inv(cfg, s) && Blocked(s, t, leg) && !a.Step? && Enabled(s, a)
    ensures StateOf(Next(cfg, s, a), t).status == Some(InProgress(leg)) && NoneCanClose(Next(cfg, s, a), t, leg)
  {
    var s' := Next(cfg, s, a);
    if a.InitiateTransfer? && a.t == t {
      assert StreamOk(s.store, t);
    }
    assert s'.store.Transfer(t) == s.store.Transfer(t);
    forall v {:trigger s'.At(v)} ensures !CanClose(s'.store.Transfer(t), s'.At(v), t, leg) {
      assert !CanClose(s.store.Transfer(t), s.At(v), t, leg);
    }
  }

  lemma BlockedNext(cfg: Config, s: System, a: Action, t: string, leg: Leg)
    requires Inv(cfg, s) && Agreement(s, t) && Blocked(s, t, leg) && Tame(cfg, t) && CalmAction(cfg, a)
    ensures Blocked(Next(cfg, s, a), t, leg)
  {
    NextKeepsUnheld(cfg, s, a, LegId(t, leg));
    if a.Step? {
      BlockedAdvance(cfg, s, a.w, a.o, t, leg);
    } else if Enabled(s, a) {
      BlockedElsewhere(cfg, s, a, t, leg);
    }
  }

  // The actions use no id of t's legs and their errors look like no rejection.
  predicate Calmly(cfg: Config, more: seq<Action>, t: string) { LegIdsUnused(more, t) && Calm(cfg, more) }

  lemma CalmlyAfter(cfg: Config, schedule: seq<Action>, more: seq<Action>, t: string)
    requires Calmly(cfg, schedule, t) && Calmly(cfg, more, t)
    ensures Calmly(cfg, schedule + more, t)
  {
  }

  lemma {:induction false} BlockedStays(cfg: Config, schedule: seq<Action>, more: seq<Action>, t: string, leg: Leg)
    requires Tame(cfg, t) && Calmly(cfg, schedule, t) && Calmly(cfg, more, t)
    requires Blocked(Exec(cfg, schedule), t, leg)
    ensures Blocked(Exec(cfg, schedule + more), t, leg)
    decreases |more|
  {
    if more == [] {
      assert schedule + more == schedule;
    } else {
      var before := more[..|more|-1];
      BlockedStays(cfg, schedule, before, t, leg);
      CalmlyAfter(cfg, schedule, before, t);
      Reachable(cfg, schedule + before);
      AgreementReachable(cfg, schedule + before, t);
      BlockedNext(cfg, Exec(cfg, schedule + before), more[|more|-1], t, leg);
      ExecSnoc(cfg, schedule, more);
    }
  }

  // ---- One worker that can close the leg is enough to end it ----

  lemma StepAfter(cfg: Config, schedule: seq<Action>, w: nat, n: nat)
    ensures Exec(cfg, schedule + Steps(w, n + 1)) == Advance(cfg, Exec(cfg, schedule + Steps(w, n)), w, Done)
  {
    var all := schedule + Steps(w, n + 1);
    assert all[..|all|-1] == schedule + Steps(w, n) && all[|all|-1] == Step(w, Done);
  }

  // The write succeeds at once.
  lemma ClosesNow(cfg: Config, s: System, w: nat, t: string, leg: Leg)
    requires PcOk(cfg, s.store, s.At(w)) && CanClose(s.store.Transfer(t), s.At(w), t, leg)
    requires s.At(w).write.Write? && |s.At(w).write.seen| == |s.store.Transfer(t)|
    ensures StateOf(Advance(cfg, s, w, Done), t).status != Some(InProgress(leg))
  {
    var stream, write := s.store.Transfer(t), s.At(w).write;
    assert write.seen == stream;
    T.FoldSnoc(stream, T.Decide(T.Fold(stream), TransferCommand(s.At(w)).value).value);
  }

  // A read is followed by a write, and a stale write reads again.
  lemma CloserSteps(cfg: Config, s: System, w: nat, t: string, leg: Leg)
    requires PcOk(cfg, s.store, s.At(w)) && StateOf(s, t).status == Some(InProgress(leg))
    requires CanClose(s.store.Transfer(t), s.At(w), t, leg)
    requires s.At(w).write.Write? ==> |s.At(w).write.seen| != |s.store.Transfer(t)|
    ensures var s' := Advance(cfg, s, w, Done);
            && s'.store == s.store && CanClose(s'.store.Transfer(t), s'.At(w), t, leg)
            && (if s.At(w).write.Read? then s'.At(w).write.Write? && s'.At(w).write.seen == s'.store.Transfer(t)
                else s'.At(w).write.Read?)
  {
  }

  // One step nearer to the end of the leg.
  lemma NearerStep(cfg: Config, schedule: seq<Action>, t: string, leg: Leg, w: nat, n: nat)
    requires var s := Exec(cfg, schedule + Steps(w, n));
             && StateOf(s, t).status == Some(InProgress(leg)) && CanClose(s.store.Transfer(t), s.At(w), t, leg)
             && (s.At(w).write.Write? ==> |s.At(w).write.seen| != |s.store.Transfer(t)|)
    ensures var s, s' := Exec(cfg, schedule + Steps(w, n)), Exec(cfg, schedule + Steps(w, n + 1));
            && StateOf(s', t).status == Some(InProgress(leg)) && CanClose(s'.store.Transfer(t), s'.At(w), t, leg)
            && (if s.At(w).write.Read? then s'.At(w).write.Write? && s'.At(w).write.seen == s'.store.Transfer(t)
                else s'.At(w).write.Read?)
  {
    var s := Exec(cfg, schedule + Steps(w, n));
    Reachable(cfg, schedule + Steps(w, n));
    assert PcOk(cfg, s.store, s.At(w));
    CloserSteps(cfg, s, w, t, leg);
    StepAfter(cfg, schedule, w, n);
  }

  lemma LastStep(cfg: Config, schedule: seq<Action>, t: string, leg: Leg, w: nat, n: nat)
    requires var s := Exec(cfg, schedule + Steps(w, n));
             && CanClose(s.store.Transfer(t), s.At(w), t, leg)
             && s.At(w).write.Write? && |s.At(w).write.seen| == |s.store.Transfer(t)|
    ensures StateOf(Exec(cfg, schedule + Steps(w, n + 1)), t).status != Some(InProgress(leg))
  {
    var s := Exec(cfg, schedule + Steps(w, n));
    Reachable(cfg, schedule + Steps(w, n));
    assert PcOk(cfg, s.store, s.At(w));
    ClosesNow(cfg, s, w, t, leg);
    StepAfter(cfg, schedule, w, n);
  }

  // From a read it takes two steps.
  lemma ReadCloses(cfg: Config, schedule: seq<Action>, t: string, leg: Leg, w: nat, n: nat)
    requires var s := Exec(cfg, schedule + Steps(w, n));
             && StateOf(s, t).status == Some(InProgress(leg)) && CanClose(s.store.Transfer(t), s.At(w), t, leg)
             && s.At(w).write.Read?
    ensures StateOf(Exec(cfg, schedule + Steps(w, n + 2)), t).status != Some(InProgress(leg))
  {
    NearerStep(cfg, schedule, t, leg, w, n);
    LastStep(cfg, schedule, t, leg, w, n + 1);
  }

  lemma CanCloseLeaves(cfg: Config, schedule: seq<Action>, t: string, leg: Leg, w: nat) returns (n: nat)
    requires StateOf(Exec(cfg, schedule), t).status == Some(InProgress(leg))
    requires CanClose(Exec(cfg, schedule).store.Transfer(t), Exec(cfg, schedule).At(w), t, leg)
    ensures StateOf(Exec(cfg, schedule + Steps(w, n)), t).status != Some(InProgress(leg))
  {
    n := 0;
    assert schedule + Steps(w, n) == schedule;
    var s := Exec(cfg, schedule);
    if s.At(w).write.Read? {
      ReadCloses(cfg, schedule, t, leg, w, n);
      n := n + 2;
    } else if |s.At(w).write.seen| == |s.store.Transfer(t)| {
      LastStep(cfg, schedule, t, leg, w, n);
      n := n + 1;
    } else {
      NearerStep(cfg, schedule, t, leg, w, n);
      ReadCloses(cfg, schedule, t, leg, w, n + 1);
      n := n + 3;
    }
  }

  // A leg in progress that the registry refuses stays in progress, in every
  // continuation, if and only if no worker can still close it.
  lemma BlockedForGoodIff(cfg: Config, schedule: seq<Action>, t: string, leg: Leg)
    requires Tame(cfg, t) && Calmly(cfg, schedule, t)
    requires StateOf(Exec(cfg, schedule), t).status == Some(InProgress(leg))
    requires Shut(Exec(cfg, schedule), LegId(t, leg))
    ensures (forall more :: Calmly(cfg, more, t) ==>
               StateOf(Exec(cfg, schedule + more), t).status == Some(InProgress(leg)))
            <==> NoneCanClose(Exec(cfg, schedule), t, leg)
  {
    var s := Exec(cfg, schedule);
    if NoneCanClose(s, t, leg) {
      forall more | Calmly(cfg, more, t)
        ensures StateOf(Exec(cfg, schedule + more), t).status == Some(InProgress(leg))
      {
        BlockedStays(cfg, schedule, more, t, leg);
      }
    } else {
      var w: nat :| CanClose(s.store.Transfer(t), s.At(w), t, leg);
      var n := CanCloseLeaves(cfg, schedule, t, leg, w);
      assert Calmly(cfg, Steps(w, n), t);
    }
  }

  // A worker that dies while it runs the handler of a leg blocks the leg, if nobody else
  // is past the registry: the record stays pending, whether or not the money has moved.
  lemma CrashBlocks(cfg: Config, schedule: seq<Action>, w: nat, more: seq<Action>, t: string, leg: Leg)
    requires Tame(cfg, t) && Calmly(cfg, schedule, t) && Calmly(cfg, more, t)
    requires var s := Exec(cfg, schedule);
             && StateOf(s, t).status == Some(InProgress(leg)) && NoneCanClose(s, t, leg)
             && Holds(s.At(w)) == Some(LegId(t, leg)) && !Open(s.store, LegId(t, leg), R.Completed)
    ensures Blocked(Exec(cfg, schedule + [Crash(w)] + more), t, leg)
    ensures var before, after := Exec(cfg, schedule), Exec(cfg, schedule + [Crash(w)] + more);
            SameRecord(before.store, after.store, LegId(t, leg)) && LegMoves(after, t, leg) == LegMoves(before, t, leg)
  {
    var s, h := Exec(cfg, schedule), schedule + [Crash(w)];
    ExecSnoc(cfg, schedule, [Crash(w)]);
    assert schedule + [] == schedule;
    Reachable(cfg, schedule);
    assert PcOk(cfg, s.store, s.At(w));
    var s' := s.Go(w, Idle);
    forall v {:trigger s'.At(v)}
      ensures Holds(s'.At(v)) != Some(LegId(t, leg)) && !CanClose(s'.store.Transfer(t), s'.At(v), t, leg)
    {
      assert s'.At(v) == if v == w then Idle else s.At(v);
      assert !CanClose(s.store.Transfer(t), s.At(v), t, leg);
    }
    CalmlyAfter(cfg, schedule, [Crash(w)], t);
    BlockedStays(cfg, h, more, t, leg);
    UnheldStays(cfg, h, more, LegId(t, leg));
  }

  // ---- Legs the registry does not refuse ----

  // Some worker is idle.
  lemma {:induction false} Bound(ks: set<nat>) returns (b: nat)
    ensures forall k :: k in ks ==> k < b
  {
    if ks == {} {
      b := 0;
    } else {
      var k :| k in ks;
      var c := Bound(ks - {k});
      b := if k < c then c else k + 1;
      forall j | j in ks ensures j < b { assert j == k || j in ks - {k}; }
    }
  }

  lemma IdleWorker(s: System) returns (w: nat)
    ensures s.At(w).Idle?
  {
    w := Bound(s.workers.Keys);
  }

  // A visit of worker w that nothing disturbs.
  function VisitOf(w: nat, t: string): seq<Action> { [Pick(w, t)] + Steps(w, PASS) }

  lemma VisitRuns(cfg: Config, schedule: seq<Action>, w: nat, t: string)
    requires Exec(cfg, schedule).At(w).Idle?
    ensures Exec(cfg, schedule + VisitOf(w, t)) == Run(cfg, Exec(cfg, schedule).Go(w, Picked(t)), w, PASS)
  {
    PassIsASchedule(cfg, schedule, w, t, PASS);
    assert schedule + [Pick(w, t)] + Steps(w, PASS) == schedule + VisitOf(w, t);
  }

  lemma VisitIsCalm(cfg: Config, w: nat, t: string)
    ensures Calmly(cfg, VisitOf(w, t), t)
  {
    forall a | a in VisitOf(w, t) ensures Foreign(a, t) && CalmAction(cfg, a) {
      assert a == Pick(w, t) || a in Steps(w, PASS);
    }
  }

  lemma ListedWhenPicked(cfg: Config, s: System, w: nat, t: string, leg: Leg)
    requires StreamOk(s.store, t) && StateOf(s, t).status == Some(InProgress(leg))
    ensures Listed(s.Go(w, Picked(t)), w, t, leg)
  {
    assert s.store.Transfer(t) != [];
  }

  // The event that closes a leg ends it.
  lemma ClosedIsNotInProgress(st: T.State, t: string, leg: Leg, start: T.Event, closing: T.Event)
    requires start.TransferStarted? && start.leg == leg
    requires closing == FinishEvent(t, leg) || closing.TransferFailed?
    ensures T.When(T.When(st, start), closing).status != Some(InProgress(leg))
  {
  }

  // A leg whose record is completed is ended by one visit.
  lemma CompletedCanEnd(cfg: Config, schedule: seq<Action>, t: string, leg: Leg, w: nat)
    requires LegIdsUnused(schedule, t) && Exec(cfg, schedule).At(w).Idle?
    requires StateOf(Exec(cfg, schedule), t).status == Some(InProgress(leg))
    requires Open(Exec(cfg, schedule).store, LegId(t, leg), R.Completed)
    ensures StateOf(Exec(cfg, schedule + VisitOf(w, t)), t).status != Some(InProgress(leg))
  {
    var s := Exec(cfg, schedule);
    var s1 := s.Go(w, Picked(t));
    Reachable(cfg, schedule);
    assert StreamOk(s.store, t);
    OwnReachable(cfg, schedule, t);
    assert LegRecord(cfg, s.store, t, leg);
    ListedWhenPicked(cfg, s, w, t, leg);
    CachedPass(cfg, s1, w, t, leg, PASS);
    VisitRuns(cfg, schedule, w, t);
    FoldTwo(s.store.Transfer(t), StartEvent(s1, t, leg), FinishEvent(t, leg));
    ClosedIsNotInProgress(StateOf(s, t), t, leg, StartEvent(s1, t, leg), FinishEvent(t, leg));
  }

  // So is a leg without a record, when the account accepts its movement or rejects it
  // for good.
  lemma AnsweredCanEnd(cfg: Config, schedule: seq<Action>, t: string, leg: Leg, w: nat)
    requires Exec(cfg, schedule).At(w).Idle? && StreamOk(Exec(cfg, schedule).store, t)
    requires StateOf(Exec(cfg, schedule), t).status == Some(InProgress(leg))
    requires LegId(t, leg) !in Exec(cfg, schedule).store.registry
    requires StateOf(Exec(cfg, schedule), t).info.Some?
    requires Answer(cfg, Exec(cfg, schedule), t, leg).Failure? ==>
               leg != T.Compensation && Fatal(cfg, Answer(cfg, Exec(cfg, schedule), t, leg).error)
    ensures StateOf(Exec(cfg, schedule + VisitOf(w, t)), t).status != Some(InProgress(leg))
  {
    var s := Exec(cfg, schedule);
    var s1 := s.Go(w, Picked(t));
    ListedWhenPicked(cfg, s, w, t, leg);
    AfterVisit(cfg, s1, w, t, leg, PASS);
    VisitRuns(cfg, schedule, w, t);
    ClosedIsNotInProgress(StateOf(s, t), t, leg, StartEvent(s1, t, leg), ClosingEvent(cfg, s1, t, leg));
  }

  function FreezeOf(cfg: Config, s: System, t: string, leg: Leg): Action
    requires StateOf(s, t).info.Some?
  {
    FreezeAccount(JobOf(cfg, s, t, leg).input.account, "r")
  }

  // A frozen account, and one that was never created, reject every movement for good.
  lemma FrozenRejects(cfg: Config, s: System, t: string, leg: Leg)
    requires AsCoded(cfg) && StateOf(s, t).info.Some?
    requires var st := A.Fold(s.store.Account(JobOf(cfg, s, t, leg).input.account));
             st.status == A.Frozen || st.currency == None
    ensures Answer(cfg, s, t, leg).Failure? && Fatal(cfg, Answer(cfg, s, t, leg).error)
  {
    RejectionTerminal(Answer(cfg, s, t, leg).error);
  }

  // Freezing leaves the account frozen, unless it has no name and was never created.
  lemma FreezeFreezes(cfg: Config, s: System, id: string)
    requires AccountOk(s.store, id)
    ensures var s' := Next(cfg, s, FreezeAccount(id, "r"));
            && s'.store.transfers == s.store.transfers && s'.store.registry == s.store.registry
            && s'.workers == s.workers
            && (A.Fold(s'.store.Account(id)).status == A.Frozen || A.Fold(s'.store.Account(id)).currency == None)
  {
    if id == "" {
      assert s.store.Account(id) == [];
    } else {
      A.FoldSnoc(s.store.Account(id), A.AccountFrozen("r"));
    }
  }

  lemma FrozenFirst(cfg: Config, schedule: seq<Action>, id: string)
    ensures var s, s' := Exec(cfg, schedule), Exec(cfg, schedule + [FreezeAccount(id, "r")]);
            && s'.store.transfers == s.store.transfers && s'.store.registry == s.store.registry
            && s'.workers == s.workers
            && (A.Fold(s'.store.Account(id)).status == A.Frozen || A.Fold(s'.store.Account(id)).currency == None)
  {
    Reachable(cfg, schedule);
    assert AccountOk(Exec(cfg, schedule).store, id);
    FreezeFreezes(cfg, Exec(cfg, schedule), id);
    ExecSnoc(cfg, schedule, [FreezeAccount(id, "r")]);
    assert schedule + [] == schedule;
  }

  // A debit or credit without a record can always be ended: if not by a movement,
  // then by a rejection.
  lemma LegCanEnd(cfg: Config, schedule: seq<Action>, t: string, leg: Leg, w: nat) returns (more: seq<Action>)
    requires AsCoded(cfg) && leg != T.Compensation && Exec(cfg, schedule).At(w).Idle?
    requires StateOf(Exec(cfg, schedule), t).status == Some(InProgress(leg))
    requires StateOf(Exec(cfg, schedule), t).info.Some? && StreamOk(Exec(cfg, schedule).store, t)
    requires LegId(t, leg) !in Exec(cfg, schedule).store.registry
    ensures Calmly(cfg, more, t)
    ensures StateOf(Exec(cfg, schedule + more), t).status != Some(InProgress(leg))
  {
    var freeze := FreezeOf(cfg, Exec(cfg, schedule), t, leg);
    var h := schedule + [freeze];
    FrozenFirst(cfg, schedule, freeze.id);
    assert Exec(cfg, h).store.Transfer(t) == Exec(cfg, schedule).store.Transfer(t);
    FrozenRejects(cfg, Exec(cfg, h), t, leg);
    AnsweredCanEnd(cfg, h, t, leg, w);
    more := [freeze] + VisitOf(w, t);
    assert schedule + more == h + VisitOf(w, t);
    VisitIsCalm(cfg, w, t);
  }
}
