// A record can say that a movement failed although its money has moved: markCompleted
// sits in the same try block as the handler, and so does the acknowledgement of the
// append. When exactly that happens, and why it is for good.
module SagaFailures {
  import opened Wrappers
  import opened Sums
  import opened Saga
  import opened SagaBase
  import opened SagaLegs
  import opened SagaInvariant
  import opened SagaTheorems
  import A = Accounts
  import T = Transfers
  import R = Registry

  // The worker that runs tx's handler appends, or marks the success, and that await
  // does not end well.
  predicate SlipsAt(s: System, a: Action, tx: string) {
    && a.Step? && !a.o.Done? && Holds(s.At(a.w)) == Some(tx)
    && (s.At(a.w).MarkingCompleted?
        || (s.At(a.w).Moving?
            && (var job := s.At(a.w).job;
                AccountRound(s.store.Account(job.input.account), job.Command(), s.At(a.w).move, a.o).Wrote?)))
  }

  // It happened somewhere in the schedule.
  predicate Slipped(cfg: Config, schedule: seq<Action>, tx: string) {
    schedule != [] &&
    (Slipped(cfg, schedule[..|schedule|-1], tx)
     || SlipsAt(Exec(cfg, schedule[..|schedule|-1]), schedule[|schedule|-1], tx))
  }

  // ---- A failed record has moved exactly when its handler slipped ----

  ghost predicate HolderOk(store: Store, pc: Pc, tx: string, slipped: bool) {
    Holds(pc) == Some(tx) ==>
      if pc.MarkingFailed? then slipped <==> Moves(store.accounts, tx) == 1 else !slipped
  }

  ghost predicate SlipOk(store: Store, tx: string, slipped: bool) {
    && (slipped ==> Moves(store.accounts, tx) == 1)
    && (Open(store, tx, R.FailedTerminal) ==> (slipped <==> Moves(store.accounts, tx) == 1))
  }

  ghost predicate SlipInv(s: System, tx: string, slipped: bool) {
    && SlipOk(s.store, tx, slipped)
    && (forall w {:trigger s.At(w)} :: HolderOk(s.store, s.At(w), tx, slipped))
  }

  lemma ChangeCounts(cfg: Config, store: Store, pc: Pc, change: Change, tx: string)
    requires PcOk(cfg, store, pc) && May(store, pc, change)
    ensures Moves(Changed(store, change).accounts, tx) ==
              Moves(store.accounts, tx) + (if change.Moved? && Holds(pc) == Some(tx) then 1 else 0)
  {
    if change.Moved? {
      MoneyEvent(A.Fold(store.Account(change.account)), pc.job, change.money);
      MovesAppend(store, change.account, change.money, tx);
    }
  }

  lemma HolderSlips(cfg: Config, s: System, w: nat, o: Outcome, tx: string, slipped: bool)
    requires PcOk(cfg, s.store, s.At(w)) && Holds(s.At(w)) == Some(tx)
    requires SlipOk(s.store, tx, slipped) && HolderOk(s.store, s.At(w), tx, slipped)
    ensures var (change, pc') := Effect(cfg, s.store, s.At(w), o);
            var slipped' := slipped || SlipsAt(s, Step(w, o), tx);
            SlipOk(Changed(s.store, change), tx, slipped') && HolderOk(Changed(s.store, change), pc', tx, slipped')
  {
    var pc := s.At(w);
    EffectMay(cfg, s.store, pc, o);
    ChangeCounts(cfg, s.store, pc, Effect(cfg, s.store, pc, o).0, tx);
  }

  lemma OtherSlips(cfg: Config, s: System, w: nat, o: Outcome, tx: string, slipped: bool)
    requires PcOk(cfg, s.store, s.At(w)) && Holds(s.At(w)) != Some(tx)
    requires SlipOk(s.store, tx, slipped) && RecordOk(s.store, tx)
    ensures var (change, pc') := Effect(cfg, s.store, s.At(w), o);
            SlipOk(Changed(s.store, change), tx, slipped) && HolderOk(Changed(s.store, change), pc', tx, slipped)
  {
    var pc := s.At(w);
    EffectMay(cfg, s.store, pc, o);
    EffectHolds(cfg, s.store, pc, o);
    ChangeCounts(cfg, s.store, pc, Effect(cfg, s.store, pc, o).0, tx);
  }

  lemma SlipAdvance(cfg: Config, s: System, w: nat, o: Outcome, tx: string, slipped: bool)
    requires Inv(cfg, s) && SlipInv(s, tx, slipped)
    ensures SlipInv(Advance(cfg, s, w, o), tx, slipped || SlipsAt(s, Step(w, o), tx))
  {
    var pc, s', slipped' := s.At(w), Advance(cfg, s, w, o), slipped || SlipsAt(s, Step(w, o), tx);
    assert PcOk(cfg, s.store, pc) && RecordOk(s.store, tx) && HolderOk(s.store, pc, tx, slipped);
    var (change, pc') := Effect(cfg, s.store, pc, o);
    EffectMay(cfg, s.store, pc, o);
    ChangeCounts(cfg, s.store, pc, change, tx);
    if Holds(pc) == Some(tx) {
      HolderSlips(cfg, s, w, o, tx, slipped);
    } else {
      OtherSlips(cfg, s, w, o, tx, slipped);
    }
    if !pc.Idle? {
      forall v ensures HolderOk(s'.store, s'.At(v), tx, slipped') {
        assert s'.At(v) == if v == w then pc' else s.At(v);
        assert HolderOk(s.store, s.At(v), tx, slipped);
      }
    }
  }

  // Requests, crashes and commands without money.
  lemma SlipElsewhere(cfg: Config, s: System, a: Action, tx: string, slipped: bool)
    requires Inv(cfg, s) && SlipInv(s, tx, slipped) && !a.Step? && Enabled(s, a)
    ensures SlipInv(Next(cfg, s, a), tx, slipped)
  {
    var s' := Next(cfg, s, a);
    ElsewhereCounts(cfg, s, a, tx);
    forall v ensures HolderOk(s'.store, s'.At(v), tx, slipped) { assert HolderOk(s.store, s.At(v), tx, slipped); }
  }

  lemma ElsewhereCounts(cfg: Config, s: System, a: Action, tx: string)
    requires StoreOk(s.store) && !a.Step? && Enabled(s, a)
    ensures Moves(Next(cfg, s, a).store.accounts, tx) == Moves(s.store.accounts, tx)
    ensures Next(cfg, s, a).store.registry == s.store.registry
  {
    if a.CreateAccount? || a.FreezeAccount? {
      var cmd := if a.CreateAccount? then A.Create(a.id, a.owner, a.currency) else A.Freeze(a.reason);
      var decision := A.Decide(A.Fold(s.store.Account(a.id)), cmd);
      if decision.Success? {
        QuietStore(s.store, a.id, cmd, decision.value);
        MovesAppend(s.store, a.id, decision.value, tx);
      }
    }
  }

  lemma {:induction false} SlipReachable(cfg: Config, schedule: seq<Action>, tx: string)
    ensures SlipInv(Exec(cfg, schedule), tx, Slipped(cfg, schedule, tx))
    decreases |schedule|
  {
    if schedule == [] {
      assert forall w :: START.At(w) == Idle;
    } else {
      var n := |schedule| - 1;
      var s, a := Exec(cfg, schedule[..n]), schedule[n];
      Reachable(cfg, schedule[..n]);
      SlipReachable(cfg, schedule[..n], tx);
      if a.Step? {
        SlipAdvance(cfg, s, a.w, a.o, tx, Slipped(cfg, schedule[..n], tx));
      } else if Enabled(s, a) {
        SlipElsewhere(cfg, s, a, tx, Slipped(cfg, schedule[..n], tx));
      }
    }
  }

  // After every schedule, a record that says failed has moved its money if and only if
  // its handler's append took effect and that append's acknowledgement, or the marking
  // of the success, did not end well.
  lemma FailedRecordMovedIff(cfg: Config, schedule: seq<Action>, tx: string)
    ensures var store := Exec(cfg, schedule).store;
            Open(store, tx, R.FailedTerminal) ==>
              Moves(store.accounts, tx) == if Slipped(cfg, schedule, tx) then 1 else 0
  {
    SlipReachable(cfg, schedule, tx);
    Reachable(cfg, schedule);
    assert RecordOk(Exec(cfg, schedule).store, tx);
  }

  // Every await ends well.
  predicate AllDone(schedule: seq<Action>) { forall a :: a in schedule && a.Step? ==> a.o.Done? }

  lemma {:induction false} NothingSlips(cfg: Config, schedule: seq<Action>, tx: string)
    requires AllDone(schedule)
    ensures !Slipped(cfg, schedule, tx)
    decreases |schedule|
  {
    if schedule != [] {
      NothingSlips(cfg, schedule[..|schedule|-1], tx);
    }
  }

  // When every await ends well, whatever crashes and in whatever order, a record that
  // says failed has had no effect.
  lemma FailedMeansNoEffect(cfg: Config, schedule: seq<Action>, tx: string)
    requires AllDone(schedule)
    ensures var store := Exec(cfg, schedule).store;
            Open(store, tx, R.FailedTerminal) ==> Moves(store.accounts, tx) == 0
  {
    NothingSlips(cfg, schedule, tx);
    FailedRecordMovedIff(cfg, schedule, tx);
  }

  // ---- Failed is final ----

  predicate SameRecord(store: Store, store': Store, tx: string) {
    tx in store.registry && tx in store'.registry && store'.registry[tx] == store.registry[tx]
  }

  // Nobody runs the handler of tx.
  ghost predicate Unheld(s: System, tx: string) { forall w {:trigger s.At(w)} :: Holds(s.At(w)) != Some(tx) }

  // Nobody runs the handler of a failed record, ...
  lemma FailedIsUnheld(cfg: Config, s: System, tx: string)
    requires Inv(cfg, s) && Open(s.store, tx, R.FailedTerminal)
    ensures Unheld(s, tx)
  {
    forall w {:trigger s.At(w)} ensures Holds(s.At(w)) != Some(tx) { assert PcOk(cfg, s.store, s.At(w)); }
  }

  // ... and a record whose handler nobody runs is never written again.
  lemma NextKeepsUnheld(cfg: Config, s: System, a: Action, tx: string)
    requires Inv(cfg, s) && tx in s.store.registry && Unheld(s, tx)
    ensures SameRecord(s.store, Next(cfg, s, a).store, tx) && Unheld(Next(cfg, s, a), tx)
    ensures Moves(Next(cfg, s, a).store.accounts, tx) == Moves(s.store.accounts, tx)
  {
    assert RecordOk(s.store, tx);
    if a.Step? {
      var pc := s.At(a.w);
      assert PcOk(cfg, s.store, pc) && Holds(pc) != Some(tx);
      EffectMay(cfg, s.store, pc, a.o);
      EffectHolds(cfg, s.store, pc, a.o);
      ChangeCounts(cfg, s.store, pc, Effect(cfg, s.store, pc, a.o).0, tx);
    } else if Enabled(s, a) {
      ElsewhereCounts(cfg, s, a, tx);
    }
    forall v {:trigger Next(cfg, s, a).At(v)} ensures Holds(Next(cfg, s, a).At(v)) != Some(tx) {
      assert Holds(s.At(v)) != Some(tx);
    }
  }

  lemma ExecSnoc(cfg: Config, schedule: seq<Action>, more: seq<Action>)
    requires more != []
    ensures Exec(cfg, schedule + more) ==
              Next(cfg, Exec(cfg, schedule + more[..|more|-1]), more[|more|-1])
  {
    var all := schedule + more;
    assert all[..|all|-1] == schedule + more[..|more|-1] && all[|all|-1] == more[|more|-1];
  }

  // Whatever follows, a record whose handler nobody runs stays as it is, and so does
  // the number of its money events.
  lemma {:induction false} UnheldStays(cfg: Config, schedule: seq<Action>, more: seq<Action>, tx: string)
    requires tx in Exec(cfg, schedule).store.registry && Unheld(Exec(cfg, schedule), tx)
    ensures var s, s' := Exec(cfg, schedule), Exec(cfg, schedule + more);
            && SameRecord(s.store, s'.store, tx) && Unheld(s', tx)
            && Moves(s'.store.accounts, tx) == Moves(s.store.accounts, tx)
    decreases |more|
  {
    if more == [] {
      assert schedule + more == schedule;
    } else {
      var n := |more| - 1;
      UnheldStays(cfg, schedule, more[..n], tx);
      Reachable(cfg, schedule + more[..n]);
      NextKeepsUnheld(cfg, Exec(cfg, schedule + more[..n]), more[n], tx);
      ExecSnoc(cfg, schedule, more);
    }
  }

  // In particular a failed record does.
  lemma FailedStaysFailed(cfg: Config, schedule: seq<Action>, more: seq<Action>, tx: string)
    requires Open(Exec(cfg, schedule).store, tx, R.FailedTerminal)
    ensures var store, store' := Exec(cfg, schedule).store, Exec(cfg, schedule + more).store;
            SameRecord(store, store', tx) && Moves(store'.accounts, tx) == Moves(store.accounts, tx)
  {
    Reachable(cfg, schedule);
    FailedIsUnheld(cfg, Exec(cfg, schedule), tx);
    UnheldStays(cfg, schedule, more, tx);
  }

  // No money event of any id is ever taken back.
  lemma {:induction false} MovesGrow(cfg: Config, schedule: seq<Action>, more: seq<Action>, tx: string)
    ensures Moves(Exec(cfg, schedule).store.accounts, tx) <= Moves(Exec(cfg, schedule + more).store.accounts, tx)
    decreases |more|
  {
    if more == [] {
      assert schedule + more == schedule;
    } else {
      var before, a := more[..|more|-1], more[|more|-1];
      MovesGrow(cfg, schedule, before, tx);
      Reachable(cfg, schedule + before);
      NextMoves(cfg, Exec(cfg, schedule + before), a, tx);
      ExecSnoc(cfg, schedule, more);
    }
  }

  lemma NextMoves(cfg: Config, s: System, a: Action, tx: string)
    requires Inv(cfg, s)
    ensures Moves(s.store.accounts, tx) <= Moves(Next(cfg, s, a).store.accounts, tx)
  {
    if a.Step? {
      var pc := s.At(a.w);
      assert PcOk(cfg, s.store, pc);
      EffectMay(cfg, s.store, pc, a.o);
      ChangeCounts(cfg, s.store, pc, Effect(cfg, s.store, pc, a.o).0, tx);
    } else if Enabled(s, a) {
      ElsewhereCounts(cfg, s, a, tx);
    }
  }
}
