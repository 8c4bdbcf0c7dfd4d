// A run of the in-memory store without the lock of the account: two saves overlap and
// the latest snapshot goes back from version 100 to version 50.
module SnapshotRuns {
  import opened Wrappers
  import opened AccountAggregates
  import opened AccountRepositories
  import opened AccountStore
  import A = Accounts

  // The first call creates the account, every other one deposits.
  function CommandAt(id: string, c: nat): A.Command {
    if c == 0 then A.Create(id, "o", "EUR") else A.Deposit(Some(1), "EUR", "d")
  }

  function EventAt(id: string, c: nat): A.Event {
    if c == 0 then A.AccountCreated(id, "o", "EUR") else A.MoneyDeposited(1, "EUR", "d")
  }

  function Runs(c: nat, n: nat): seq<Action> { seq(n, _ => Run(c)) }

  // Calls 0 to k - 1 one after another; a call that has to save a snapshot stops
  // between its check and its write.
  function Filling(id: string, k: nat): seq<Action> {
    if k == 0 then []
    else Filling(id, k - 1) + [Begin(k - 1, CommandAt(id, k - 1))] + Runs(k - 1, if Crosses(k) then 5 else 4)
  }

  lemma RunsAlone(kind: Kind, id: string, h: seq<Action>, c: nat, n: nat)
    requires c in Exec(kind, id, h).calls
    ensures Exec(kind, id, h + Runs(c, n)) == Alone(Exec(kind, id, h), c, n)
  {
    var all := h + Runs(c, n);
    if n == 0 {
      assert all == h;
    } else {
      assert all[..|all|-1] == h + Runs(c, n - 1) && all[|all|-1] == Run(c);
      RunsAlone(kind, id, h, c, n - 1);
      AloneSnoc(Exec(kind, id, h), c, n);
    }
  }

  lemma {:induction false} AloneSnoc(s: State, c: nat, n: nat)
    requires c in s.calls && n > 0
    ensures Alone(s, c, n) == Step(Alone(s, c, n - 1), c)
    decreases n
  {
    if n > 1 {
      AloneSnoc(Step(s, c), c, n - 1);
    }
  }

  // What one undisturbed call does: it appends, and stops before its snapshot.
  lemma AloneFills(s: State, c: nat, e: A.Event, n: nat)
    requires s.kind.InMemory? && s.snapshot == None && c in s.calls && s.calls[c].phase == ReadSnapshot(1)
    requires A.Decide(A.Fold(s.stream), s.calls[c].cmd) == Success(e)
    requires n == if Crosses(|s.stream| + 1) then 5 else 4
    ensures var at, st := |s.stream| + 1, A.When(A.Fold(s.stream), e);
            Alone(s, c, n) ==
              Go(s.(stream := s.stream + [e], authors := s.authors + [c]), c,
                 if Crosses(at) then WriteSnapshot(at, st) else Acknowledged(at))
  {
    var loaded, at := A.Fold(s.stream), |s.stream| + 1;
    AloneLoads(s, c, n);
    var s2 := Go(s, c, Append(1, loaded));
    AloneAppends(s2, c, e, n - 2);
    AloneStops(Extended(s2, c, e), c, n - 3);
    ExtendedThen(s, c, e, loaded, if Crosses(at) then WriteSnapshot(at, A.When(loaded, e)) else Acknowledged(at));
  }

  // Only the last phase of a call counts.
  lemma ExtendedThen(s: State, c: nat, e: A.Event, loaded: A.State, phase: Phase)
    requires c in s.calls
    ensures Go(Extended(Go(s, c, Append(1, loaded)), c, e), c, phase)
         == Go(s.(stream := s.stream + [e], authors := s.authors + [c]), c, phase)
  {
  }

  lemma AloneStops(s: State, c: nat, n: nat)
    requires s.kind.InMemory? && s.snapshot == None && c in s.calls && s.calls[c].phase.Appended?
    requires n == if Crosses(s.calls[c].phase.at) then 2 else 1
    ensures var at, st := s.calls[c].phase.at, s.calls[c].phase.state;
            Alone(s, c, n) == Go(s, c, if Crosses(at) then WriteSnapshot(at, st) else Acknowledged(at))
  {
    var at, st := s.calls[c].phase.at, s.calls[c].phase.state;
    if Crosses(at) {
      var s1, s2 := Go(s, c, CheckSnapshot(at, st)), Go(s, c, WriteSnapshot(at, st));
      AloneStep(s, c, n, s1);
      assert Step(s1, c) == s2;
      AloneStep(s1, c, n - 1, s2);
    } else {
      AloneStep(s, c, n, Go(s, c, Acknowledged(at)));
    }
  }

  // k events are written, no snapshot is, and the calls at the boundaries are saving.
  ghost predicate Filled(id: string, s: State, k: nat) {
    && s.kind.InMemory? && |s.stream| == k && s.snapshot == None
    && (k > 0 ==> A.Fold(s.stream).status == A.Active && A.Fold(s.stream).currency == Some("EUR"))
    && (k == 0 ==> s.stream == [])
    && (forall c :: c in s.calls <==> 0 <= c < k)
    && (forall c: nat {:trigger Saving(s, c)} :: c < k && Crosses(c + 1) ==>
        Saving(s, c) && s.calls[c].phase.at == c + 1)
  }

  lemma Accepts(id: string, s: State, k: nat)
    requires Filled(id, s, k)
    ensures A.Decide(A.Fold(s.stream), CommandAt(id, k)) == Success(EventAt(id, k))
    ensures A.Fold(s.stream + [EventAt(id, k)]).status == A.Active
    ensures A.Fold(s.stream + [EventAt(id, k)]).currency == Some("EUR")
  {
    A.FoldSnoc(s.stream, EventAt(id, k));
  }

  function Begun(id: string, s: State, c: nat): State {
    s.(calls := s.calls[c := Call(CommandAt(id, c), ReadSnapshot(1))])
  }

  lemma FilledNext(id: string, s: State, k: nat, next: State)
    requires Filled(id, s, k)
    requires var e := EventAt(id, k);
             next == Go(Begun(id, s, k).(stream := s.stream + [e], authors := s.authors + [k]), k,
                        if Crosses(k + 1) then WriteSnapshot(k + 1, A.When(A.Fold(s.stream), e))
                            else Acknowledged(k + 1))
    ensures Filled(id, next, k + 1)
  {
    Accepts(id, s, k);
    forall c: nat | c < k + 1 && Crosses(c + 1) ensures Saving(next, c) && next.calls[c].phase.at == c + 1 {
      assert c < k ==> Saving(s, c);
    }
  }

  lemma {:induction false} FillingFills(id: string, k: nat)
    ensures Filled(id, Exec(InMemory, id, Filling(id, k)), k)
  {
    if k > 0 {
      FillingFills(id, k - 1);
      FillOne(id, k);
    }
  }

  lemma BeginsNext(id: string, c: nat)
    requires c !in Exec(InMemory, id, Filling(id, c)).calls
    ensures Exec(InMemory, id, Filling(id, c) + [Begin(c, CommandAt(id, c))])
         == Begun(id, Exec(InMemory, id, Filling(id, c)), c)
  {
    var h, begin := Filling(id, c), Filling(id, c) + [Begin(c, CommandAt(id, c))];
    assert begin[..|begin|-1] == h && begin[|begin|-1] == Begin(c, CommandAt(id, c));
  }

  lemma FillOne(id: string, k: nat)
    requires k > 0 && Filled(id, Exec(InMemory, id, Filling(id, k - 1)), k - 1)
    ensures Filled(id, Exec(InMemory, id, Filling(id, k)), k)
  {
    var c, s := k - 1, Exec(InMemory, id, Filling(id, k - 1));
    BeginsNext(id, c);
    RunsAlone(InMemory, id, Filling(id, c) + [Begin(c, CommandAt(id, c))], c, if Crosses(k) then 5 else 4);
    FilledAlone(id, s, c, Alone(Begun(id, s, c), c, if Crosses(k) then 5 else 4));
  }

  lemma FilledAlone(id: string, s: State, c: nat, next: State)
    requires Filled(id, s, c) && next == Alone(Begun(id, s, c), c, if Crosses(c + 1) then 5 else 4)
    ensures Filled(id, next, c + 1)
  {
    Accepts(id, s, c);
    AloneFills(Begun(id, s, c), c, EventAt(id, c), if Crosses(c + 1) then 5 else 4);
    FilledNext(id, s, c, next);
  }

  // Without the lock: the call that wrote event 100 saves its snapshot, and then the
  // call that wrote event 50.
  lemma GoesBackWithoutLock(id: string, k: nat)
    requires k == 2 * SNAPSHOT_INTERVAL
    ensures var h := Filling(id, k);
            && BaseOf(Exec(InMemory, id, h + [Run(k - 1)]).snapshot) == 2 * SNAPSHOT_INTERVAL
            && BaseOf(Exec(InMemory, id, h + [Run(k - 1), Run(k / 2 - 1)]).snapshot) == SNAPSHOT_INTERVAL
  {
    var h, late, early := Filling(id, k), k - 1, k / 2 - 1;
    var s := Exec(InMemory, id, h);
    FillingFills(id, k);
    assert Saving(s, late) && Saving(s, early);
    var one, two := h + [Run(late)], h + [Run(late), Run(early)];
    assert one[..|one|-1] == h && one[|one|-1] == Run(late);
    assert two[..|two|-1] == one && two[|two|-1] == Run(early);
    assert Exec(InMemory, id, one) == Step(s, late);
    assert Exec(InMemory, id, two) == Step(Step(s, late), early);
  }
}
