// The calls on one account under the lock of the repository, in one process with the
// in-memory snapshot store: withAccountLock lets a call run only while its operation
// is inside, so saves never overlap and the latest snapshot never goes back.
module LockedAccountStore {
  import opened Wrappers
  import opened AccountRepositories
  import A = Accounts
  import L = AccountLocks
  import S = AccountStore

  // locked and ran are what the lock and the store of account id have done so far;
  // cmds[i] is the command of operation i, which is call i of the store.
  datatype State = State(locked: seq<L.Action>, ran: seq<S.Action>, cmds: seq<A.Command>) {
    function Lock(): L.State { L.Exec(locked) }

    function Store(id: string): S.State { S.Exec(S.InMemory, id, ran) }

    // Operation i is inside, on this account.
    predicate Inside(i: nat, id: string) {
      i < |Lock().ops| && Lock().ops[i].account == id && Lock().ops[i].phase.Inside?
    }
  }

  const EMPTY := State([], [], [])

  datatype Action =
    | Call(account: string, cmd: A.Command)
    | Enter(i: nat)
    | Run(i: nat)
    | Throw(i: nat)     // an await of the call fails
    | Leave(i: nat)     // the finally block

  predicate Finished(phase: S.Phase) {
    phase.Acknowledged? || phase.Refused? || phase.Conflicted? || phase.Gone?
  }

  predicate MayLeave(id: string, s: State, i: nat) {
    i in s.Store(id).calls ==> Finished(s.Store(id).calls[i].phase)
  }

  function Next(id: string, s: State, a: Action): State {
    match a
    case Call(account, cmd) => State(s.locked + [L.Register(account)], s.ran, s.cmds + [cmd])
    case Enter(i) =>
      if L.CanEnter(s.Lock(), i) && i < |s.cmds| then
        s.(locked := s.locked + [L.Enter(i)],
           ran := if s.Lock().ops[i].account == id then s.ran + [S.Begin(i, s.cmds[i])] else s.ran)
      else s
    case Run(i) => if s.Inside(i, id) then s.(ran := s.ran + [S.Run(i)]) else s
    case Throw(i) => if s.Inside(i, id) then s.(ran := s.ran + [S.Die(i)]) else s
    case Leave(i) => if MayLeave(id, s, i) then s.(locked := s.locked + [L.Leave(i)]) else s
  }

  function Exec(id: string, schedule: seq<Action>): State {
    if schedule == [] then EMPTY else Next(id, Exec(id, schedule[..|schedule|-1]), schedule[|schedule|-1])
  }

  lemma LockSnoc(locked: seq<L.Action>, a: L.Action)
    ensures L.Exec(locked + [a]) == L.Next(L.Exec(locked), a)
  {
    assert (locked + [a])[..|locked|] == locked;
  }

  lemma StoreSnoc(id: string, ran: seq<S.Action>, a: S.Action)
    ensures S.Exec(S.InMemory, id, ran + [a]) == S.Next(id, S.Exec(S.InMemory, id, ran), a)
  {
    assert (ran + [a])[..|ran|] == ran;
  }

  // ---- A call that is under way is inside ----

  predicate CallInside(id: string, s: State, c: nat)
    requires c in s.Store(id).calls
  {
    && c < |s.Lock().ops| && s.Lock().ops[c].account == id && !s.Lock().ops[c].phase.Waiting?
    && (Finished(s.Store(id).calls[c].phase) || s.Lock().ops[c].phase.Inside?)
  }

  ghost predicate Inv(id: string, s: State) {
    && |s.cmds| == |s.Lock().ops|
    && (forall c {:trigger CallInside(id, s, c)} :: c in s.Store(id).calls ==> CallInside(id, s, c))
  }

  // A step of the store touches one call, and ends no finished one.
  lemma StoreStep(s: S.State, c: nat)
    requires c in s.calls
    ensures S.Step(s, c).calls.Keys == s.calls.Keys
    ensures forall d :: d in s.calls && d != c ==> S.Step(s, c).calls[d] == s.calls[d]
  {
  }

  lemma NextKeeps(id: string, s: State, a: Action)
    requires Inv(id, s)
    ensures Inv(id, Next(id, s, a))
  {
    var s' := Next(id, s, a);
    match a
    case Call(account, _) =>
      LockSnoc(s.locked, L.Register(account));
      forall c | c in s'.Store(id).calls ensures CallInside(id, s', c) { assert CallInside(id, s, c); }
    case Enter(i) => EnterKeeps(id, s, i);
    case Run(i) =>
      if s.Inside(i, id) {
        StoreSnoc(id, s.ran, S.Run(i));
        RunKeeps(id, s, i, s');
      }
    case Throw(i) =>
      if s.Inside(i, id) {
        StoreSnoc(id, s.ran, S.Die(i));
        forall c | c in s'.Store(id).calls ensures CallInside(id, s', c) { assert CallInside(id, s, c); }
      }
    case Leave(i) =>
      if MayLeave(id, s, i) {
        LockSnoc(s.locked, L.Leave(i));
        forall c | c in s'.Store(id).calls ensures CallInside(id, s', c) { assert CallInside(id, s, c); }
      }
  }

  lemma EnterKeeps(id: string, s: State, i: nat)
    requires Inv(id, s)
    ensures Inv(id, Next(id, s, Enter(i)))
  {
    if L.CanEnter(s.Lock(), i) && i < |s.cmds| {
      var s' := Next(id, s, Enter(i));
      LockSnoc(s.locked, L.Enter(i));
      if s.Lock().ops[i].account == id {
        StoreSnoc(id, s.ran, S.Begin(i, s.cmds[i]));
      }
      forall c | c in s'.Store(id).calls ensures CallInside(id, s', c) { EnterPlace(id, s, s', i, c); }
    }
  }

  // The operation that enters is inside, the others are where they were.
  lemma EnterPlace(id: string, s: State, s': State, i: nat, c: nat)
    requires Inv(id, s) && L.CanEnter(s.Lock(), i) && s'.Lock() == L.Next(s.Lock(), L.Enter(i))
    requires c in s'.Store(id).calls
    requires c in s.Store(id).calls ==> s'.Store(id).calls[c] == s.Store(id).calls[c]
    requires c !in s.Store(id).calls ==> c == i && s.Lock().ops[i].account == id
    ensures CallInside(id, s', c)
  {
    if c in s.Store(id).calls {
      assert CallInside(id, s, c);
    }
  }

  lemma RunKeeps(id: string, s: State, i: nat, s': State)
    requires Inv(id, s) && s.Inside(i, id) && s'.locked == s.locked && s'.cmds == s.cmds
    requires s'.Store(id) == S.Next(id, s.Store(id), S.Run(i))
    ensures Inv(id, s')
  {
    if i in s.Store(id).calls {
      StoreStep(s.Store(id), i);
    }
    forall c | c in s'.Store(id).calls ensures CallInside(id, s', c) { assert CallInside(id, s, c); }
  }

  lemma {:induction false} Reachable(id: string, schedule: seq<Action>)
    ensures Inv(id, Exec(id, schedule))
    decreases |schedule|
  {
    if schedule != [] {
      Reachable(id, schedule[..|schedule|-1]);
      NextKeeps(id, Exec(id, schedule[..|schedule|-1]), schedule[|schedule|-1]);
    }
  }

  // ---- So saves do not overlap ----

  // Mutual exclusion, said of the calls between their check and their write.
  lemma InsideIsAlone(id: string, s: State)
    requires Inv(id, s)
    ensures S.OneSaver(s.Store(id))
  {
    forall a: nat, b: nat | S.Saving(s.Store(id), a) && S.Saving(s.Store(id), b) ensures a == b {
      assert CallInside(id, s, a) && CallInside(id, s, b);
      L.MutualExclusion(s.locked, a, b);
    }
  }

  // What the store does in one step.
  lemma RanGrows(id: string, s: State, a: Action)
    ensures var ran := Next(id, s, a).ran; ran == s.ran || (ran != [] && ran[..|ran|-1] == s.ran)
  {
  }

  // The lock gives what the store assumes: in no state of a locked run are two calls
  // between their check and their write.
  lemma {:induction false} LockGivesNoOverlap(id: string, schedule: seq<Action>)
    ensures S.NoOverlap(id, Exec(id, schedule).ran)
    decreases |schedule|
  {
    Reachable(id, schedule);
    InsideIsAlone(id, Exec(id, schedule));
    if schedule != [] {
      LockGivesNoOverlap(id, schedule[..|schedule|-1]);
      RanGrows(id, Exec(id, schedule[..|schedule|-1]), schedule[|schedule|-1]);
    }
  }

  lemma {:induction false} RanExtends(id: string, schedule: seq<Action>, more: seq<Action>)
    ensures Exec(id, schedule).ran <= Exec(id, schedule + more).ran
    decreases |more|
  {
    var all := schedule + more;
    if more == [] {
      assert all == schedule;
    } else {
      var n := |more| - 1;
      assert all[..|all|-1] == schedule + more[..n] && all[|all|-1] == more[n];
      RanExtends(id, schedule, more[..n]);
      RanGrows(id, Exec(id, schedule + more[..n]), more[n]);
    }
  }

  // Under the lock the latest snapshot of the account never goes back.
  lemma LockedNeverGoesBack(id: string, schedule: seq<Action>, more: seq<Action>)
    ensures BaseOf(Exec(id, schedule).Store(id).snapshot) <= BaseOf(Exec(id, schedule + more).Store(id).snapshot)
  {
    var ran, ran' := Exec(id, schedule).ran, Exec(id, schedule + more).ran;
    RanExtends(id, schedule, more);
    LockGivesNoOverlap(id, schedule + more);
    assert ran + ran'[|ran|..] == ran';
    S.InMemoryNeverGoesBack(id, ran, ran'[|ran|..]);
  }
}
