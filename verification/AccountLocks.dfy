// The in-process mutex of a repository: per account, each operation waits for the
// promise of the one registered before it. The same code guards accounts and
// transfers.
//
// A promise is named by the number of the operation that created it; it is resolved
// when that operation is done. Waiting, loading, appending and leaving are separate
// steps, and the steps of all operations interleave freely.
module AccountLocks {
  import opened Wrappers

  datatype Phase =
    | Waiting
    | Inside(loaded: Option<nat>)
    | Done

  datatype Op = Op(account: string, prev: Option<nat>, phase: Phase)

  // locks: the promise a new waiter chains onto. entered: operations in the order in
  // which they got inside. versions: the length of each account's stream.
  datatype State = State(
    ops: seq<Op>, locks: map<string, nat>, entered: seq<nat>, versions: map<string, nat>, conflicts: nat)

  const EMPTY := State([], map[], [], map[], 0)

  datatype Action =
    | Register(account: string)
    | Enter(op: nat)
    | Load(op: nat)
    | Append(op: nat)
    | Leave(op: nat)   // release(), and drop the key if the promise is still ours

  function Version(s: State, account: string): nat {
    if account in s.versions then s.versions[account] else 0
  }

  predicate Resolved(s: State, promise: Option<nat>) {
    promise.Some? && promise.value < |s.ops| ==> s.ops[promise.value].phase.Done?
  }

  function Moved(s: State, i: nat, phase: Phase): State
    requires i < |s.ops|
  {
    s.(ops := s.ops[i := s.ops[i].(phase := phase)])
  }

  predicate CanEnter(s: State, i: nat) {
    i < |s.ops| && s.ops[i].phase.Waiting? && Resolved(s, s.ops[i].prev)
  }

  function Tail(s: State, account: string): Option<nat> {
    if account in s.locks then Some(s.locks[account]) else None
  }

  function Next(s: State, a: Action): State {
    match a
    case Register(account) =>
      s.(ops := s.ops + [Op(account, Tail(s, account), Waiting)], locks := s.locks[account := |s.ops|])
    case Enter(i) =>
      if CanEnter(s, i) then Moved(s, i, Inside(None)).(entered := s.entered + [i]) else s
    case Load(i) =>
      if i < |s.ops| && s.ops[i].phase.Inside? then Moved(s, i, Inside(Some(Version(s, s.ops[i].account)))) else s
    case Append(i) =>
      if i < |s.ops| && s.ops[i].phase.Inside? && s.ops[i].phase.loaded.Some? then
        var account := s.ops[i].account;
        if s.ops[i].phase.loaded.value == Version(s, account) then
          Moved(s, i, Inside(None)).(versions := s.versions[account := Version(s, account) + 1])
        else Moved(s, i, Inside(None)).(conflicts := s.conflicts + 1)
      else s
    case Leave(i) =>
      if i < |s.ops| && s.ops[i].phase.Inside? then
        var account := s.ops[i].account;
        Moved(s, i, Done).(locks := if Tail(s, account) == Some(i) then s.locks - {account} else s.locks)
      else s
  }

  function Exec(schedule: seq<Action>): State {
    if schedule == [] then EMPTY else Next(Exec(schedule[..|schedule|-1]), schedule[|schedule|-1])
  }

  // ---- The invariant ----

  // Every operation on the account with lo <= number < hi is done.
  predicate DoneBetween(ops: seq<Op>, account: string, lo: nat, hi: nat) {
    forall j :: lo <= j < hi && j < |ops| && ops[j].account == account ==> ops[j].phase.Done?
  }

  predicate Absent(ops: seq<Op>, account: string, lo: nat, hi: nat) {
    forall j :: lo <= j < hi && j < |ops| ==> ops[j].account != account
  }

  // An operation chains onto the one registered just before it on the same account,
  // or found none unfinished.
  predicate Chained(ops: seq<Op>, i: nat)
    requires i < |ops|
  {
    match ops[i].prev
    case None => DoneBetween(ops, ops[i].account, 0, i)
    case Some(p) => p < i && ops[p].account == ops[i].account && Absent(ops, ops[i].account, p + 1, i)
  }

  predicate OpOk(s: State, i: nat)
    requires i < |s.ops|
  {
    && Chained(s.ops, i)
    && (!s.ops[i].phase.Waiting? ==> DoneBetween(s.ops, s.ops[i].account, 0, i))
    && (s.ops[i].phase.Inside? && s.ops[i].phase.loaded.Some? ==>
          s.ops[i].phase.loaded.value == Version(s, s.ops[i].account))
  }

  predicate KeyOk(s: State, account: string) {
    match Tail(s, account)
    case None => DoneBetween(s.ops, account, 0, |s.ops|)
    case Some(t) =>
      && t < |s.ops| && s.ops[t].account == account && !s.ops[t].phase.Done?
      && Absent(s.ops, account, t + 1, |s.ops|)
  }

  predicate EntriesOk(s: State) {
    && (forall a :: 0 <= a < |s.entered| ==> s.entered[a] < |s.ops| && !s.ops[s.entered[a]].phase.Waiting?)
    && (forall a, b :: 0 <= a < b < |s.entered| && s.ops[s.entered[a]].account == s.ops[s.entered[b]].account ==>
          s.entered[a] < s.entered[b])
  }

  ghost predicate Inv(s: State) {
    && (forall i {:trigger OpOk(s, i)} :: 0 <= i < |s.ops| ==> OpOk(s, i))
    && (forall account :: KeyOk(s, account))
    && EntriesOk(s)
    && s.conflicts == 0
  }

  // Everything registered earlier on the account is done once the promise an
  // operation waits for is resolved.
  lemma TurnHasCome(s: State, i: nat)
    requires Inv(s) && CanEnter(s, i)
    ensures DoneBetween(s.ops, s.ops[i].account, 0, i)
  {
    assert OpOk(s, i);
    if s.ops[i].prev.Some? {
      assert OpOk(s, s.ops[i].prev.value);
    }
  }

  lemma {:induction false} RegisterKeeps(s: State, account: string)
    requires Inv(s)
    ensures Inv(Next(s, Register(account)))
  {
    var s' := Next(s, Register(account));
    assert KeyOk(s, account);
    forall i | 0 <= i < |s'.ops| ensures OpOk(s', i) {
      if i < |s.ops| {
        assert OpOk(s, i);
      }
    }
    forall other ensures KeyOk(s', other) {
      assert KeyOk(s, other);
    }
  }

  lemma EnterKeeps(s: State, i: nat)
    requires Inv(s)
    ensures Inv(Next(s, Enter(i)))
  {
    if CanEnter(s, i) {
      TurnHasCome(s, i);
      var s' := Next(s, Enter(i));
      forall j | 0 <= j < |s'.ops| ensures OpOk(s', j) {
        assert OpOk(s, j);
      }
      forall other ensures KeyOk(s', other) {
        assert KeyOk(s, other);
      }
      forall a | 0 <= a < |s.entered| && s.ops[s.entered[a]].account == s.ops[i].account
        ensures s.entered[a] < i
      {
        assert OpOk(s, s.entered[a]);
      }
    }
  }

  // A step of an operation inside that does not end it.
  lemma LoadKeeps(s: State, i: nat)
    requires Inv(s)
    ensures Inv(Next(s, Load(i)))
  {
    if i < |s.ops| && s.ops[i].phase.Inside? {
      assert OpOk(s, i);
      var s' := Next(s, Load(i));
      forall j | 0 <= j < |s'.ops| ensures OpOk(s', j) {
        assert OpOk(s, j);
      }
      forall other ensures KeyOk(s', other) {
        assert KeyOk(s, other);
      }
    }
  }

  lemma AppendKeeps(s: State, i: nat)
    requires Inv(s)
    ensures Inv(Next(s, Append(i)))
  {
    if i < |s.ops| && s.ops[i].phase.Inside? && s.ops[i].phase.loaded.Some? {
      assert OpOk(s, i);
      var s' := Next(s, Append(i));
      forall j | 0 <= j < |s'.ops| ensures OpOk(s', j) {
        assert OpOk(s, j);
      }
      forall other ensures KeyOk(s', other) {
        assert KeyOk(s, other);
      }
    }
  }

  lemma LeaveKeeps(s: State, i: nat)
    requires Inv(s)
    ensures Inv(Next(s, Leave(i)))
  {
    if i < |s.ops| && s.ops[i].phase.Inside? {
      assert OpOk(s, i) && KeyOk(s, s.ops[i].account);
      var s' := Next(s, Leave(i));
      forall j | 0 <= j < |s'.ops| ensures OpOk(s', j) {
        assert OpOk(s, j);
      }
      forall other ensures KeyOk(s', other) {
        assert KeyOk(s, other);
      }
    }
  }

  lemma {:induction false} Reachable(schedule: seq<Action>)
    ensures Inv(Exec(schedule))
    decreases |schedule|
  {
    if schedule != [] {
      var s, a := Exec(schedule[..|schedule|-1]), schedule[|schedule|-1];
      Reachable(schedule[..|schedule|-1]);
      match a
      case Register(account) => RegisterKeeps(s, account);
      case Enter(i) => EnterKeeps(s, i);
      case Leave(i) => LeaveKeeps(s, i);
      case Load(i) => LoadKeeps(s, i);
      case Append(i) => AppendKeeps(s, i);
    }
  }

  // ---- What every schedule gives ----

  // At most one operation of an account is inside.
  lemma MutualExclusion(schedule: seq<Action>, i: nat, j: nat)
    ensures var ops := Exec(schedule).ops;
            i < |ops| && j < |ops| && ops[i].account == ops[j].account ==>
              ops[i].phase.Inside? && ops[j].phase.Inside? ==> i == j
  {
    Reachable(schedule);
    var s := Exec(schedule);
    if i < |s.ops| && j < |s.ops| {
      assert OpOk(s, i) && OpOk(s, j);
    }
  }

  // Operations of an account get inside in the order in which they registered, and
  // only when everything registered before them is done.
  lemma EntryIsInOrder(schedule: seq<Action>, a: nat, b: nat)
    ensures var s := Exec(schedule);
            a < b < |s.entered| ==>
              && s.entered[a] < |s.ops| && s.entered[b] < |s.ops|
              && (s.ops[s.entered[a]].account == s.ops[s.entered[b]].account ==>
                    s.entered[a] < s.entered[b] && s.ops[s.entered[a]].phase.Done?)
  {
    Reachable(schedule);
    var s := Exec(schedule);
    if a < b < |s.entered| {
      assert OpOk(s, s.entered[b]);
    }
  }

  // The map has a key exactly while some operation registered on the account is
  // unfinished, and the entry is the one registered last.
  lemma KeyMeansUnfinished(schedule: seq<Action>, account: string)
    ensures var s := Exec(schedule);
            && (account in s.locks <==>
                exists i :: 0 <= i < |s.ops| && s.ops[i].account == account && !s.ops[i].phase.Done?)
            && (account in s.locks ==>
                  s.locks[account] < |s.ops| && forall i :: s.locks[account] < i < |s.ops| ==>
                      s.ops[i].account != account)
  {
    Reachable(schedule);
    assert KeyOk(Exec(schedule), account);
  }

  // Nobody waits for ever on a promise: of the unfinished operations on an account,
  // the one registered first is inside or may enter.
  lemma FirstMayProceed(schedule: seq<Action>, i: nat)
    requires i < |Exec(schedule).ops| && !Exec(schedule).ops[i].phase.Done?
    requires DoneBetween(Exec(schedule).ops, Exec(schedule).ops[i].account, 0, i)
    ensures Exec(schedule).ops[i].phase.Inside? || CanEnter(Exec(schedule), i)
  {
    Reachable(schedule);
    assert OpOk(Exec(schedule), i);
  }

  // Where this process is the only writer, no append ever finds the stream at
  // another version than the one loaded.
  lemma NoConflictInOneProcess(schedule: seq<Action>, i: nat)
    ensures var s := Exec(schedule);
            && s.conflicts == 0
            && (i < |s.ops| && s.ops[i].phase.Inside? && s.ops[i].phase.loaded.Some? ==>
                  s.ops[i].phase.loaded.value == Version(s, s.ops[i].account))
  {
    Reachable(schedule);
    var s := Exec(schedule);
    if i < |s.ops| {
      assert OpOk(s, i);
    }
  }

  // ---- The same steps on the repository's own map ----

  class KeyedMutex {
    var accountLocks: map<string, nat>
    var promises: seq<Op>
    ghost var entered: seq<nat>
    ghost var versions: map<string, nat>

    ghost function View(): State
      reads this
    {
      State(promises, accountLocks, entered, versions, 0)
    }

    constructor ()
      ensures View() == EMPTY
    {
      accountLocks, promises, entered, versions := map[], [], [], map[];
    }

    // Up to the first await: chain onto the current promise and put ours in its place.
    method Register(account: string) returns (lock: nat)
      modifies this
      ensures View() == Next(old(View()), Action.Register(account)) && lock == |old(promises)|
    {
      var prev := if account in accountLocks then Some(accountLocks[account]) else None;
      lock := |promises|;
      promises := promises + [Op(account, prev, Waiting)];
      accountLocks := accountLocks[account := lock];
    }

    // `await prev` returns.
    method Enter(lock: nat)
      requires CanEnter(View(), lock)
      modifies this
      ensures View() == Next(old(View()), Action.Enter(lock))
    {
      promises := promises[lock := promises[lock].(phase := Inside(None))];
      entered := entered + [lock];
    }

    // The finally block: resolve our promise, and drop the key if it is still ours.
    method Release(lock: nat)
      requires lock < |promises| && promises[lock].phase.Inside?
      modifies this
      ensures View() == Next(old(View()), Leave(lock))
    {
      var account := promises[lock].account;
      promises := promises[lock := promises[lock].(phase := Done)];
      if account in accountLocks && accountLocks[account] == lock {
        accountLocks := accountLocks - {account};
      }
    }
  }
}
