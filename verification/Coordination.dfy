// Shared and exclusive projection tasks. A task tests its condition, and only after
// one more turn of the event loop raises its counter or flag; parked tasks are woken
// to test again. The segments between two awaits are the steps.
module Coordination {
  import opened Wrappers

  // prev: the promise of the exclusive task called before this one.
  datatype Kind = Shared | Exclusive(prev: Option<nat>)

  datatype Phase = Queued | Parked | Woken | Passed | Working | Finished

  datatype Task = Task(kind: Kind, phase: Phase)

  datatype State = State(tasks: seq<Task>, queue: Option<nat>, active: int, requested: bool, inProgress: bool)

  const EMPTY := State([], None, 0, false, false)

  datatype Action =
    | CallShared
    | CallExclusive
    | Turn(i: nat)      // the exclusive task called before i is done
    | Retest(i: nat)    // a woken task tests again
    | Enter(i: nat)     // the turn after a test that passed
    | Finish(i: nat)

  function At(s: State, i: nat, phase: Phase): State
    requires i < |s.tasks|
  {
    s.(tasks := s.tasks[i := s.tasks[i].(phase := phase)])
  }

  predicate Test(s: State, kind: Kind) {
    if kind.Shared? then !s.requested && !s.inProgress else s.active == 0 && !s.inProgress
  }

  function Entered(s: State, i: nat): State
    requires i < |s.tasks|
  {
    if s.tasks[i].kind.Shared? then At(s, i, Working).(active := s.active + 1)
    else At(s, i, Working).(inProgress := true)
  }

  // atomic: the test and the entry are one step, which the code does not make them.
  function Tested(atomic: bool, s: State, i: nat): State
    requires i < |s.tasks|
  {
    if !Test(s, s.tasks[i].kind) then At(s, i, Parked)
    else if atomic then Entered(s, i)
    else At(s, i, Passed)
  }

  function Notified(s: State): State {
    s.(tasks := seq(|s.tasks|, k requires 0 <= k < |s.tasks| =>
         if s.tasks[k].phase.Parked? then s.tasks[k].(phase := Woken) else s.tasks[k]))
  }

  predicate Ready(s: State, i: nat) {
    && i < |s.tasks| && s.tasks[i].kind.Exclusive? && s.tasks[i].phase.Queued?
    && var prev := s.tasks[i].kind.prev;
       prev.Some? && prev.value < |s.tasks| ==> s.tasks[prev.value].phase.Finished?
  }

  function Next(atomic: bool, s: State, a: Action): State {
    match a
    case CallShared => Tested(atomic, s.(tasks := s.tasks + [Task(Shared, Woken)]), |s.tasks|)
    case CallExclusive => s.(tasks := s.tasks + [Task(Exclusive(s.queue), Queued)], queue := Some(|s.tasks|))
    case Turn(i) => if Ready(s, i) then Tested(atomic, Notified(s.(requested := true)), i) else s
    case Retest(i) => if i < |s.tasks| && s.tasks[i].phase.Woken? then Tested(atomic, s, i) else s
    case Enter(i) => if i < |s.tasks| && s.tasks[i].phase.Passed? then Entered(s, i) else s
    case Finish(i) =>
      if i < |s.tasks| && s.tasks[i].phase.Working? then
        var done := At(s, i, Finished);
        Notified(if s.tasks[i].kind.Shared? then done.(active := s.active - 1)
                 else done.(inProgress := false, requested := false))
      else s
  }

  function ExecFrom(atomic: bool, s: State, schedule: seq<Action>): State {
    if schedule == [] then s
    else Next(atomic, ExecFrom(atomic, s, schedule[..|schedule|-1]), schedule[|schedule|-1])
  }

  function Exec(atomic: bool, schedule: seq<Action>): State { ExecFrom(atomic, EMPTY, schedule) }

  // ---- The invariant ----

  function WorkingShared(tasks: seq<Task>): nat {
    if tasks == [] then 0
    else WorkingShared(tasks[..|tasks|-1]) + (if tasks[|tasks|-1] == Task(Shared, Working) then 1 else 0)
  }

  predicate NoExclusive(tasks: seq<Task>, lo: nat, hi: nat) {
    forall j :: lo <= j < hi && j < |tasks| ==> tasks[j].kind.Shared?
  }

  predicate ExclusivesDone(tasks: seq<Task>, hi: nat) {
    forall j :: 0 <= j < hi && j < |tasks| && tasks[j].kind.Exclusive? ==> tasks[j].phase.Finished?
  }

  // An exclusive task that has had its turn and is not done.
  predicate Current(t: Task) { t.kind.Exclusive? && !t.phase.Queued? && !t.phase.Finished? }

  predicate TaskOk(s: State, i: nat)
    requires i < |s.tasks|
  {
    match s.tasks[i].kind
    case Shared => !s.tasks[i].phase.Queued?
    case Exclusive(prev) =>
      && (match prev
          case None => NoExclusive(s.tasks, 0, i)
          case Some(p) => p < i && s.tasks[p].kind.Exclusive? && NoExclusive(s.tasks, p + 1, i))
      && (!s.tasks[i].phase.Queued? ==> ExclusivesDone(s.tasks, i))
      && (Current(s.tasks[i]) ==> s.requested)
      && (s.tasks[i].phase.Working? ==> s.inProgress)
  }

  predicate Inv(s: State) {
    && (forall i :: 0 <= i < |s.tasks| ==> TaskOk(s, i))
    && s.active == WorkingShared(s.tasks)
    && (match s.queue
        case None => NoExclusive(s.tasks, 0, |s.tasks|)
        case Some(q) => q < |s.tasks| && s.tasks[q].kind.Exclusive? && NoExclusive(s.tasks, q + 1, |s.tasks|))
    && (s.requested ==> exists i :: 0 <= i < |s.tasks| && Current(s.tasks[i]))
    && (s.inProgress ==> exists i :: 0 <= i < |s.tasks| && s.tasks[i].kind.Exclusive? && s.tasks[i].phase.Working?)
  }

  // Where the chain reaches an unfinished task, everything before it is done.
  lemma TurnIsFirst(s: State, i: nat)
    requires Inv(s) && Ready(s, i)
    ensures ExclusivesDone(s.tasks, i)
  {
    assert TaskOk(s, i);
    var prev := s.tasks[i].kind.prev;
    if prev.Some? {
      assert TaskOk(s, prev.value);
    }
  }

  // At most one exclusive task has had its turn and is not done.
  lemma OneCurrent(s: State, i: nat, j: nat)
    requires Inv(s) && i < |s.tasks| && j < |s.tasks| && Current(s.tasks[i]) && Current(s.tasks[j])
    ensures i == j
  {
    assert TaskOk(s, i) && TaskOk(s, j);
  }

  lemma {:induction false} CountUpdate(tasks: seq<Task>, i: nat, t: Task)
    requires i < |tasks|
    ensures WorkingShared(tasks[i := t]) ==
              WorkingShared(tasks) - (if tasks[i] == Task(Shared, Working) then 1 else 0)
              + (if t == Task(Shared, Working) then 1 else 0)
    decreases |tasks|
  {
    var n := |tasks| - 1;
    var after := tasks[i := t];
    if i < n {
      CountUpdate(tasks[..n], i, t);
      assert after[..n] == tasks[..n][i := t];
    } else {
      assert after[..n] == tasks[..n];
    }
  }

  lemma {:induction false} CountNotified(tasks: seq<Task>, woken: seq<Task>)
    requires |woken| == |tasks|
    requires forall k :: 0 <= k < |tasks| ==>
               woken[k] == if tasks[k].phase.Parked? then tasks[k].(phase := Woken) else tasks[k]
    ensures WorkingShared(woken) == WorkingShared(tasks)
    decreases |tasks|
  {
    if tasks != [] {
      CountNotified(tasks[..|tasks|-1], woken[..|tasks|-1]);
    }
  }

  lemma NotifiedKeeps(s: State)
    requires Inv(s)
    ensures Inv(Notified(s))
  {
    var s' := Notified(s);
    CountNotified(s.tasks, s'.tasks);
    forall i | 0 <= i < |s'.tasks| ensures TaskOk(s', i) {
      assert TaskOk(s, i);
      var prev := if s.tasks[i].kind.Exclusive? then s.tasks[i].kind.prev else None;
      assert s'.tasks[i].kind == s.tasks[i].kind;
      if prev.Some? {
        assert s'.tasks[prev.value].kind == s.tasks[prev.value].kind;
      }
    }
    if s.requested {
      var i :| 0 <= i < |s.tasks| && Current(s.tasks[i]);
      assert Current(s'.tasks[i]);
    }
    if s.inProgress {
      var i :| 0 <= i < |s.tasks| && s.tasks[i].kind.Exclusive? && s.tasks[i].phase.Working?;
      assert s'.tasks[i] == s.tasks[i];
    }
  }

  // Task i has moved from one phase to another, and the flags still say what the
  // tasks need.
  predicate MovedTo(s: State, s': State, i: nat, phase: Phase) {
    && i < |s.tasks| && s'.tasks == s.tasks[i := s.tasks[i].(phase := phase)] && s'.queue == s.queue
    && !s.tasks[i].phase.Queued? && !phase.Queued? && (s.tasks[i].phase.Finished? ==> phase.Finished?)
    && (forall k :: 0 <= k < |s'.tasks| && Current(s'.tasks[k]) ==> s'.requested)
    && (forall k :: 0 <= k < |s'.tasks| && s'.tasks[k].kind.Exclusive? && s'.tasks[k].phase.Working? ==> s'.inProgress)
  }

  lemma FlagsTell(s: State)
    requires Inv(s)
    ensures forall k :: 0 <= k < |s.tasks| && Current(s.tasks[k]) ==> s.requested
    ensures forall k :: 0 <= k < |s.tasks| && s.tasks[k].kind.Exclusive? && s.tasks[k].phase.Working? ==> s.inProgress
  {
    forall k | 0 <= k < |s.tasks| && Current(s.tasks[k])
      ensures s.requested && (s.tasks[k].phase.Working? ==> s.inProgress)
    {
      assert TaskOk(s, k);
    }
  }

  lemma MoveKeepsTask(s: State, s': State, i: nat, phase: Phase, k: nat)
    requires Inv(s) && MovedTo(s, s', i, phase) && k < |s.tasks|
    ensures TaskOk(s', k)
  {
    assert TaskOk(s, k) && TaskOk(s, i);
  }

  // A task that is awake parks or passes its test.
  lemma WaitKeeps(s: State, i: nat, phase: Phase)
    requires Inv(s) && i < |s.tasks| && s.tasks[i].phase.Woken? && (phase.Parked? || phase.Passed?)
    ensures Inv(At(s, i, phase))
  {
    var s' := At(s, i, phase);
    CountUpdate(s.tasks, i, s.tasks[i].(phase := phase));
    FlagsTell(s);
    forall k | 0 <= k < |s.tasks| ensures TaskOk(s', k) {
      MoveKeepsTask(s, s', i, phase, k);
    }
    FlagsStay(s, s', i, phase);
  }

  // Flags that stay up still have a task that justifies them.
  lemma FlagsStay(s: State, s': State, i: nat, phase: Phase)
    requires Inv(s) && i < |s.tasks| && s'.tasks == s.tasks[i := s.tasks[i].(phase := phase)]
    requires !s.tasks[i].phase.Working? && (Current(s.tasks[i]) ==> Current(s.tasks[i].(phase := phase)))
    ensures s.requested ==> exists k :: 0 <= k < |s'.tasks| && Current(s'.tasks[k])
    ensures s.inProgress ==>
              exists k :: 0 <= k < |s'.tasks| && s'.tasks[k].kind.Exclusive? && s'.tasks[k].phase.Working?
  {
    if s.requested {
      var k :| 0 <= k < |s.tasks| && Current(s.tasks[k]);
      assert Current(s'.tasks[k]);
    }
    if s.inProgress {
      var k :| 0 <= k < |s.tasks| && s.tasks[k].kind.Exclusive? && s.tasks[k].phase.Working?;
      assert s'.tasks[k] == s.tasks[k];
    }
  }

  // A task enters, after its test or in the same step.
  lemma EnterKeeps(s: State, i: nat)
    requires Inv(s) && i < |s.tasks| && (s.tasks[i].phase.Woken? || s.tasks[i].phase.Passed?)
    ensures Inv(Entered(s, i))
  {
    var s' := Entered(s, i);
    CountUpdate(s.tasks, i, s.tasks[i].(phase := Working));
    FlagsTell(s);
    forall k | 0 <= k < |s.tasks| ensures TaskOk(s', k) {
      MoveKeepsTask(s, s', i, Working, k);
    }
    FlagsStay(s, s', i, Working);
    assert s'.tasks[i].phase == Working;
  }

  lemma TestedKeeps(atomic: bool, s: State, i: nat)
    requires Inv(s) && i < |s.tasks| && s.tasks[i].phase.Woken?
    ensures Inv(Tested(atomic, s, i))
  {
    if Test(s, s.tasks[i].kind) && atomic {
      EnterKeeps(s, i);
    } else {
      WaitKeeps(s, i, if Test(s, s.tasks[i].kind) then Passed else Parked);
    }
  }

  // The state in which an exclusive task whose turn has come is awake.
  function Taken(s: State, i: nat): State
    requires i < |s.tasks|
  {
    Notified(At(s, i, Woken).(requested := true))
  }

  lemma TurnKeeps(atomic: bool, s: State, i: nat)
    requires Inv(s) && Ready(s, i)
    ensures Inv(Taken(s, i)) && Next(atomic, s, Turn(i)) == Tested(atomic, Taken(s, i), i)
  {
    TakenKeeps(s, i);
    TurnIsTaken(atomic, s, i);
  }

  lemma TakenKeeps(s: State, i: nat)
    requires Inv(s) && Ready(s, i)
    ensures Inv(Taken(s, i))
  {
    TurnIsFirst(s, i);
    var s1 := At(s, i, Woken).(requested := true);
    CountUpdate(s.tasks, i, s.tasks[i].(phase := Woken));
    forall k | 0 <= k < |s1.tasks| ensures TaskOk(s1, k) {
      assert TaskOk(s, k);
    }
    assert Current(s1.tasks[i]);
    if s.inProgress {
      var k :| 0 <= k < |s.tasks| && s.tasks[k].kind.Exclusive? && s.tasks[k].phase.Working?;
      assert s1.tasks[k] == s.tasks[k];
    }
    NotifiedKeeps(s1);
  }

  // The test overwrites the phase, so that it does not matter what woke it.
  lemma TurnIsTaken(atomic: bool, s: State, i: nat)
    requires Ready(s, i)
    ensures Next(atomic, s, Turn(i)) == Tested(atomic, Taken(s, i), i)
  {
    var a, b := Notified(s.(requested := true)), Taken(s, i);
    assert forall phase :: a.tasks[i].(phase := phase) == b.tasks[i].(phase := phase);
    assert forall phase :: At(a, i, phase).tasks == At(b, i, phase).tasks;
  }

  lemma FinishSharedKeeps(s: State, i: nat)
    requires Inv(s) && i < |s.tasks| && s.tasks[i] == Task(Shared, Working)
    ensures Inv(At(s, i, Finished).(active := s.active - 1))
  {
    var s' := At(s, i, Finished).(active := s.active - 1);
    CountUpdate(s.tasks, i, Task(Shared, Finished));
    FlagsTell(s);
    forall k | 0 <= k < |s.tasks| ensures TaskOk(s', k) {
      MoveKeepsTask(s, s', i, Finished, k);
    }
    if s.requested {
      var k :| 0 <= k < |s.tasks| && Current(s.tasks[k]);
      assert Current(s'.tasks[k]);
    }
    if s.inProgress {
      var k :| 0 <= k < |s.tasks| && s.tasks[k].kind.Exclusive? && s.tasks[k].phase.Working?;
      assert s'.tasks[k] == s.tasks[k];
    }
  }

  lemma FinishExclusiveKeeps(s: State, i: nat)
    requires Inv(s) && i < |s.tasks| && s.tasks[i].kind.Exclusive? && s.tasks[i].phase.Working?
    ensures Inv(At(s, i, Finished).(inProgress := false, requested := false))
  {
    var s' := At(s, i, Finished).(inProgress := false, requested := false);
    CountUpdate(s.tasks, i, s.tasks[i].(phase := Finished));
    forall k | 0 <= k < |s.tasks| && k != i ensures !Current(s.tasks[k]) {
      if Current(s.tasks[k]) {
        OneCurrent(s, i, k);
      }
    }
    forall k | 0 <= k < |s.tasks| ensures TaskOk(s', k) {
      MoveKeepsTask(s, s', i, Finished, k);
    }
  }

  lemma FinishKeeps(atomic: bool, s: State, i: nat)
    requires Inv(s)
    ensures Inv(Next(atomic, s, Finish(i)))
  {
    if i < |s.tasks| && s.tasks[i].phase.Working? {
      if s.tasks[i].kind.Shared? {
        FinishSharedKeeps(s, i);
        NotifiedKeeps(At(s, i, Finished).(active := s.active - 1));
      } else {
        FinishExclusiveKeeps(s, i);
        NotifiedKeeps(At(s, i, Finished).(inProgress := false, requested := false));
      }
    }
  }

  // A call adds a task at the end.
  lemma CallKeeps(s: State, t: Task)
    requires Inv(s) && (t == Task(Shared, Woken) || t == Task(Exclusive(s.queue), Queued))
    ensures Inv(s.(tasks := s.tasks + [t], queue := if t.kind.Shared? then s.queue else Some(|s.tasks|)))
  {
    var s' := s.(tasks := s.tasks + [t], queue := if t.kind.Shared? then s.queue else Some(|s.tasks|));
    assert s'.tasks[..|s.tasks|] == s.tasks;
    forall k | 0 <= k < |s'.tasks| ensures TaskOk(s', k) {
      if k < |s.tasks| {
        assert TaskOk(s, k);
      }
    }
    if s.requested {
      var k :| 0 <= k < |s.tasks| && Current(s.tasks[k]);
      assert s'.tasks[k] == s.tasks[k];
    }
    if s.inProgress {
      var k :| 0 <= k < |s.tasks| && s.tasks[k].kind.Exclusive? && s.tasks[k].phase.Working?;
      assert s'.tasks[k] == s.tasks[k];
    }
  }

  lemma NextKeeps(atomic: bool, s: State, a: Action)
    requires Inv(s)
    ensures Inv(Next(atomic, s, a))
  {
    match a
    case CallShared =>
      CallKeeps(s, Task(Shared, Woken));
      TestedKeeps(atomic, s.(tasks := s.tasks + [Task(Shared, Woken)]), |s.tasks|);
    case CallExclusive =>
      CallKeeps(s, Task(Exclusive(s.queue), Queued));
    case Turn(i) =>
      if Ready(s, i) {
        TurnKeeps(atomic, s, i);
        TestedKeeps(atomic, Taken(s, i), i);
      }
    case Retest(i) =>
      if i < |s.tasks| && s.tasks[i].phase.Woken? {
        TestedKeeps(atomic, s, i);
      }
    case Enter(i) =>
      if i < |s.tasks| && s.tasks[i].phase.Passed? {
        EnterKeeps(s, i);
      }
    case Finish(i) => FinishKeeps(atomic, s, i);
  }

  lemma {:induction false} Reachable(atomic: bool, schedule: seq<Action>)
    ensures Inv(Exec(atomic, schedule))
    decreases |schedule|
  {
    if schedule != [] {
      Reachable(atomic, schedule[..|schedule|-1]);
      NextKeeps(atomic, Exec(atomic, schedule[..|schedule|-1]), schedule[|schedule|-1]);
    }
  }

  // Exclusive tasks run one at a time and in the order in which they were called,
  // whether or not the acquisition is one step; the counter and the flags tell the
  // truth about them.
  lemma ExclusiveTasksTakeTurns(atomic: bool, schedule: seq<Action>, i: nat, j: nat)
    ensures var s := Exec(atomic, schedule);
            && s.active == WorkingShared(s.tasks)
            && (s.inProgress <==>
                  exists k :: 0 <= k < |s.tasks| && s.tasks[k].kind.Exclusive? && s.tasks[k].phase.Working?)
            && (s.requested <==> exists k :: 0 <= k < |s.tasks| && Current(s.tasks[k]))
            && (i < j < |s.tasks| && s.tasks[i].kind.Exclusive? && s.tasks[j].kind.Exclusive?
                && !s.tasks[j].phase.Queued? ==>
                  s.tasks[i].phase.Finished?)
  {
    Reachable(atomic, schedule);
    var s := Exec(atomic, schedule);
    if j < |s.tasks| {
      assert TaskOk(s, j);
    }
    FlagsTell(s);
  }

  // ---- Shared against exclusive ----

  predicate SharedIn(t: Task) { t.kind.Shared? && (t.phase.Passed? || t.phase.Working?) }

  // No shared task has passed its test and not finished.
  predicate NoneIn(s: State) { forall k :: 0 <= k < |s.tasks| ==> !SharedIn(s.tasks[k]) }

  predicate Overlap(s: State, e: nat) {
    && e < |s.tasks| && s.tasks[e].kind.Exclusive? && s.tasks[e].phase.Working?
    && exists k :: 0 <= k < |s.tasks| && s.tasks[k] == Task(Shared, Working)
  }

  // While an exclusive task holds the request, no shared task passes its test.
  lemma RequestKeepsOut(atomic: bool, s: State, a: Action, e: nat)
    requires Inv(s) && e < |s.tasks| && Current(s.tasks[e]) && NoneIn(s)
    ensures var s' := Next(atomic, s, a);
            && e < |s'.tasks| && s'.tasks[e].kind == s.tasks[e].kind
            && (s'.tasks[e].phase.Finished? || (Current(s'.tasks[e]) && NoneIn(s')))
  {
    assert TaskOk(s, e);
    if a.Turn? && Ready(s, a.i) {
      TurnIsFirst(s, a.i);
    }
    if a.Finish? && a.i < |s.tasks| && s.tasks[a.i].phase.Working? {
      assert TaskOk(s, a.i);
    }
  }

  // Once exclusive task e is done it stays done.
  lemma DoneIsDone(atomic: bool, s: State, a: Action, e: nat)
    requires e < |s.tasks| && s.tasks[e].phase.Finished?
    ensures e < |Next(atomic, s, a).tasks| && Next(atomic, s, a).tasks[e] == s.tasks[e]
  {
  }

  lemma {:induction false} ClearStaysClear(s: State, e: nat, schedule: seq<Action>)
    requires Inv(s) && e < |s.tasks| && Current(s.tasks[e]) && NoneIn(s)
    ensures var s' := ExecFrom(false, s, schedule);
            && Inv(s') && e < |s'.tasks| && s'.tasks[e].kind == s.tasks[e].kind
            && (s'.tasks[e].phase.Finished? || (Current(s'.tasks[e]) && NoneIn(s')))
    decreases |schedule|
  {
    if schedule != [] {
      var n := |schedule| - 1;
      ClearStaysClear(s, e, schedule[..n]);
      var mid := ExecFrom(false, s, schedule[..n]);
      NextKeeps(false, mid, schedule[n]);
      if mid.tasks[e].phase.Finished? {
        DoneIsDone(false, mid, schedule[n], e);
      } else {
        RequestKeepsOut(false, mid, schedule[n], e);
      }
    }
  }

  ghost predicate MayOverlap(s: State, e: nat) { exists later :: Overlap(ExecFrom(false, s, later), e) }

  // An exclusive task that has passed its test can come to overlap with a shared
  // one if and only if some shared task had passed its own test and not finished.
  lemma OverlapIff(before: seq<Action>, e: nat)
    requires e < |Exec(false, before).tasks| && Exec(false, before).tasks[e].kind.Exclusive?
    requires Exec(false, before).tasks[e].phase.Passed?
    ensures MayOverlap(Exec(false, before), e) <==> !NoneIn(Exec(false, before))
  {
    var s := Exec(false, before);
    Reachable(false, before);
    if NoneIn(s) {
      forall later ensures !Overlap(ExecFrom(false, s, later), e) {
        ClearStaysClear(s, e, later);
      }
    } else {
      var k :| 0 <= k < |s.tasks| && SharedIn(s.tasks[k]);
      BothEnter(s, k, e);
    }
  }

  lemma BothEnter(s: State, k: nat, e: nat)
    requires k < |s.tasks| && SharedIn(s.tasks[k])
    requires e < |s.tasks| && s.tasks[e].kind.Exclusive? && s.tasks[e].phase.Passed?
    ensures Overlap(ExecFrom(false, s, [Enter(k), Enter(e)]), e)
  {
    var later := [Enter(k), Enter(e)];
    assert later[..1] == [Enter(k)] && later[..1][..0] == [];
    var s1 := Next(false, s, Enter(k));
    assert ExecFrom(false, s, later[..1]) == s1;
    var s2 := Next(false, s1, Enter(e));
    assert s2.tasks[k] == Task(Shared, Working) && s2.tasks[e].phase.Working?;
  }

  // Calling an exclusive and then a shared task in one go is enough.
  lemma OverlapHappens()
    ensures Overlap(Exec(false, [CallExclusive, CallShared, Turn(0), Enter(1), Enter(0)]), 0)
  {
    var a := [CallExclusive, CallShared, Turn(0), Enter(1), Enter(0)];
    forall k | 0 <= k < 5 ensures Exec(false, a[..k+1]) == Next(false, Exec(false, a[..k]), a[k]) {
      assert a[..k+1][..k] == a[..k];
    }
    assert a[..0] == [] && a[..5] == a;
    var s1 := Exec(false, a[..1]);
    assert s1 == State([Task(Exclusive(None), Queued)], Some(0), 0, false, false);
    var s2 := Exec(false, a[..2]);
    assert s2.tasks == [Task(Exclusive(None), Queued), Task(Shared, Passed)];
    var s3 := Exec(false, a[..3]);
    assert s3.tasks == [Task(Exclusive(None), Passed), Task(Shared, Passed)];
    var s4 := Exec(false, a[..4]);
    assert s4.tasks == [Task(Exclusive(None), Passed), Task(Shared, Working)];
    var s5 := Exec(false, a[..5]);
    assert s5.tasks == [Task(Exclusive(None), Working), Task(Shared, Working)];
    assert s5.tasks[1] == Task(Shared, Working);
  }

  // ---- Who is woken, and who works then ----

  // When a task finishes nobody is left parked; when an exclusive task has its turn at
  // most that task itself is.
  lemma NobodyStaysParked(s: State, i: nat, k: nat)
    requires i < |s.tasks| && k < |s.tasks|
    ensures s.tasks[i].phase.Working? ==> !Next(false, s, Finish(i)).tasks[k].phase.Parked?
    ensures Ready(s, i) && k != i ==> !Next(false, s, Turn(i)).tasks[k].phase.Parked?
    ensures k != i && !s.tasks[k].phase.Parked? ==>
              && Next(false, s, Finish(i)).tasks[k] == s.tasks[k]
              && Next(false, s, Turn(i)).tasks[k] == s.tasks[k]
  {
  }

  function ThreeSteps(s: State, a: Action, b: Action, c: Action): State {
    Next(false, Next(false, Next(false, s, a), b), c)
  }

  // A shared task parked behind an exclusive one works as soon as, after the exclusive
  // one is done, it has tested again and entered.
  lemma SharedComesToWork(before: seq<Action>, e: nat, k: nat)
    requires e < |Exec(false, before).tasks| && k < |Exec(false, before).tasks|
    requires Exec(false, before).tasks[e].kind.Exclusive? && Exec(false, before).tasks[e].phase.Working?
    requires Exec(false, before).tasks[k] == Task(Shared, Parked)
    ensures var s := ThreeSteps(Exec(false, before), Finish(e), Retest(k), Enter(k));
            && |s.tasks| == |Exec(false, before).tasks|
            && s.tasks[e].phase.Finished? && s.tasks[k] == Task(Shared, Working)
            && s.active == Exec(false, before).active + 1
  {
    var s := Exec(false, before);
    var s1 := Next(false, s, Finish(e));
    assert s1.tasks[k] == Task(Shared, Woken) && Test(s1, Shared);
    assert Next(false, s1, Retest(k)).tasks[k] == Task(Shared, Passed);
  }

  // An exclusive task parked behind the last shared one at work does, too.
  lemma ExclusiveComesToWork(before: seq<Action>, k: nat, e: nat)
    requires e < |Exec(false, before).tasks| && k < |Exec(false, before).tasks|
    requires Exec(false, before).tasks[k] == Task(Shared, Working) && Exec(false, before).active == 1
    requires Exec(false, before).tasks[e].kind.Exclusive? && Exec(false, before).tasks[e].phase.Parked?
    ensures var s := ThreeSteps(Exec(false, before), Finish(k), Retest(e), Enter(e));
            && |s.tasks| == |Exec(false, before).tasks|
            && s.tasks[k].phase.Finished? && s.tasks[e].phase.Working?
            && s.tasks[e].kind == Exec(false, before).tasks[e].kind && s.inProgress && s.active == 0
  {
    var s := Exec(false, before);
    Reachable(false, before);
    NoneElseWorks(s, e);
    var s1 := Next(false, s, Finish(k));
    assert s1.tasks[e].phase.Woken? && Test(s1, s1.tasks[e].kind);
    assert Next(false, s1, Retest(e)).tasks[e].phase.Passed?;
  }

  // While an exclusive task is parked after its turn no other is at work.
  lemma NoneElseWorks(s: State, e: nat)
    requires Inv(s) && e < |s.tasks| && s.tasks[e].kind.Exclusive? && s.tasks[e].phase.Parked?
    ensures !s.inProgress
  {
    if s.inProgress {
      var k :| 0 <= k < |s.tasks| && s.tasks[k].kind.Exclusive? && s.tasks[k].phase.Working?;
      OneCurrent(s, e, k);
    }
  }

  // ---- If testing and entering were one step ----

  predicate Apart(s: State) {
    && (forall k :: 0 <= k < |s.tasks| ==> !s.tasks[k].phase.Passed?)
    && (s.inProgress ==> s.active == 0)
  }

  lemma TestedKeepsApart(s: State, i: nat)
    requires Apart(s) && i < |s.tasks|
    ensures Apart(Tested(true, s, i))
  {
  }

  lemma FinishKeepsApart(s: State, i: nat)
    requires Inv(s) && Apart(s)
    ensures Apart(Next(true, s, Finish(i)))
  {
    if i < |s.tasks| && s.tasks[i].phase.Working? {
      assert TaskOk(s, i);
      CountUpdate(s.tasks, i, s.tasks[i].(phase := Finished));
    }
  }

  lemma AtomicKeepsApart(s: State, a: Action)
    requires Inv(s) && Apart(s)
    ensures Apart(Next(true, s, a))
  {
    match a
    case CallShared => TestedKeepsApart(s.(tasks := s.tasks + [Task(Shared, Woken)]), |s.tasks|);
    case CallExclusive =>
    case Turn(i) =>
      if Ready(s, i) {
        TestedKeepsApart(Notified(s.(requested := true)), i);
      }
    case Retest(i) =>
      if i < |s.tasks| {
        TestedKeepsApart(s, i);
      }
    case Enter(_) =>
    case Finish(i) => FinishKeepsApart(s, i);
  }

  lemma {:induction false} WorkingIsCounted(tasks: seq<Task>, k: nat)
    requires k < |tasks| && tasks[k] == Task(Shared, Working)
    ensures WorkingShared(tasks) > 0
    decreases |tasks|
  {
    if k < |tasks| - 1 {
      WorkingIsCounted(tasks[..|tasks|-1], k);
    }
  }

  lemma {:induction false} AtomicIsApart(schedule: seq<Action>)
    ensures Inv(Exec(true, schedule)) && Apart(Exec(true, schedule))
    decreases |schedule|
  {
    if schedule != [] {
      AtomicIsApart(schedule[..|schedule|-1]);
      NextKeeps(true, Exec(true, schedule[..|schedule|-1]), schedule[|schedule|-1]);
      AtomicKeepsApart(Exec(true, schedule[..|schedule|-1]), schedule[|schedule|-1]);
    }
  }

  // With an atomic acquisition no shared task ever works beside an exclusive one.
  lemma AtomicExcludes(schedule: seq<Action>, e: nat)
    ensures !Overlap(Exec(true, schedule), e)
  {
    AtomicIsApart(schedule);
    var s := Exec(true, schedule);
    if Overlap(s, e) {
      assert TaskOk(s, e);
      var k :| 0 <= k < |s.tasks| && s.tasks[k] == Task(Shared, Working);
      WorkingIsCounted(s.tasks, k);
    }
  }

  // ---- The same steps on the service's own fields ----

  // tasks holds what the promises of the service say: a parked task has a resolver
  // among the waiting ones, a finished exclusive task has released its queue promise.
  class ProjectionCoordination {
    var activeSharedOperations: int
    var exclusiveOperationInProgress: bool
    var exclusiveOperationRequested: bool
    var exclusiveQueue: Option<nat>
    var tasks: seq<Task>

    function View(): State
      reads this
    {
      State(tasks, exclusiveQueue, activeSharedOperations, exclusiveOperationRequested, exclusiveOperationInProgress)
    }

    constructor ()
      ensures View() == EMPTY
    {
      activeSharedOperations := 0;
      exclusiveOperationInProgress, exclusiveOperationRequested := false, false;
      exclusiveQueue, tasks := None, [];
    }

    // One turn of waitUntil: the predicate is evaluated and the task parks or goes on.
    method WaitUntil(i: nat)
      requires i < |tasks|
      modifies this`tasks
      ensures View() == Tested(false, old(View()), i)
    {
      var passed := if tasks[i].kind.Shared? then !exclusiveOperationRequested && !exclusiveOperationInProgress
                    else activeSharedOperations == 0 && !exclusiveOperationInProgress;
      tasks := tasks[i := tasks[i].(phase := if passed then Passed else Parked)];
    }

    method NotifyWaiters()
      modifies this`tasks
      ensures View() == Notified(old(View()))
    {
      for i := 0 to |tasks|
        invariant |tasks| == |old(tasks)|
        invariant forall k :: 0 <= k < |tasks| ==>
                    tasks[k] == (if k < i then Notified(old(View())).tasks[k] else old(tasks)[k])
      {
        if tasks[i].phase.Parked? {
          tasks := tasks[i := tasks[i].(phase := Woken)];
        }
      }
    }

    // runShared up to its first await.
    method BeginShared() returns (i: nat)
      modifies this
      ensures View() == Next(false, old(View()), CallShared) && i == |old(tasks)|
    {
      i := |tasks|;
      tasks := tasks + [Task(Shared, Woken)];
      WaitUntil(i);
    }

    // runExclusive up to its first await.
    method BeginExclusive() returns (i: nat)
      modifies this
      ensures View() == Next(false, old(View()), CallExclusive) && i == |old(tasks)|
    {
      var previousExclusive := exclusiveQueue;
      i := |tasks|;
      tasks := tasks + [Task(Exclusive(previousExclusive), Queued)];
      exclusiveQueue := Some(i);
    }

    // The previous exclusive task has released the queue.
    method TakeTurn(i: nat)
      requires Ready(View(), i)
      modifies this
      ensures View() == Next(false, old(View()), Turn(i))
    {
      exclusiveOperationRequested := true;
      NotifyWaiters();
      WaitUntil(i);
    }

    // The turn of the event loop after a test that passed.
    method Begin(i: nat)
      requires i < |tasks| && tasks[i].phase.Passed?
      modifies this
      ensures View() == Next(false, old(View()), Enter(i))
    {
      if tasks[i].kind.Shared? {
        activeSharedOperations := activeSharedOperations + 1;
      } else {
        exclusiveOperationInProgress := true;
      }
      tasks := tasks[i := tasks[i].(phase := Working)];
    }

    // The finally blocks.
    method End(i: nat)
      requires i < |tasks| && tasks[i].phase.Working?
      modifies this
      ensures View() == Next(false, old(View()), Finish(i))
    {
      if tasks[i].kind.Shared? {
        activeSharedOperations := activeSharedOperations - 1;
      } else {
        exclusiveOperationInProgress := false;
        exclusiveOperationRequested := false;
      }
      tasks := tasks[i := tasks[i].(phase := Finished)];
      NotifyWaiters();
    }
  }
}
