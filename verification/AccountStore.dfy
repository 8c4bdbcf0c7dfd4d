// One account stream written by any number of instances at once: reading the
// snapshot, reading the tail, appending and saving a snapshot are separate steps,
// and a call can die between any two of them.
module AccountStore {
  import opened Wrappers
  import opened AccountAggregates
  import opened AccountRepositories
  import A = Accounts

  // Where a call of executeWithRetry is.
  datatype Phase =
    | ReadSnapshot(attempt: nat)
    | ReadTail(attempt: nat, snapshot: Option<Snapshot>)
    | Append(attempt: nat, loaded: A.State)
    | Appended(at: nat, state: A.State)
    | CheckSnapshot(at: nat, state: A.State)      // in memory, save reads the latest ...
    | WriteSnapshot(at: nat, state: A.State)      // ... and then sets its own; Postgres inserts
    | Acknowledged(at: nat)
    | Refused(why: A.Error, on: nat)
    | Conflicted
    | Gone

  datatype Call = Call(cmd: A.Command, phase: Phase)

  // The in-memory store keeps the snapshot it was given last. Postgres keeps them all,
  // ignores one whose version it has, and answers with the highest version.
  datatype Kind = InMemory | Postgres

  // snapshot is the one getLatest answers with; authors[v] is the call that appended the event at version v + 1.
  datatype State = State(kind: Kind, stream: seq<A.Event>, snapshot: Option<Snapshot>, calls: map<nat, Call>,
      authors: seq<nat>)

  function Empty(kind: Kind): State { State(kind, [], None, map[], []) }

  function Restore(snapshot: Option<Snapshot>): A.State {
    if snapshot.Some? then Restored(snapshot.value.state, snapshot.value.version) else A.BLANK
  }

  // readStream: the events after a version.
  function After(stream: seq<A.Event>, version: nat): seq<A.Event> {
    if version <= |stream| then stream[version..] else []
  }

  // What getLatest answers with after a snapshot has been written.
  function Kept(kind: Kind, latest: Option<Snapshot>, written: Snapshot): Option<Snapshot> {
    if kind.Postgres? && latest.Some? && latest.value.version >= written.version then latest else Some(written)
  }

  function Taken(at: nat, st: A.State): Snapshot {
    Snapshot(at, SnapshotState(st.accountId, st.ownerId, st.currency, st.status, st.balance))
  }

  function Go(s: State, c: nat, phase: Phase): State
    requires c in s.calls
  {
    s.(calls := s.calls[c := s.calls[c].(phase := phase)])
  }

  // The event at this version is the first after a multiple of the interval.
  predicate Crosses(at: nat) { at > 0 && at / SNAPSHOT_INTERVAL > (at - 1) / SNAPSHOT_INTERVAL }

  function Step(s: State, c: nat): State
    requires c in s.calls
  {
    var cmd := s.calls[c].cmd;
    match s.calls[c].phase
    case ReadSnapshot(n) => Go(s, c, ReadTail(n, s.snapshot))
    case ReadTail(n, snapshot) =>
      var loaded := A.Replay(Restore(snapshot), After(s.stream, BaseOf(snapshot)));
      if A.Decide(loaded, cmd).Failure? then Go(s, c, Refused(A.Decide(loaded, cmd).error, loaded.version))
      else Go(s, c, Append(n, loaded))
    case Append(n, loaded) =>
      if |s.stream| != loaded.version then
        Go(s, c, if n < MAX_WRITE_ATTEMPTS then ReadSnapshot(n + 1) else Conflicted)
      else if A.Decide(loaded, cmd).Success? then
        var e := A.Decide(loaded, cmd).value;
        Go(s.(stream := s.stream + [e], authors := s.authors + [c]), c, Appended(loaded.version + 1, A.When(loaded, e)))
      else s
    case Appended(at, st) =>
      Go(s, c, if !Crosses(at) then Acknowledged(at)
               else if s.kind.InMemory? then CheckSnapshot(at, st) else WriteSnapshot(at, st))
    case CheckSnapshot(at, st) =>
      Go(s, c, if s.snapshot.Some? && s.snapshot.value.version >= at then Acknowledged(at) else WriteSnapshot(at, st))
    case WriteSnapshot(at, st) =>
      Go(s.(snapshot := Kept(s.kind, s.snapshot, Taken(at, st))), c, Acknowledged(at))
    case _ => s
  }

  datatype Action = Begin(c: nat, cmd: A.Command) | Run(c: nat) | Die(c: nat)

  function Next(id: string, s: State, a: Action): State {
    match a
    case Begin(c, cmd) =>
      if c in s.calls || !A.AddressedTo(id, cmd) then s
      else s.(calls := s.calls[c := Call(cmd, ReadSnapshot(1))])
    case Run(c) => if c in s.calls then Step(s, c) else s
    case Die(c) => if c in s.calls then Go(s, c, Gone) else s
  }

  function Exec(kind: Kind, id: string, schedule: seq<Action>): State {
    if schedule == [] then Empty(kind)
    else Next(id, Exec(kind, id, schedule[..|schedule|-1]), schedule[|schedule|-1])
  }

  // ---- The invariant ----

  // st is what replaying the first `version` events gives.
  predicate IsPrefixFold(stream: seq<A.Event>, st: A.State) {
    st.version <= |stream| && st == A.Fold(stream[..st.version])
  }

  // The event at version `at` is call c's, decided on exactly the events before it.
  predicate Wrote(s: State, c: nat, cmd: A.Command, at: nat) {
    && 0 < at <= |s.stream| && at <= |s.authors| && s.authors[at-1] == c
    && A.Decide(A.Fold(s.stream[..at-1]), cmd) == Success(s.stream[at-1])
  }

  predicate CallOk(id: string, s: State, c: nat, call: Call) {
    && A.AddressedTo(id, call.cmd)
    && match call.phase
       case ReadSnapshot(_) => c !in s.authors
       case ReadTail(_, snapshot) => c !in s.authors && Faithful(s.stream, snapshot)
       case Append(_, loaded) =>
         c !in s.authors && IsPrefixFold(s.stream, loaded) && A.Decide(loaded, call.cmd).Success?
       case Appended(at, st) => Wrote(s, c, call.cmd, at) && IsPrefixFold(s.stream, st) && st.version == at
       case CheckSnapshot(at, st) => Wrote(s, c, call.cmd, at) && IsPrefixFold(s.stream, st) && st.version == at
       case WriteSnapshot(at, st) => Wrote(s, c, call.cmd, at) && IsPrefixFold(s.stream, st) && st.version == at
       case Acknowledged(at) => Wrote(s, c, call.cmd, at)
       case Refused(why, on) =>
         c !in s.authors && on <= |s.stream| && A.Decide(A.Fold(s.stream[..on]), call.cmd) == Failure(why)
       case Conflicted => c !in s.authors
       case Gone => true
  }

  predicate Distinct(xs: seq<nat>) { forall i, j :: 0 <= i < j < |xs| ==> xs[i] != xs[j] }

  ghost predicate Inv(id: string, s: State) {
    && A.Accepted(id, s.stream)
    && |s.authors| == |s.stream| && Distinct(s.authors)
    && (forall c :: c in s.authors ==> c in s.calls)
    && Faithful(s.stream, s.snapshot)
    && (forall c {:trigger CallOk(id, s, c, s.calls[c])} :: c in s.calls ==> CallOk(id, s, c, s.calls[c]))
  }

  // What was true of a prefix of the stream stays true when an event is appended by
  // some other call.
  lemma CallSurvives(id: string, s: State, e: A.Event, author: nat, c: nat, call: Call)
    requires CallOk(id, s, c, call) && c != author && |s.authors| == |s.stream|
    ensures CallOk(id, s.(stream := s.stream + [e], authors := s.authors + [author]), c, call)
  {
    var stream := s.stream + [e];
    assert forall k :: 0 <= k <= |s.stream| ==> stream[..k] == s.stream[..k];
    match call.phase
    case ReadTail(_, snapshot) => FaithfulGrows(s.stream, [e], snapshot);
    case _ =>
  }

  lemma AppendKeeps(id: string, s: State, c: nat)
    requires Inv(id, s) && c in s.calls && s.calls[c].phase.Append? && |s.stream| == s.calls[c].phase.loaded.version
    ensures Inv(id, Step(s, c))
  {
    var call := s.calls[c];
    assert CallOk(id, s, c, call);
    assert s.stream[..|s.stream|] == s.stream;
    var e := A.Decide(A.Fold(s.stream), call.cmd).value;
    assert A.Raised(id, A.Fold(s.stream), e);
    A.AcceptedSnoc(id, s.stream, e);
    FaithfulGrows(s.stream, [e], s.snapshot);
    AppendedFits(id, s, c, e);
    assert Step(s, c) == Extended(s, c, e);
    OthersSurvive(id, s, c, e);
  }

  // What the state is when call c has appended e.
  function Extended(s: State, c: nat, e: A.Event): State
    requires c in s.calls && s.calls[c].phase.Append?
  {
    Go(s.(stream := s.stream + [e], authors := s.authors + [c]), c,
        Appended(|s.stream| + 1, A.When(s.calls[c].phase.loaded, e)))
  }

  lemma OthersSurvive(id: string, s: State, c: nat, e: A.Event)
    requires c in s.calls && s.calls[c].phase.Append? && |s.authors| == |s.stream|
    requires forall d :: d in s.calls ==> CallOk(id, s, d, s.calls[d])
    ensures forall d :: d in s.calls && d != c ==> CallOk(id, Extended(s, c, e), d, s.calls[d])
  {
    forall d | d in s.calls && d != c ensures CallOk(id, Extended(s, c, e), d, s.calls[d]) {
      CallSurvives(id, s, e, c, d, s.calls[d]);
    }
  }

  // The call that appended stands on its own event.
  lemma AppendedFits(id: string, s: State, c: nat, e: A.Event)
    requires c in s.calls && A.AddressedTo(id, s.calls[c].cmd) && |s.authors| == |s.stream|
    requires A.Decide(A.Fold(s.stream), s.calls[c].cmd) == Success(e)
    ensures var at := |s.stream| + 1;
            var call := Call(s.calls[c].cmd, Appended(at, A.When(A.Fold(s.stream), e)));
            CallOk(id, s.(stream := s.stream + [e], authors := s.authors + [c]), c, call)
  {
    A.FoldSnoc(s.stream, e);
    var stream := s.stream + [e];
    assert stream[..|s.stream|] == s.stream && stream[..|stream|] == stream;
  }

  // A call that moves on without appending.
  lemma GoKeeps(id: string, s: State, c: nat, phase: Phase)
    requires Inv(id, s) && c in s.calls && CallOk(id, s, c, s.calls[c].(phase := phase))
    ensures Inv(id, Go(s, c, phase))
  {
    var s' := Go(s, c, phase);
    forall d | d in s'.calls ensures CallOk(id, s', d, s'.calls[d]) {
      assert CallOk(id, s, d, s'.calls[d]);
    }
  }

  lemma ReadTailKeeps(id: string, s: State, c: nat)
    requires Inv(id, s) && c in s.calls && s.calls[c].phase.ReadTail?
    ensures Inv(id, Step(s, c))
  {
    var call := s.calls[c];
    assert CallOk(id, s, c, call);
    LoadSeesEverything(s, call.phase.snapshot);
    assert s.stream[..|s.stream|] == s.stream;
    var loaded := A.Fold(s.stream);
    GoKeeps(id, s, c, if A.Decide(loaded, call.cmd).Failure?
                      then Refused(A.Decide(loaded, call.cmd).error, loaded.version)
                      else Append(call.phase.attempt, loaded));
  }

  lemma SnapshotKeeps(id: string, s: State, c: nat)
    requires Inv(id, s) && c in s.calls && s.calls[c].phase.WriteSnapshot?
    ensures Inv(id, Step(s, c))
  {
    var call := s.calls[c];
    assert CallOk(id, s, c, call);
    var st := call.phase.state;
    var s1 := s.(snapshot := Kept(s.kind, s.snapshot, Taken(call.phase.at, st)));
    forall d | d in s1.calls ensures CallOk(id, s1, d, s1.calls[d]) {
      assert CallOk(id, s, d, s.calls[d]);
    }
    GoKeeps(id, s1, c, Acknowledged(call.phase.at));
  }

  // The steps that move a call on without writing anything.
  lemma QuietStepKeeps(id: string, s: State, c: nat)
    requires Inv(id, s) && c in s.calls
    requires var p := s.calls[c].phase;
             p.ReadSnapshot? || p.Appended? || p.CheckSnapshot? || (p.Append? && |s.stream| != p.loaded.version)
    ensures Inv(id, Step(s, c))
  {
    var call := s.calls[c];
    assert CallOk(id, s, c, call);
    var next := Step(s, c).calls[c].phase;
    assert Step(s, c) == Go(s, c, next);
    GoKeeps(id, s, c, next);
  }

  lemma StepKeeps(id: string, s: State, c: nat)
    requires Inv(id, s) && c in s.calls
    ensures Inv(id, Step(s, c))
  {
    match s.calls[c].phase
    case ReadTail(_, _) => ReadTailKeeps(id, s, c);
    case Append(_, loaded) =>
      if |s.stream| == loaded.version {
        AppendKeeps(id, s, c);
      } else {
        QuietStepKeeps(id, s, c);
      }
    case WriteSnapshot(_, _) => SnapshotKeeps(id, s, c);
    case ReadSnapshot(_) => QuietStepKeeps(id, s, c);
    case Appended(_, _) => QuietStepKeeps(id, s, c);
    case CheckSnapshot(_, _) => QuietStepKeeps(id, s, c);
    case _ =>
  }

  // However old the snapshot is that a call read, and whatever was appended before
  // it read the tail, what it loads is the fold of the stream at the tail read.
  lemma LoadSeesEverything(s: State, snapshot: Option<Snapshot>)
    requires Faithful(s.stream, snapshot)
    ensures A.Replay(Restore(snapshot), After(s.stream, BaseOf(snapshot))) == A.Fold(s.stream)
  {
    LoadIsFold(s.stream, snapshot);
    assert Bodies(Tail(s.stream, BaseOf(snapshot))) == After(s.stream, BaseOf(snapshot));
  }

  lemma NextKeeps(id: string, s: State, a: Action)
    requires Inv(id, s)
    ensures Inv(id, Next(id, s, a))
  {
    match a
    case Begin(c, cmd) =>
      if c !in s.calls && A.AddressedTo(id, cmd) {
        var s' := Next(id, s, a);
        forall d | d in s'.calls ensures CallOk(id, s', d, s'.calls[d]) {
          assert d != c ==> CallOk(id, s, d, s.calls[d]);
        }
      }
    case Run(c) =>
      if c in s.calls {
        StepKeeps(id, s, c);
      }
    case Die(c) =>
      if c in s.calls {
        assert CallOk(id, s, c, s.calls[c]);
        GoKeeps(id, s, c, Gone);
      }
  }

  lemma {:induction false} Reachable(kind: Kind, id: string, schedule: seq<Action>)
    ensures Inv(id, Exec(kind, id, schedule))
    decreases |schedule|
  {
    if schedule != [] {
      Reachable(kind, id, schedule[..|schedule|-1]);
      NextKeeps(id, Exec(kind, id, schedule[..|schedule|-1]), schedule[|schedule|-1]);
    }
  }

  // ---- What every schedule gives ----

  // Every event at version v was accepted by the guards on exactly the fold of the
  // events before it, and any stored snapshot is the fold at its version.
  lemma DecisionsAreValid(kind: Kind, id: string, schedule: seq<Action>, v: nat)
    ensures var s := Exec(kind, id, schedule);
            && (v < |s.stream| ==> A.Raised(id, A.Fold(s.stream[..v]), s.stream[v]))
            && Faithful(s.stream, s.snapshot)
  {
    Reachable(kind, id, schedule);
    var s := Exec(kind, id, schedule);
    if v < |s.stream| {
      A.AcceptedAt(id, s.stream, v);
    }
  }

  // An acknowledged call owns exactly one event, which its command raised on the
  // events before it; a refused or conflicted call owns none, and a refusal is what
  // the guards say on some state the stream has had.
  lemma CallsAreServedOnce(kind: Kind, id: string, schedule: seq<Action>, c: nat)
    requires c in Exec(kind, id, schedule).calls
    ensures var s := Exec(kind, id, schedule);
            var call := s.calls[c];
            && (forall i, j :: 0 <= i < |s.authors| && 0 <= j < |s.authors| ==>
                  s.authors[i] == c && s.authors[j] == c ==> i == j)
            && (call.phase.Acknowledged? ==> Wrote(s, c, call.cmd, call.phase.at))
            && (call.phase.Refused? || call.phase.Conflicted? ==> c !in s.authors)
            && (call.phase.Refused? ==>
                  && call.phase.on <= |s.stream|
                  && A.Decide(A.Fold(s.stream[..call.phase.on]), call.cmd) == Failure(call.phase.why))
  {
    Reachable(kind, id, schedule);
    var s := Exec(kind, id, schedule);
    assert CallOk(id, s, c, s.calls[c]);
    assert Distinct(s.authors);
  }

  // No update is lost: the stream only ever grows.
  lemma {:induction false} NothingIsLost(kind: Kind, id: string, schedule: seq<Action>, more: seq<Action>)
    ensures Exec(kind, id, schedule).stream <= Exec(kind, id, schedule + more).stream
    ensures Exec(kind, id, schedule).authors <= Exec(kind, id, schedule + more).authors
    decreases |more|
  {
    var all := schedule + more;
    if more == [] {
      assert all == schedule;
    } else {
      var n := |more| - 1;
      NothingIsLost(kind, id, schedule, more[..n]);
      assert all[..|all|-1] == schedule + more[..n] && all[|all|-1] == more[n];
    }
  }

  // ---- Whether the latest snapshot can go back ----

  // A step sets the latest snapshot back if and only if it is the write of a call that
  // is in memory, past its check, and behind the snapshot written meanwhile.
  lemma GoesBackIff(id: string, s: State, a: Action)
    ensures BaseOf(Next(id, s, a).snapshot) < BaseOf(s.snapshot) <==>
              && s.kind.InMemory? && a.Run? && a.c in s.calls && s.calls[a.c].phase.WriteSnapshot?
              && s.calls[a.c].phase.at < BaseOf(s.snapshot)
  {
  }

  lemma {:induction false} KindStays(kind: Kind, id: string, schedule: seq<Action>)
    ensures Exec(kind, id, schedule).kind == kind
    decreases |schedule|
  {
    if schedule != [] {
      KindStays(kind, id, schedule[..|schedule|-1]);
    }
  }

  // With Postgres the latest snapshot never goes back, whatever overlaps.
  lemma {:induction false} PostgresNeverGoesBack(id: string, schedule: seq<Action>, more: seq<Action>)
    ensures BaseOf(Exec(Postgres, id, schedule).snapshot) <= BaseOf(Exec(Postgres, id, schedule + more).snapshot)
    decreases |more|
  {
    var all := schedule + more;
    if more == [] {
      assert all == schedule;
    } else {
      var n := |more| - 1;
      PostgresNeverGoesBack(id, schedule, more[..n]);
      assert all[..|all|-1] == schedule + more[..n] && all[|all|-1] == more[n];
      KindStays(Postgres, id, schedule + more[..n]);
      GoesBackIff(id, Exec(Postgres, id, schedule + more[..n]), more[n]);
    }
  }

  // Between its check and its write.
  predicate Saving(s: State, c: nat) { c in s.calls && s.calls[c].phase.WriteSnapshot? }

  ghost predicate OneSaver(s: State) { forall a, b :: Saving(s, a) && Saving(s, b) ==> a == b }

  // In none of the states of the schedule are two calls between their check and their
  // write. withAccountLock gives this: it runs one call of an account at a time.
  ghost predicate NoOverlap(id: string, schedule: seq<Action>) {
    && OneSaver(Exec(InMemory, id, schedule))
    && (schedule != [] ==> NoOverlap(id, schedule[..|schedule|-1]))
  }

  // Every saver is ahead of the latest snapshot.
  ghost predicate SaversAhead(s: State) {
    forall c {:trigger Saving(s, c)} :: Saving(s, c) ==> BaseOf(s.snapshot) < s.calls[c].phase.at
  }

  lemma AheadStays(id: string, s: State, a: Action)
    requires s.kind.InMemory? && OneSaver(s) && SaversAhead(s) && Inv(id, s)
    ensures SaversAhead(Next(id, s, a)) && BaseOf(s.snapshot) <= BaseOf(Next(id, s, a).snapshot)
  {
    var s' := Next(id, s, a);
    forall c | Saving(s', c) ensures BaseOf(s'.snapshot) < s'.calls[c].phase.at {
      if Saving(s, c) {
        assert s'.calls[c] == s.calls[c];
        assert a.Run? && a.c != c ==> !Saving(s, a.c);
      } else {
        assert a == Run(c) && CallOk(id, s, c, s.calls[c]);
      }
    }
    assert a.Run? && Saving(s, a.c) ==> BaseOf(s.snapshot) < s.calls[a.c].phase.at;
  }

  lemma {:induction false} AheadReachable(id: string, schedule: seq<Action>)
    requires NoOverlap(id, schedule)
    ensures SaversAhead(Exec(InMemory, id, schedule))
    decreases |schedule|
  {
    if schedule != [] {
      var before := schedule[..|schedule|-1];
      AheadReachable(id, before);
      Reachable(InMemory, id, before);
      KindStays(InMemory, id, before);
      AheadStays(id, Exec(InMemory, id, before), schedule[|schedule|-1]);
    }
  }

  // In memory the latest snapshot never goes back while saves do not overlap.
  lemma {:induction false} InMemoryNeverGoesBack(id: string, schedule: seq<Action>, more: seq<Action>)
    requires NoOverlap(id, schedule + more)
    ensures BaseOf(Exec(InMemory, id, schedule).snapshot) <= BaseOf(Exec(InMemory, id, schedule + more).snapshot)
    decreases |more|
  {
    var all := schedule + more;
    if more == [] {
      assert all == schedule;
    } else {
      var n := |more| - 1;
      assert all[..|all|-1] == schedule + more[..n] && all[|all|-1] == more[n];
      InMemoryNeverGoesBack(id, schedule, more[..n]);
      Reachable(InMemory, id, schedule + more[..n]);
      KindStays(InMemory, id, schedule + more[..n]);
      AheadReachable(id, schedule + more[..n]);
      AheadStays(id, Exec(InMemory, id, schedule + more[..n]), more[n]);
    }
  }

  // Two calls never save the same version: each appended its own event.
  lemma SaversDiffer(id: string, s: State, a: nat, b: nat)
    requires Inv(id, s) && Saving(s, a) && Saving(s, b) && a != b
    ensures s.calls[a].phase.at != s.calls[b].phase.at
  {
    assert CallOk(id, s, a, s.calls[a]) && CallOk(id, s, b, s.calls[b]);
  }

  // The next steps of a and then of b set the latest snapshot back.
  predicate BackBy(s: State, a: nat, b: nat) {
    a in s.calls && b in s.calls && BaseOf(Step(Step(s, a), b).snapshot) < BaseOf(Step(s, a).snapshot)
  }

  lemma BackMeansOverlap(id: string, s: State, a: nat, b: nat)
    requires s.kind.InMemory? && Inv(id, s) && SaversAhead(s) && BackBy(s, a, b)
    ensures Saving(s, a) && Saving(s, b) && a != b
  {
    GoesBackIff(id, Step(s, a), Run(b));
    assert b != a ==> Step(s, a).calls[b] == s.calls[b];
    assert Saving(s, b) ==> BaseOf(s.snapshot) < s.calls[b].phase.at;
  }

  // Conversely, as soon as two saves overlap, the next steps of two calls set the
  // latest snapshot back; and if none overlap, none do.
  lemma OverlapGoesBackIff(id: string, s: State)
    requires s.kind.InMemory? && Inv(id, s) && SaversAhead(s)
    ensures (exists a, b :: BackBy(s, a, b)) <==> !OneSaver(s)
  {
    if a: nat, b: nat :| Saving(s, a) && Saving(s, b) && a != b {
      SaversDiffer(id, s, a, b);
      if s.calls[a].phase.at > s.calls[b].phase.at {
        assert BackBy(s, a, b);
      } else {
        assert BackBy(s, b, a);
      }
    }
    if a: nat, b: nat :| BackBy(s, a, b) {
      BackMeansOverlap(id, s, a, b);
    }
  }

  // ---- How often a call tries ----

  // The call's write finds another version than the one it loaded.
  predicate LateAt(s: State, a: Action, c: nat) {
    a == Run(c) && c in s.calls && s.calls[c].phase.Append? && |s.stream| != s.calls[c].phase.loaded.version
  }

  function LateWrites(kind: Kind, id: string, schedule: seq<Action>, c: nat): nat {
    if schedule == [] then 0
    else
      LateWrites(kind, id, schedule[..|schedule|-1], c)
        + (if LateAt(Exec(kind, id, schedule[..|schedule|-1]), schedule[|schedule|-1], c) then 1 else 0)
  }

  // In every schedule a call is in its first, second or third attempt after no, one or two
  // writes that came too late, and it reports a conflict exactly after three.
  lemma {:induction false} ConflictAfterThree(kind: Kind, id: string, schedule: seq<Action>, c: nat)
    ensures var s, late := Exec(kind, id, schedule), LateWrites(kind, id, schedule, c);
            if c !in s.calls then late == 0
            else match s.calls[c].phase
              case ReadSnapshot(n) => late < 3 && n == late + 1
              case ReadTail(n, _) => late < 3 && n == late + 1
              case Append(n, _) => late < 3 && n == late + 1
              case Conflicted => late == 3
              case Gone => late <= 3
              case _ => late < 3
    decreases |schedule|
  {
    if schedule != [] {
      ConflictAfterThree(kind, id, schedule[..|schedule|-1], c);
    }
  }

  // n steps of call c with nothing in between.
  function Alone(s: State, c: nat, n: nat): (r: State)
    requires c in s.calls
    ensures c in r.calls && r.calls.Keys == s.calls.Keys && r.calls[c].cmd == s.calls[c].cmd
    decreases n
  {
    if n == 0 then s else Alone(Step(s, c), c, n - 1)
  }

  // A call that nothing disturbs and that the guards accept appends its event, is
  // acknowledged within six steps, and leaves a snapshot at least as new as its event
  // exactly when the event crosses a boundary.
  lemma AloneIsServed(s: State, c: nat, e: A.Event, n: nat)
    requires Faithful(s.stream, s.snapshot) && c in s.calls && s.calls[c].phase == ReadSnapshot(1) && n >= 6
    requires A.Decide(A.Fold(s.stream), s.calls[c].cmd) == Success(e)
    ensures var at, s' := |s.stream| + 1, Alone(s, c, n);
            && s'.stream == s.stream + [e] && s'.calls[c].phase == Acknowledged(at)
            && (if at % 50 == 0
                then s'.snapshot.Some? && s'.snapshot.value.version >= at
                else s'.snapshot == s.snapshot)
  {
    AloneLoads(s, c, n);
    var s2 := Go(s, c, Append(1, A.Fold(s.stream)));
    assert Loaded(s, c) == s2;
    AloneAppends(s2, c, e, n - 2);
    ServedFromAppend(s2, c, e, n - 3);
  }

  lemma ServedFromAppend(s: State, c: nat, e: A.Event, n: nat)
    requires c in s.calls && s.calls[c].phase.Append? && n >= 3
    ensures var at, s' := |s.stream| + 1, Alone(Extended(s, c, e), c, n);
            && s'.stream == s.stream + [e] && s'.calls[c].phase == Acknowledged(at)
            && (if at % 50 == 0
                then s'.snapshot.Some? && s'.snapshot.value.version >= at
                else s'.snapshot == s.snapshot)
  {
    AloneFromAppend(Extended(s, c, e), c, n);
  }

  lemma AloneAppends(s: State, c: nat, e: A.Event, n: nat)
    requires c in s.calls && s.calls[c].phase.Append? && s.calls[c].phase.loaded.version == |s.stream| && n > 0
    requires A.Decide(s.calls[c].phase.loaded, s.calls[c].cmd) == Success(e)
    ensures Alone(s, c, n) == Alone(Extended(s, c, e), c, n - 1)
  {
    AloneStep(s, c, n, Extended(s, c, e));
  }

  // ... and one that the guards refuse says why within two and changes nothing.
  lemma AloneIsRefused(s: State, c: nat, n: nat)
    requires Faithful(s.stream, s.snapshot) && c in s.calls && s.calls[c].phase == ReadSnapshot(1) && n >= 2
    requires A.Decide(A.Fold(s.stream), s.calls[c].cmd).Failure?
    ensures var why := A.Decide(A.Fold(s.stream), s.calls[c].cmd).error;
            Alone(s, c, n) == Go(s, c, Refused(why, |s.stream|))
  {
    AloneLoads(s, c, n);
    Settled(Loaded(s, c), c, n - 2);
  }

  // Where a first attempt stands after its two reads.
  function Loaded(s: State, c: nat): State
    requires c in s.calls
  {
    var decision := A.Decide(A.Fold(s.stream), s.calls[c].cmd);
    Go(s, c, if decision.Failure? then Refused(decision.error, |s.stream|) else Append(1, A.Fold(s.stream)))
  }

  lemma AloneLoads(s: State, c: nat, n: nat)
    requires Faithful(s.stream, s.snapshot) && c in s.calls && s.calls[c].phase == ReadSnapshot(1)
    requires n >= 2
    ensures Alone(s, c, n) == Alone(Loaded(s, c), c, n - 2)
  {
    LoadSeesEverything(s, s.snapshot);
    var s1 := Go(s, c, ReadTail(1, s.snapshot));
    AloneStep(s, c, n, s1);
    AloneStep(s1, c, n - 1, Loaded(s, c));
  }

  lemma AloneStep(s: State, c: nat, n: nat, next: State)
    requires c in s.calls && n > 0 && next == Step(s, c)
    ensures Alone(s, c, n) == Alone(next, c, n - 1)
  {
  }

  lemma AloneFromAppend(s: State, c: nat, n: nat)
    requires c in s.calls && s.calls[c].phase.Appended? && s.calls[c].phase.at > 0 && n >= 3
    ensures var at, s' := s.calls[c].phase.at, Alone(s, c, n);
            && s'.stream == s.stream && s'.calls[c].phase == Acknowledged(at)
            && (if at % 50 == 0
                then s'.snapshot.Some? && s'.snapshot.value.version >= at
                else s'.snapshot == s.snapshot)
  {
    var at, st := s.calls[c].phase.at, s.calls[c].phase.state;
    Boundary(at - 1);
    if at % 50 != 0 {
      AloneStep(s, c, n, Go(s, c, Acknowledged(at)));
      Settled(Go(s, c, Acknowledged(at)), c, n - 1);
    } else if s.kind.InMemory? {
      AloneStep(s, c, n, Go(s, c, CheckSnapshot(at, st)));
      FromCheck(Go(s, c, CheckSnapshot(at, st)), c, n - 1);
    } else {
      var s1 := Go(s, c, WriteSnapshot(at, st));
      AloneStep(s, c, n, s1);
      AloneStep(s1, c, n - 1, Step(s1, c));
      Settled(Step(s1, c), c, n - 2);
    }
  }

  lemma FromCheck(s: State, c: nat, n: nat)
    requires c in s.calls && s.calls[c].phase.CheckSnapshot? && n >= 2
    ensures var at, s' := s.calls[c].phase.at, Alone(s, c, n);
            && s'.stream == s.stream && s'.calls[c].phase == Acknowledged(at)
            && s'.snapshot.Some? && s'.snapshot.value.version >= at
  {
    var s1 := Step(s, c);
    AloneStep(s, c, n, s1);
    if s1.calls[c].phase.Acknowledged? {
      Settled(s1, c, n - 1);
    } else {
      AloneStep(s1, c, n - 1, Step(s1, c));
      Settled(Step(s1, c), c, n - 2);
    }
  }

  lemma Boundary(n: nat)
    ensures (n + 1) / SNAPSHOT_INTERVAL > n / SNAPSHOT_INTERVAL <==> (n + 1) % 50 == 0
  {
  }

  lemma {:induction false} Settled(s: State, c: nat, n: nat)
    requires c in s.calls && (s.calls[c].phase.Refused? || s.calls[c].phase.Acknowledged?)
    ensures Alone(s, c, n) == s
  {
    if n > 0 {
      AloneStep(s, c, n, s);
      Settled(s, c, n - 1);
    }
  }
}
