// Any number of transfer projectors work on one transfer's row at once. Each reads the
// row and upserts it in two separate steps, while events are delivered in any order and
// any number of times, projectors die in between, and the row is reset.
module TransferInterleaving {
  import opened Wrappers
  import opened TransferProjectors
  import T = Transfers

  // Where a projector is with the event of a version.
  datatype Phase = Reading(v: nat) | Upserting(v: nat, row: Row)

  // A projector without an event is not in busy.
  datatype State = State(row: Option<Row>, busy: map<nat, Phase>)

  const EMPTY := State(None, map[])

  datatype Action = Deliver(w: nat, v: nat) | Run(w: nat) | Crash(w: nat) | Reset

  // The stored stream and the time of each of its events.
  datatype Stream = Stream(es: seq<T.Event>, times: seq<int>) {
    predicate Valid() { Begun(es) && |times| == |es| && NonDecreasing(times) }
  }

  function Step(x: Stream, s: State, w: nat): State
    requires x.Valid() && w in s.busy
  {
    match s.busy[w]
    case Reading(v) =>
      if !(0 < v <= |x.es|) then s
      else
        var candidate := Candidate(ShownIn(s.row), x.es[v-1]);
        s.(busy := if candidate.None? then s.busy - {w}
            else s.busy[w := Upserting(v, Row(candidate.value, x.times[v-1]))])
    case Upserting(v, row) => State(Some(Upserted(s.row, row)), s.busy - {w})
  }

  function Next(x: Stream, s: State, a: Action): State
    requires x.Valid()
  {
    match a
    case Deliver(w, v) => if w in s.busy || !(0 < v <= |x.es|) then s else s.(busy := s.busy[w := Reading(v)])
    case Run(w) => if w in s.busy then Step(x, s, w) else s
    case Crash(w) => s.(busy := s.busy - {w})
    case Reset => s.(row := None)
  }

  function ExecFrom(x: Stream, s: State, schedule: seq<Action>): State
    requires x.Valid()
  {
    if schedule == [] then s else Next(x, ExecFrom(x, s, schedule[..|schedule|-1]), schedule[|schedule|-1])
  }

  function Exec(x: Stream, schedule: seq<Action>): State
    requires x.Valid()
  {
    ExecFrom(x, EMPTY, schedule)
  }

  // ---- What one read is good for ----

  // The two rows show the same wherever the event writes nothing.
  predicate AgreeOutside(x: Shown, y: Shown, e: T.Event) {
    var d := DeltaOf(e);
    && (d.info.None? ==> x.info == y.info)
    && (d.status.None? ==> x.status == y.status)
    && (d.failure.None? ==> x.failure == y.failure)
    && (d.debit.None? ==> x.debit == y.debit)
    && (d.credit.None? ==> x.credit == y.credit)
    && (d.compensation.None? ==> x.compensation == y.compensation)
  }

  // What is read before the event of version v: anything for the first event,
  // otherwise a row that differs from the aggregate's at most in what v writes.
  predicate ReadsWell(x: Stream, row: Option<Row>, v: nat)
    requires x.Valid() && 0 < v <= |x.es|
  {
    v == 1 || (row.Some? && AgreeOutside(row.value.shown, RowAt(x.es, x.times, v - 1).shown, x.es[v-1]))
  }

  // The candidate for version v is the aggregate's row at v if and only if the row read
  // differs from the one at v - 1 at most in what v writes.
  lemma CandidateIsFoldIff(x: Stream, row: Option<Row>, v: nat)
    requires x.Valid() && 0 < v <= |x.es|
    ensures Candidate(ShownIn(row), x.es[v-1]) == Some(RowAt(x.es, x.times, v).shown) <==> ReadsWell(x, row, v)
  {
    CandidateFollows(x.es, x.times, v - 1);
  }

  // ---- What keeps the row at a version of the aggregate ----

  // The row shows the aggregate at one of its versions, with that version's time.
  ghost predicate ShowsFold(x: Stream, row: Option<Row>)
    requires x.Valid()
  {
    row.Some? ==> exists n :: 0 < n <= |x.es| && row.value == RowAt(x.es, x.times, n)
  }

  // The stored row is newer, so an upsert with this time is discarded.
  predicate Newer(row: Option<Row>, at: int) { row.Some? && row.value.updatedAt > at }

  // The projector is at an event, and its upsert has the event's time.
  predicate Timed(x: Stream, p: Phase)
    requires x.Valid()
  {
    0 < p.v <= |x.es| && (p.Upserting? ==> p.row.updatedAt == x.times[p.v-1])
  }

  predicate AllTimed(x: Stream, s: State)
    requires x.Valid()
  {
    forall w :: w in s.busy ==> Timed(x, s.busy[w])
  }

  // The pending upsert is the aggregate's row.
  predicate IsFold(x: Stream, p: Phase)
    requires x.Valid() && 0 < p.v <= |x.es|
  {
    p.Upserting? ==> p.row == RowAt(x.es, x.times, p.v)
  }

  // The row is a version of the aggregate, and so is every pending upsert that would
  // not be discarded.
  ghost predicate Sound(x: Stream, s: State)
    requires x.Valid()
  {
    && ShowsFold(x, s.row) && AllTimed(x, s)
    && forall w :: w in s.busy && s.busy[w].Upserting? ==>
         IsFold(x, s.busy[w]) || Newer(s.row, s.busy[w].row.updatedAt)
  }

  // What the step must meet: a read is good, or of a row newer than the event; a reset
  // finds only upserts of the aggregate's rows pending.
  predicate GoodStep(x: Stream, s: State, a: Action)
    requires x.Valid()
  {
    match a
    case Run(w) =>
      w in s.busy && s.busy[w].Reading? && 0 < s.busy[w].v <= |x.es|
      && Candidate(ShownIn(s.row), x.es[s.busy[w].v-1]).Some?
      ==> ReadsWell(x, s.row, s.busy[w].v) || Newer(s.row, x.times[s.busy[w].v-1])
    case Reset => forall w :: w in s.busy && 0 < s.busy[w].v <= |x.es| ==> IsFold(x, s.busy[w])
    case _ => true
  }

  lemma NextTimed(x: Stream, s: State, a: Action)
    requires x.Valid() && AllTimed(x, s)
    ensures AllTimed(x, Next(x, s, a))
  {
  }

  lemma ReadSoundIff(x: Stream, s: State, w: nat)
    requires x.Valid() && Sound(x, s) && w in s.busy && s.busy[w].Reading?
    ensures Sound(x, Next(x, s, Run(w))) <==> GoodStep(x, s, Run(w))
  {
    var s', v := Next(x, s, Run(w)), s.busy[w].v;
    NextTimed(x, s, Run(w));
    assert Timed(x, s.busy[w]);
    CandidateIsFoldIff(x, s.row, v);
    if Candidate(ShownIn(s.row), x.es[v-1]).Some? {
      assert s'.busy[w].Upserting? && forall u :: u in s'.busy && u != w ==> u in s.busy && s'.busy[u] == s.busy[u];
    }
  }

  lemma UpsertIsSound(x: Stream, s: State, w: nat)
    requires x.Valid() && Sound(x, s) && w in s.busy && s.busy[w].Upserting?
    ensures Sound(x, Next(x, s, Run(w)))
  {
    assert Timed(x, s.busy[w]);
    NextTimed(x, s, Run(w));
  }

  // A step keeps the row and all pending upserts sound if and only if it is good.
  lemma SoundIff(x: Stream, s: State, a: Action)
    requires x.Valid() && Sound(x, s)
    ensures Sound(x, Next(x, s, a)) <==> GoodStep(x, s, a)
  {
    NextTimed(x, s, a);
    match a
    case Run(w) =>
      if w in s.busy {
        if s.busy[w].Reading? {
          ReadSoundIff(x, s, w);
        } else {
          UpsertIsSound(x, s, w);
        }
      }
    case Reset => assert forall w :: w in s.busy ==> Timed(x, s.busy[w]);
    case _ =>
  }

  predicate GoodSteps(x: Stream, schedule: seq<Action>)
    requires x.Valid()
  {
    schedule == [] || (GoodSteps(x, schedule[..|schedule|-1])
                       && GoodStep(x, Exec(x, schedule[..|schedule|-1]), schedule[|schedule|-1]))
  }

  // In every state of the schedule.
  ghost predicate AlwaysSound(x: Stream, schedule: seq<Action>)
    requires x.Valid()
  {
    Sound(x, Exec(x, schedule)) && (schedule != [] ==> AlwaysSound(x, schedule[..|schedule|-1]))
  }

  // Under any interleaving, order of delivery, repetition, crash and reset, the row and
  // the pending upserts are sound in every state if and only if every step is good.
  lemma {:induction false} AlwaysSoundIff(x: Stream, schedule: seq<Action>)
    requires x.Valid()
    ensures AlwaysSound(x, schedule) <==> GoodSteps(x, schedule)
    decreases |schedule|
  {
    if schedule != [] {
      var before := schedule[..|schedule|-1];
      AlwaysSoundIff(x, before);
      if GoodSteps(x, before) {
        SoundIff(x, Exec(x, before), schedule[|schedule|-1]);
      }
    }
  }

  // Times tell the versions apart.
  predicate Increasing(times: seq<int>) { forall i, j :: 0 <= i < j < |times| ==> times[i] < times[j] }

  // A row with the time of version v shows the aggregate only if it is its row at v.
  lemma OneVersion(x: Stream, row: Row, v: nat)
    requires x.Valid() && Increasing(x.times) && 0 < v <= |x.es| && row.updatedAt == x.times[v-1]
    ensures ShowsFold(x, Some(row)) <==> row == RowAt(x.es, x.times, v)
  {
    assert forall n :: 0 < n <= |x.es| && row == RowAt(x.es, x.times, n) ==> n == v;
  }

  // Soundness is what it takes: a state is sound exactly when the row shows the
  // aggregate and goes on to show it whichever pending upsert comes next.
  lemma SoundMeans(x: Stream, s: State)
    requires x.Valid() && Increasing(x.times) && AllTimed(x, s) && ShowsFold(x, s.row)
    ensures Sound(x, s) <==>
              forall w :: w in s.busy && s.busy[w].Upserting? ==> ShowsFold(x, Next(x, s, Run(w)).row)
  {
    forall w | w in s.busy && s.busy[w].Upserting?
      ensures ShowsFold(x, Next(x, s, Run(w)).row) <==>
                IsFold(x, s.busy[w]) || Newer(s.row, s.busy[w].row.updatedAt)
    {
      assert Timed(x, s.busy[w]);
      OneVersion(x, s.busy[w].row, s.busy[w].v);
    }
  }

  // One bad read is enough: the projector's next two steps leave a row that shows the
  // aggregate at a version if and only if the read was good or of a newer row.
  lemma BadReadShowsIff(x: Stream, s: State, w: nat)
    requires x.Valid() && Increasing(x.times) && ShowsFold(x, s.row) && w in s.busy && s.busy[w].Reading?
    requires 0 < s.busy[w].v <= |x.es| && Candidate(ShownIn(s.row), x.es[s.busy[w].v-1]).Some?
    ensures ShowsFold(x, Next(x, Next(x, s, Run(w)), Run(w)).row) <==>
              ReadsWell(x, s.row, s.busy[w].v) || Newer(s.row, x.times[s.busy[w].v-1])
  {
    var v := s.busy[w].v;
    var row := Row(Candidate(ShownIn(s.row), x.es[v-1]).value, x.times[v-1]);
    CandidateIsFoldIff(x, s.row, v);
    OneVersion(x, row, v);
    assert Next(x, Next(x, s, Run(w)), Run(w)).row == Some(Upserted(s.row, row));
  }

  // ---- A condition on the schedule alone ----

  // An event is delivered, and the row reset, only while no projector is busy; and the
  // row has already been taken to the event before the delivered one.
  predicate InTurn(x: Stream, s: State, a: Action)
    requires x.Valid()
  {
    match a
    case Deliver(w, v) =>
      w !in s.busy && 0 < v <= |x.es| ==>
        s.busy == map[] && (v == 1 || (s.row.Some? && x.times[v-2] <= s.row.value.updatedAt))
    case Reset => s.busy == map[]
    case _ => true
  }

  predicate AllInTurn(x: Stream, schedule: seq<Action>)
    requires x.Valid()
  {
    schedule == [] || (AllInTurn(x, schedule[..|schedule|-1])
                       && InTurn(x, Exec(x, schedule[..|schedule|-1]), schedule[|schedule|-1]))
  }

  // One projector at a time, and what it has been given is not ahead of the row.
  ghost predicate Serial(x: Stream, s: State)
    requires x.Valid()
  {
    && Sound(x, s) && (forall w, u :: w in s.busy && u in s.busy ==> w == u)
    && forall w :: w in s.busy && s.busy[w].Reading? && s.busy[w].v > 1 ==>
         s.row.Some? && x.times[s.busy[w].v-2] <= s.row.value.updatedAt
  }

  // An event writes its own fields only.
  lemma WritesItsFields(x: Stream, v: nat)
    requires x.Valid() && 1 < v <= |x.es|
    ensures AgreeOutside(RowAt(x.es, x.times, v).shown, RowAt(x.es, x.times, v - 1).shown, x.es[v-1])
  {
    CandidateFollows(x.es, x.times, v - 1);
  }

  // A row at the event before, or at a later version, is read well or newer.
  lemma CaughtUpReadsWell(x: Stream, row: Row, v: nat)
    requires x.Valid() && Increasing(x.times) && 1 < v <= |x.es|
    requires ShowsFold(x, Some(row)) && x.times[v-2] <= row.updatedAt
    ensures ReadsWell(x, Some(row), v) || Newer(Some(row), x.times[v-1])
  {
    var n :| 0 < n <= |x.es| && row == RowAt(x.es, x.times, n);
    assert n >= v - 1;
    if n == v {
      WritesItsFields(x, v);
    }
  }

  lemma InTurnIsGood(x: Stream, s: State, a: Action)
    requires x.Valid() && Increasing(x.times) && Serial(x, s) && InTurn(x, s, a)
    ensures GoodStep(x, s, a) && Serial(x, Next(x, s, a))
  {
    if a.Run? && a.w in s.busy && s.busy[a.w].Reading? {
      assert Timed(x, s.busy[a.w]);
      if s.busy[a.w].v > 1 {
        CaughtUpReadsWell(x, s.row.value, s.busy[a.w].v);
      }
    }
    SoundIff(x, s, a);
  }

  // With increasing times, and as long as every delivery and reset comes in turn, every
  // step is good and the row shows the aggregate at one of its versions.
  lemma {:induction false} InTurnShowsTheFold(x: Stream, schedule: seq<Action>)
    requires x.Valid() && Increasing(x.times) && AllInTurn(x, schedule)
    ensures GoodSteps(x, schedule) && Serial(x, Exec(x, schedule)) && ShowsFold(x, Exec(x, schedule).row)
    decreases |schedule|
  {
    if schedule != [] {
      var before := schedule[..|schedule|-1];
      InTurnShowsTheFold(x, before);
      InTurnIsGood(x, Exec(x, before), schedule[|schedule|-1]);
    }
  }

  // ---- Undisturbed turns are the projection of TransferProjectors ----

  function Turn(w: nat, v: nat): seq<Action> { [Deliver(w, v), Run(w), Run(w)] }

  lemma OneMore(x: Stream, s: State, schedule: seq<Action>, a: Action)
    requires x.Valid()
    ensures ExecFrom(x, s, schedule + [a]) == Next(x, ExecFrom(x, s, schedule), a)
  {
    assert (schedule + [a])[..|schedule|] == schedule;
  }

  lemma ThreeMore(x: Stream, s: State, schedule: seq<Action>, a: Action, b: Action, c: Action)
    requires x.Valid()
    ensures ExecFrom(x, s, schedule + [a, b, c]) == Next(x, Next(x, Next(x, ExecFrom(x, s, schedule), a), b), c)
  {
    OneMore(x, s, schedule, a);
    OneMore(x, s, schedule + [a], b);
    OneMore(x, s, schedule + [a] + [b], c);
    assert schedule + [a, b, c] == schedule + [a] + [b] + [c];
  }

  // Delivering an event to one projector that nothing disturbs projects it.
  lemma TurnProjects(x: Stream, s: State, w: nat, v: nat)
    requires x.Valid() && s.busy == map[] && 0 < v <= |x.es|
    ensures var r := Projected(s.row, x.es[v-1], x.times[v-1]);
            Next(x, Next(x, Next(x, s, Deliver(w, v)), Run(w)), Run(w)) ==
              State(if r.Success? then r.value else s.row, map[])
  {
    var s1 := Next(x, s, Deliver(w, v));
    assert s1 == State(s.row, map[w := Reading(v)]);
    var candidate := Candidate(ShownIn(s.row), x.es[v-1]);
    if candidate.Some? {
      assert Next(x, s1, Run(w)) == State(s.row, map[w := Upserting(v, Row(candidate.value, x.times[v-1]))]);
    } else {
      assert Next(x, s1, Run(w)) == State(s.row, map[]);
    }
  }

  // The events a + 1 to i in turn.
  function Turns(w: nat, a: nat, i: nat): seq<Action>
    requires a <= i
    decreases i
  {
    if i == a then [] else Turns(w, a, i - 1) + Turn(w, i)
  }

  lemma {:induction false} TurnsReplay(x: Stream, row: Option<Row>, w: nat, a: nat, i: nat)
    requires x.Valid() && a <= i <= |x.es| && Replayed(row, x.es[a..i], x.times[a..i]).Success?
    ensures ExecFrom(x, State(row, map[]), Turns(w, a, i)) ==
              State(Replayed(row, x.es[a..i], x.times[a..i]).value, map[])
    decreases i
  {
    if i == a {
      assert x.es[a..i] == [];
    } else {
      SliceSnoc(row, x.es, x.times, a, i);
      TurnsReplay(x, row, w, a, i - 1);
      var s := ExecFrom(x, State(row, map[]), Turns(w, a, i - 1));
      ThreeMore(x, State(row, map[]), Turns(w, a, i - 1), Deliver(w, i), Run(w), Run(w));
      TurnProjects(x, s, w, i);
    }
  }

  // So redelivering a stream from any position a already projected, one event after the
  // other, ends at the full row with the read and the upsert as separate steps, too.
  lemma RedeliveryInTurns(x: Stream, id: string, w: nat, a: nat, p: nat)
    requires x.Valid() && id != "" && T.Accepted(id, x.es) && a <= p <= |x.es| && 0 < p
    ensures ExecFrom(x, State(Some(RowAt(x.es, x.times, p)), map[]), Turns(w, a, |x.es|)) ==
              State(Some(RowAt(x.es, x.times, |x.es|)), map[])
  {
    RedeliveryCatchesUp(id, x.es, x.times, a, p);
    assert x.es[a..] == x.es[a..|x.es|] && x.times[a..] == x.times[a..|x.es|];
    TurnsReplay(x, Some(RowAt(x.es, x.times, p)), w, a, |x.es|);
  }

  // ---- Two projectors that overlap ----

  // Initiated, debit started, debited.
  function DebitedStream(info: T.Info, tx: string): Stream {
    Stream([T.TransferInitiated(info), T.TransferStarted(T.Debit, tx, 1), T.TransferDebited(Some(tx))], [1, 2, 3])
  }

  // The first event is projected; then two projectors read the row for the events 2
  // and 3, and upsert in this order.
  const OVERLAP: seq<Action> :=
    [] + [Deliver(0, 1)] + [Run(0)] + [Run(0)] + [Deliver(0, 2)] + [Deliver(1, 3)]
    + [Run(0)] + [Run(1)] + [Run(0)] + [Run(1)]

  lemma Then(x: Stream, schedule: seq<Action>, a: Action, s: State, s': State)
    requires x.Valid() && Exec(x, schedule) == s && Next(x, s, a) == s'
    ensures Exec(x, schedule + [a]) == s'
  {
    OneMore(x, EMPTY, schedule, a);
  }

  // Each event is delivered once and in order, but the second read comes before the
  // first upsert: the row ends debited and without its debit transaction.
  lemma OverlapLosesField(info: T.Info, tx: string)
    ensures var x := DebitedStream(info, tx);
            && x.Valid()
            && Exec(x, OVERLAP) ==
                 State(Some(Row(Shown(info, T.Debited, None, T.UNSTARTED, T.UNSTARTED, T.UNSTARTED), 3)), map[])
            && RowAt(x.es, x.times, 3).shown.debit == T.LegState(Some(tx), 1)
  {
    var x := DebitedStream(info, tx);
    var first := Row(Shown(info, T.Initiated, None, T.UNSTARTED, T.UNSTARTED, T.UNSTARTED), 1);
    var second := Row(first.shown.(status := T.DebitInProgress, debit := T.LegState(Some(tx), 1)), 2);
    var third := Row(first.shown.(status := T.Debited), 3);
    ThreeRows(info, tx);
    OpenFirst(x, info, tx);
    var h := [] + [Deliver(0, 1)] + [Run(0)] + [Run(0)];
    var s := State(Some(first), map[]);
    Then(x, h, Deliver(0, 2), s, s.(busy := map[0 := Reading(2)]));
    h := h + [Deliver(0, 2)];
    Then(x, h, Deliver(1, 3), s.(busy := map[0 := Reading(2)]), s.(busy := map[0 := Reading(2), 1 := Reading(3)]));
    h := h + [Deliver(1, 3)];
    var s1 := s.(busy := map[0 := Upserting(2, second), 1 := Reading(3)]);
    Then(x, h, Run(0), s.(busy := map[0 := Reading(2), 1 := Reading(3)]), s1);
    h := h + [Run(0)];
    var s2 := s.(busy := map[0 := Upserting(2, second), 1 := Upserting(3, third)]);
    Then(x, h, Run(1), s1, s2);
    h := h + [Run(1)];
    var s3 := State(Some(second), map[1 := Upserting(3, third)]);
    Then(x, h, Run(0), s2, s3);
    Then(x, h + [Run(0)], Run(1), s3, State(Some(third), map[]));
  }

  lemma ThreeRows(info: T.Info, tx: string)
    ensures var x := DebitedStream(info, tx);
            x.Valid() && RowAt(x.es, x.times, 3).shown.debit == T.LegState(Some(tx), 1)
  {
    var x := DebitedStream(info, tx);
    CandidateFollows(x.es, x.times, 0);
    CandidateFollows(x.es, x.times, 1);
    CandidateFollows(x.es, x.times, 2);
  }

  lemma OpenFirst(x: Stream, info: T.Info, tx: string)
    requires x == DebitedStream(info, tx) && x.Valid()
    ensures Exec(x, [] + [Deliver(0, 1)] + [Run(0)] + [Run(0)]) ==
              State(Some(Row(Shown(info, T.Initiated, None, T.UNSTARTED, T.UNSTARTED, T.UNSTARTED), 1)), map[])
  {
    var first := Row(Shown(info, T.Initiated, None, T.UNSTARTED, T.UNSTARTED, T.UNSTARTED), 1);
    Then(x, [], Deliver(0, 1), EMPTY, State(None, map[0 := Reading(1)]));
    Then(x, [] + [Deliver(0, 1)], Run(0), State(None, map[0 := Reading(1)]),
        State(None, map[0 := Upserting(1, first)]));
    Then(x, [] + [Deliver(0, 1)] + [Run(0)], Run(0), State(None, map[0 := Upserting(1, first)]),
        State(Some(first), map[]));
  }
}
