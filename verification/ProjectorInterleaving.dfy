// Any number of projectors work on one account at once. Each reads the summary,
// upserts it and appends a statement entry in three separate steps, while events
// are delivered in any order and any number of times, projectors die between two
// steps, and the account's rows are reset.
module ProjectorInterleaving {
  import opened Wrappers
  import opened AccountReadModel
  import opened AccountProjectors
  import A = Accounts

  // Where a projector is with the event of a version.
  datatype Phase = Fetching(v: nat) | Upserting(v: nat, row: Summary) | Appending(v: nat)

  // ids[k] is the event id of events[k]; a projector without an event is not in busy.
  datatype State = State(
    events: seq<A.Event>, ids: seq<string>,
    row: Option<Summary>, statement: seq<Entry>, busy: map<nat, Phase>)

  const EMPTY := State([], [], None, [], map[])

  datatype Action =
    | Grow(e: A.Event, eventId: string)
    | Deliver(w: nat, v: nat)
    | Run(w: nat)
    | Crash(w: nat)
    | Reset

  function Step(s: State, w: nat): State
    requires w in s.busy
  {
    match s.busy[w]
    case Fetching(v) =>
      if 0 < v <= |s.events| then
        var plan := Planned(s.row, v, s.events[v-1]);
        s.(busy := if plan.Write? then s.busy[w := Upserting(v, plan.row)] else s.busy - {w})
      else s
    case Upserting(v, row) => s.(row := Some(Upserted(s.row, row)), busy := s.busy[w := Appending(v)])
    case Appending(v) =>
      if 0 < v <= |s.events| && v <= |s.ids| then
        s.(statement := Appended(s.statement, EntryOf(s.ids[v-1], v, s.events[v-1])), busy := s.busy - {w})
      else s
  }

  function Next(s: State, a: Action): State {
    match a
    case Grow(e, eventId) => if eventId in s.ids then s else s.(events := s.events + [e], ids := s.ids + [eventId])
    case Deliver(w, v) => if w in s.busy || !(0 < v <= |s.events|) then s else s.(busy := s.busy[w := Fetching(v)])
    case Run(w) => if w in s.busy then Step(s, w) else s
    case Crash(w) => s.(busy := s.busy - {w})
    case Reset => s.(row := None, statement := [])
  }

  function ExecFrom(s: State, schedule: seq<Action>): State {
    if schedule == [] then s else Next(ExecFrom(s, schedule[..|schedule|-1]), schedule[|schedule|-1])
  }

  function Exec(schedule: seq<Action>): State { ExecFrom(EMPTY, schedule) }

  lemma ExecSnoc(schedule: seq<Action>, a: Action)
    ensures Exec(schedule + [a]) == Next(Exec(schedule), a)
  {
    assert (schedule + [a])[..|schedule|] == schedule;
  }

  // ---- What holds whatever happens ----

  predicate EntryOk(s: State, x: Entry) {
    && 0 < x.version <= |s.events| && x.version <= |s.ids|
    && x == EntryOf(s.ids[x.version-1], x.version, s.events[x.version-1])
  }

  predicate StatementOk(s: State) {
    && (forall i :: 0 <= i < |s.statement| ==> EntryOk(s, s.statement[i]))
    && (forall i, j :: 0 <= i < j < |s.statement| ==> s.statement[i].version < s.statement[j].version)
  }

  predicate PhaseOk(s: State, p: Phase) {
    && 0 < p.v <= |s.events|
    && (p.Upserting? ==> p.row.version == p.v && RowOk(s.events, p.row))
  }

  predicate DistinctIds(ids: seq<string>) { forall i, j :: 0 <= i < j < |ids| ==> ids[i] != ids[j] }

  predicate Inv(s: State) {
    && |s.ids| == |s.events| && DistinctIds(s.ids)
    && RowFits(s.events, s.row)
    && StatementOk(s)
    && (forall w :: w in s.busy ==> PhaseOk(s, s.busy[w]))
  }

  lemma RowSurvives(events: seq<A.Event>, e: A.Event, row: Summary)
    requires RowOk(events, row)
    ensures RowOk(events + [e], row)
  {
    assert (events + [e])[..row.version] == events[..row.version];
  }

  lemma GrowKeeps(s: State, e: A.Event, eventId: string)
    requires Inv(s)
    ensures Inv(Next(s, Grow(e, eventId)))
  {
    if eventId !in s.ids {
      var s' := Next(s, Grow(e, eventId));
      if s.row.Some? {
        RowSurvives(s.events, e, s.row.value);
      }
      forall w | w in s'.busy ensures PhaseOk(s', s'.busy[w]) {
        assert PhaseOk(s, s.busy[w]);
        if s.busy[w].Upserting? {
          RowSurvives(s.events, e, s.busy[w].row);
        }
      }
      forall i | 0 <= i < |s'.statement| ensures EntryOk(s', s'.statement[i]) {
        assert EntryOk(s, s.statement[i]);
      }
    }
  }

  // An entry with the event's id is the event's entry.
  lemma KnownEvent(s: State, v: nat, i: nat)
    requires Inv(s) && 0 < v <= |s.events| && i < |s.statement| && s.statement[i].eventId == s.ids[v-1]
    ensures s.statement[i] == EntryOf(s.ids[v-1], v, s.events[v-1])
  {
    assert EntryOk(s, s.statement[i]);
  }

  // Appending adds the entry of an event once, in its place.
  lemma AppendFits(s: State, v: nat)
    requires Inv(s) && 0 < v <= |s.events|
    ensures var x := EntryOf(s.ids[v-1], v, s.events[v-1]);
            && StatementOk(s.(statement := Appended(s.statement, x)))
            && (forall y :: y in Appended(s.statement, x) <==> y in s.statement || y == x)
  {
    var x := EntryOf(s.ids[v-1], v, s.events[v-1]);
    if HasEvent(s.statement, x.eventId) {
      var i :| 0 <= i < |s.statement| && s.statement[i].eventId == x.eventId;
      KnownEvent(s, v, i);
    } else {
      var at := AppendInserts(s.statement, x);
      forall i | 0 <= i < |s.statement| ensures s.statement[i].version != v {
        assert EntryOk(s, s.statement[i]);
      }
      InsertedFits(s, s.statement[..at], x, s.statement[at..]);
      assert s.statement == s.statement[..at] + s.statement[at..];
    }
  }

  lemma InsertedFits(s: State, xs: seq<Entry>, x: Entry, ys: seq<Entry>)
    requires StatementOk(s) && s.statement == xs + ys && EntryOk(s, x)
    requires forall i :: 0 <= i < |xs| ==> xs[i].version < x.version
    requires forall i :: 0 <= i < |ys| ==> x.version < ys[i].version
    ensures StatementOk(s.(statement := xs + [x] + ys))
  {
    var all := xs + [x] + ys;
    var n := |xs|;
    assert forall i :: 0 <= i < n ==> all[i] == xs[i] == s.statement[i];
    assert forall i :: n < i < |all| ==> all[i] == ys[i-1-n] == s.statement[i-1];
    var s' := s.(statement := all);
    forall i | 0 <= i < |all| ensures EntryOk(s', all[i]) {
      assert EntryOk(s, all[i]);
    }
  }

  lemma StepKeeps(s: State, w: nat)
    requires Inv(s) && w in s.busy
    ensures Inv(Step(s, w))
  {
    assert PhaseOk(s, s.busy[w]);
    var s' := Step(s, w);
    match s.busy[w]
    case Fetching(v) =>
      PlanIsFaithful(s.events, s.row, v);
    case Upserting(v, row) =>
    case Appending(v) =>
      AppendFits(s, v);
  }

  lemma NextKeeps(s: State, a: Action)
    requires Inv(s)
    ensures Inv(Next(s, a))
  {
    match a
    case Grow(e, eventId) => GrowKeeps(s, e, eventId);
    case Run(w) =>
      if w in s.busy {
        StepKeeps(s, w);
      }
    case _ =>
  }

  lemma {:induction false} Reachable(schedule: seq<Action>)
    ensures Inv(Exec(schedule))
    decreases |schedule|
  {
    if schedule != [] {
      Reachable(schedule[..|schedule|-1]);
      NextKeeps(Exec(schedule[..|schedule|-1]), schedule[|schedule|-1]);
    }
  }

  // Under any interleaving, order of delivery, repetition, crash and reset, the
  // summary is the aggregate's state after its first summary.version events, and
  // the statement is sorted and holds at most one entry per version, each the
  // entry of the event of that version.
  lemma SummaryIsTheFold(schedule: seq<Action>)
    ensures var s := Exec(schedule);
            && (s.row.Some? ==>
                  && 0 < s.row.value.version <= |s.events| && s.events[0].AccountCreated?
                  && (var row, st := s.row.value, A.Fold(s.events[..s.row.value.version]);
                      && st.ownerId == Some(row.owner) && st.currency == Some(row.currency)
                      && row.status == st.status && row.balance == st.balance && row.version == st.version))
            && (forall i, j :: 0 <= i < j < |s.statement| ==> s.statement[i].version < s.statement[j].version)
            && (forall i :: 0 <= i < |s.statement| ==>
                  var k := s.statement[i].version - 1;
                  0 <= k < |s.events| == |s.ids| && Tells(s.statement[i], s.ids[k], k + 1, s.events[k]))
  {
    Reachable(schedule);
    var s := Exec(schedule);
    forall i | 0 <= i < |s.statement|
      ensures var k := s.statement[i].version - 1;
              0 <= k < |s.events| && Tells(s.statement[i], s.ids[k], k + 1, s.events[k])
    {
      assert EntryOk(s, s.statement[i]);
      EntryTells(s.ids[s.statement[i].version-1], s.statement[i].version, s.events[s.statement[i].version-1]);
    }
    if s.row.Some? {
      CreatedFirst(s.events, s.row.value.version);
    }
  }

  // ---- Which entries the statement will still have ----

  predicate Quiet(a: Action) { !a.Crash? && !a.Reset? }

  predicate AllQuiet(schedule: seq<Action>) { forall i :: 0 <= i < |schedule| ==> Quiet(schedule[i]) }

  function VersionOf(row: Option<Summary>): nat { if row.Some? then row.value.version else 0 }

  predicate Listed(statement: seq<Entry>, k: nat) { exists i :: 0 <= i < |statement| && statement[i].version == k }

  // The projector has planned the event of version k and will append its entry.
  predicate Bound(busy: map<nat, Phase>, w: nat, k: nat) { w in busy && !busy[w].Fetching? && busy[w].v == k }

  ghost predicate Underway(busy: map<nat, Phase>, k: nat) { exists w: nat :: Bound(busy, w, k) }

  // The row of projector w will be at k or beyond it.
  predicate Raises(busy: map<nat, Phase>, w: nat, k: nat) { w in busy && busy[w].Upserting? && k <= busy[w].v }

  // The summary is past k, or will be after an upsert that is under way.
  ghost predicate Needed(s: State, k: nat) {
    0 < k && (k <= VersionOf(s.row) || exists w: nat :: Raises(s.busy, w, k))
  }

  // Every entry the statement needs is there or under way.
  ghost predicate Covered(s: State) {
    forall k: nat :: Needed(s, k) ==> Listed(s.statement, k) || Underway(s.busy, k)
  }

  // The row is past v, the statement has no entry for v, and nobody is about to add one.
  ghost predicate Lost(s: State, v: nat) {
    0 < v <= VersionOf(s.row) && !Listed(s.statement, v) && !Underway(s.busy, v)
  }

  // ---- Deliveries and steps keep it ----

  lemma FetchCovers(s: State, w: nat)
    requires Inv(s) && Covered(s) && w in s.busy && s.busy[w].Fetching?
    ensures Covered(Step(s, w))
  {
    var s' := Step(s, w);
    var v := s.busy[w].v;
    assert PhaseOk(s, s.busy[w]);
    PlanIsFaithful(s.events, s.row, v);
    forall k: nat | Needed(s', k) ensures Listed(s'.statement, k) || Underway(s'.busy, k) {
      if Needed(s, k) {
        if !Listed(s.statement, k) {
          var u: nat :| Bound(s.busy, u, k);
          assert Bound(s'.busy, u, k);
        }
      } else {
        var u: nat :| Raises(s'.busy, u, k);
        assert u != w ==> Raises(s.busy, u, k);
        assert Bound(s'.busy, w, k);
      }
    }
  }

  lemma UpsertCovers(s: State, w: nat)
    requires Inv(s) && Covered(s) && w in s.busy && s.busy[w].Upserting?
    ensures Covered(Step(s, w))
  {
    var s' := Step(s, w);
    assert PhaseOk(s, s.busy[w]);
    forall k: nat | Needed(s', k) ensures Listed(s'.statement, k) || Underway(s'.busy, k) {
      assert k <= s.busy[w].v ==> Raises(s.busy, w, k);
      if u: nat :| Raises(s'.busy, u, k) {
        assert Raises(s.busy, u, k);
      }
      assert Needed(s, k);
      if !Listed(s.statement, k) {
        var u: nat :| Bound(s.busy, u, k);
        assert Bound(s'.busy, u, k);
      }
    }
  }

  lemma AppendLists(s: State, w: nat, k: nat)
    requires Inv(s) && w in s.busy && s.busy[w].Appending?
    ensures Listed(Step(s, w).statement, k) <==> Listed(s.statement, k) || k == s.busy[w].v
  {
    var v, s' := s.busy[w].v, Step(s, w);
    assert PhaseOk(s, s.busy[w]);
    AppendFits(s, v);
    var x := EntryOf(s.ids[v-1], v, s.events[v-1]);
    if Listed(s.statement, k) {
      var i :| 0 <= i < |s.statement| && s.statement[i].version == k;
      assert s.statement[i] in s'.statement;
    }
    if k == v {
      assert x in s'.statement;
    }
    if i :| 0 <= i < |s'.statement| && s'.statement[i].version == k {
      assert s'.statement[i] in s'.statement;
    }
  }

  lemma AppendCovers(s: State, w: nat)
    requires Inv(s) && Covered(s) && w in s.busy && s.busy[w].Appending?
    ensures Covered(Step(s, w))
  {
    var s' := Step(s, w);
    assert PhaseOk(s, s.busy[w]);
    forall k: nat | Needed(s', k) ensures Listed(s'.statement, k) || Underway(s'.busy, k) {
      AppendLists(s, w, k);
      if u: nat :| Raises(s'.busy, u, k) {
        assert Raises(s.busy, u, k);
      }
      assert Needed(s, k);
      if !Listed(s.statement, k) && k != s.busy[w].v {
        var u: nat :| Bound(s.busy, u, k);
        assert Bound(s'.busy, u, k);
      }
    }
  }

  lemma DeliverCovers(s: State, w: nat, v: nat)
    requires Covered(s)
    ensures Covered(Next(s, Deliver(w, v)))
  {
    var s' := Next(s, Deliver(w, v));
    forall k: nat | Needed(s', k) ensures Listed(s'.statement, k) || Underway(s'.busy, k) {
      if u: nat :| Raises(s'.busy, u, k) {
        assert Raises(s.busy, u, k);
      }
      assert Needed(s, k);
      if !Listed(s.statement, k) {
        var u: nat :| Bound(s.busy, u, k);
        assert Bound(s'.busy, u, k);
      }
    }
  }

  lemma QuietCovers(s: State, a: Action)
    requires Inv(s) && Covered(s) && Quiet(a)
    ensures Covered(Next(s, a))
  {
    match a
    case Run(w) =>
      if w in s.busy {
        match s.busy[w]
        case Fetching(_) => FetchCovers(s, w);
        case Upserting(_, _) => UpsertCovers(s, w);
        case Appending(_) => AppendCovers(s, w);
      }
    case Deliver(w, v) => DeliverCovers(s, w, v);
    case Grow(_, _) =>
      assert Next(s, a).busy == s.busy && Next(s, a).row == s.row && Next(s, a).statement == s.statement;
      forall k: nat | Needed(Next(s, a), k) ensures Needed(s, k) {}
  }

  // ---- Crashes and resets that lose nothing ----

  // Another projector is bound to k, or will take the row to it.
  ghost predicate OtherBound(busy: map<nat, Phase>, w: nat, k: nat) { exists u: nat :: u != w && Bound(busy, u, k) }

  ghost predicate OtherRaises(busy: map<nat, Phase>, w: nat, k: nat) { exists u: nat :: u != w && Raises(busy, u, k) }

  // The projector is not bound to an entry, or the entry is there, or somebody else is
  // bound to it, or the summary neither is nor will be that far.
  ghost predicate CrashHarmless(s: State, w: nat) {
    w in s.busy && !s.busy[w].Fetching? ==>
      var v := s.busy[w].v;
      || Listed(s.statement, v)
      || OtherBound(s.busy, w, v)
      || (VersionOf(s.row) < v && !OtherRaises(s.busy, w, v))
  }

  // Below every upsert under way, all versions are under way.
  ghost predicate ResetHarmless(s: State) {
    forall w: nat, k: nat {:trigger Raises(s.busy, w, k)} :: 0 < k && Raises(s.busy, w, k) ==> Underway(s.busy, k)
  }

  ghost predicate Harmless(s: State, a: Action) {
    match a
    case Crash(w) => CrashHarmless(s, w)
    case Reset => ResetHarmless(s)
    case _ => true
  }

  lemma CrashCovers(s: State, w: nat)
    requires Inv(s) && Covered(s) && CrashHarmless(s, w)
    ensures Covered(Next(s, Crash(w)))
  {
    var s' := Next(s, Crash(w));
    forall k: nat | Needed(s', k) ensures Listed(s'.statement, k) || Underway(s'.busy, k) {
      if u: nat :| Raises(s'.busy, u, k) {
        assert u != w && Raises(s.busy, u, k);
      }
      assert Needed(s, k);
      if !Listed(s.statement, k) {
        var u: nat :| Bound(s.busy, u, k);
        if u == w {
          var u': nat :| u' != w && Bound(s.busy, u', k);
          assert Bound(s'.busy, u', k);
        } else {
          assert Bound(s'.busy, u, k);
        }
      }
    }
  }

  lemma CrashUncovers(s: State, w: nat)
    requires !CrashHarmless(s, w) && PhaseOk(s, s.busy[w])
    ensures !Covered(Next(s, Crash(w)))
  {
    var s', v := Next(s, Crash(w)), s.busy[w].v;
    if VersionOf(s.row) < v {
      var u: nat :| u != w && Raises(s.busy, u, v);
      assert Raises(s'.busy, u, v);
    }
    assert Needed(s', v);
    forall u: nat ensures !Bound(s'.busy, u, v) { assert u != w ==> !Bound(s.busy, u, v); }
  }

  lemma ResetCoversIff(s: State)
    ensures Covered(Next(s, Reset)) <==> ResetHarmless(s)
  {
    var s' := Next(s, Reset);
    if Covered(s') {
      forall w: nat, k: nat | 0 < k && Raises(s.busy, w, k) ensures Underway(s.busy, k) {
        assert Raises(s'.busy, w, k) && Needed(s', k);
      }
    }
    if ResetHarmless(s) {
      forall k: nat | Needed(s', k) ensures Underway(s'.busy, k) {
        var w: nat :| Raises(s'.busy, w, k);
        assert Raises(s.busy, w, k);
      }
    }
  }

  // A step keeps all needed entries if and only if it is harmless.
  lemma HarmlessIff(s: State, a: Action)
    requires Inv(s) && Covered(s)
    ensures Covered(Next(s, a)) <==> Harmless(s, a)
  {
    match a
    case Crash(w) =>
      if CrashHarmless(s, w) {
        CrashCovers(s, w);
      } else {
        assert PhaseOk(s, s.busy[w]);
        CrashUncovers(s, w);
      }
    case Reset => ResetCoversIff(s);
    case _ => QuietCovers(s, a);
  }

  // Every crash and every reset of the schedule is harmless where it happens.
  ghost predicate AllHarmless(schedule: seq<Action>) {
    schedule == [] || (AllHarmless(schedule[..|schedule|-1])
                       && Harmless(Exec(schedule[..|schedule|-1]), schedule[|schedule|-1]))
  }

  lemma {:induction false} HarmlessCovers(schedule: seq<Action>)
    requires AllHarmless(schedule)
    ensures Covered(Exec(schedule))
    decreases |schedule|
  {
    if schedule == [] {
      assert forall k: nat :: !Needed(EMPTY, k);
    } else {
      var before := schedule[..|schedule|-1];
      HarmlessCovers(before);
      Reachable(before);
      HarmlessIff(Exec(before), schedule[|schedule|-1]);
    }
  }

  // ---- No entry ahead of the summary ----

  // No entry is ahead of the summary, in the statement or about to be appended.
  predicate NoneAhead(s: State) {
    && (forall i :: 0 <= i < |s.statement| ==> s.statement[i].version <= VersionOf(s.row))
    && (forall w :: w in s.busy && s.busy[w].Appending? ==> s.busy[w].v <= VersionOf(s.row))
  }

  // A reset with nobody between the upsert and the append.
  predicate ResetBetween(s: State, a: Action) { a.Reset? ==> forall w :: w in s.busy ==> !s.busy[w].Appending? }

  predicate ResetsBetween(schedule: seq<Action>) {
    schedule == [] || (ResetsBetween(schedule[..|schedule|-1])
                       && ResetBetween(Exec(schedule[..|schedule|-1]), schedule[|schedule|-1]))
  }

  lemma AppendNotAhead(s: State, w: nat)
    requires Inv(s) && NoneAhead(s) && w in s.busy && s.busy[w].Appending?
    ensures NoneAhead(Step(s, w))
  {
    var s' := Step(s, w);
    assert PhaseOk(s, s.busy[w]);
    AppendFits(s, s.busy[w].v);
    forall i | 0 <= i < |s'.statement| ensures s'.statement[i].version <= VersionOf(s'.row) {
      assert s'.statement[i] in s'.statement;
    }
  }

  lemma NoneAheadStays(s: State, a: Action)
    requires Inv(s) && NoneAhead(s)
    ensures NoneAhead(Next(s, a)) <==> ResetBetween(s, a)
  {
    if a.Run? && a.w in s.busy {
      assert PhaseOk(s, s.busy[a.w]);
      if s.busy[a.w].Appending? {
        AppendNotAhead(s, a.w);
      }
    }
    if a.Reset? && !ResetBetween(s, a) {
      var w :| w in s.busy && s.busy[w].Appending?;
      assert PhaseOk(s, s.busy[w]) && w in Next(s, a).busy;
    }
  }

  lemma {:induction false} NoneAheadReachable(schedule: seq<Action>)
    requires ResetsBetween(schedule)
    ensures NoneAhead(Exec(schedule))
    decreases |schedule|
  {
    if schedule != [] {
      var before := schedule[..|schedule|-1];
      NoneAheadReachable(before);
      Reachable(before);
      NoneAheadStays(Exec(before), schedule[|schedule|-1]);
    }
  }

  // Strictly increasing versions that cover 1..n begin with 1..n.
  lemma {:induction false} Enumerates(xs: seq<Entry>, n: nat, k: nat)
    requires forall i, j :: 0 <= i < j < |xs| ==> xs[i].version < xs[j].version
    requires forall i :: 0 <= i < |xs| ==> 0 < xs[i].version
    requires forall v :: 0 < v <= n ==> Listed(xs, v)
    requires k <= n
    ensures k <= |xs| && forall i :: 0 <= i < k ==> xs[i].version == i + 1
  {
    if k > 0 {
      Enumerates(xs, n, k - 1);
      assert Listed(xs, k);
      var j :| 0 <= j < |xs| && xs[j].version == k;
      assert k - 1 <= j && xs[k-1].version <= xs[j].version;
      assert k > 1 ==> xs[k-2].version < xs[k-1].version;
    }
  }

  // Strictly increasing versions take up room.
  lemma {:induction false} Spread(xs: seq<Entry>, k: nat)
    requires forall i, j :: 0 <= i < j < |xs| ==> xs[i].version < xs[j].version
    requires forall i :: 0 <= i < |xs| ==> 0 < xs[i].version
    requires k <= |xs|
    ensures forall i :: 0 <= i < k ==> i < xs[i].version
  {
    if k > 0 {
      Spread(xs, k - 1);
      assert k > 1 ==> xs[k-2].version < xs[k-1].version;
    }
  }

  // Whenever no projector is in the middle of an event, and every crash and reset was
  // harmless, the statement begins with exactly the entries of the versions
  // 1..summary.version, in order, even when later versions were appended before
  // earlier ones. If no reset came between an upsert and its append, it holds no more.
  lemma StatementIsWhole(schedule: seq<Action>)
    requires AllHarmless(schedule) && Exec(schedule).busy == map[]
    ensures var s := Exec(schedule);
            && VersionOf(s.row) <= |s.events| == |s.ids| && VersionOf(s.row) <= |s.statement|
            && (forall k :: 0 <= k < VersionOf(s.row) ==> Tells(s.statement[k], s.ids[k], k + 1, s.events[k]))
            && (ResetsBetween(schedule) ==> |s.statement| == VersionOf(s.row))
  {
    HarmlessCovers(schedule);
    Reachable(schedule);
    CoveredIsWhole(Exec(schedule));
    if ResetsBetween(schedule) {
      NoneAheadReachable(schedule);
      NoMoreLines(Exec(schedule));
    }
  }

  lemma CoveredIsWhole(s: State)
    requires Inv(s) && Covered(s) && s.busy == map[]
    ensures VersionOf(s.row) <= |s.events| == |s.ids| && VersionOf(s.row) <= |s.statement|
    ensures forall k :: 0 <= k < VersionOf(s.row) ==> Tells(s.statement[k], s.ids[k], k + 1, s.events[k])
  {
    var n := VersionOf(s.row);
    forall i | 0 <= i < |s.statement| ensures EntryOk(s, s.statement[i]) {}
    forall v | 0 < v <= n ensures Listed(s.statement, v) { assert Needed(s, v); }
    Enumerates(s.statement, n, n);
    forall k | 0 <= k < n ensures Tells(s.statement[k], s.ids[k], k + 1, s.events[k]) {
      assert EntryOk(s, s.statement[k]);
      EntryTells(s.ids[k], k + 1, s.events[k]);
    }
  }

  lemma NoMoreLines(s: State)
    requires Inv(s) && NoneAhead(s) && s.busy == map[]
    ensures |s.statement| <= VersionOf(s.row)
  {
    forall i | 0 <= i < |s.statement| ensures EntryOk(s, s.statement[i]) {}
    Spread(s.statement, |s.statement|);
    assert s.statement != [] ==> s.statement[|s.statement|-1].version <= VersionOf(s.row);
  }

  // Then the lines up to any version add up to the balance the aggregate had there, and
  // all of them to the balance of the summary.
  lemma StatementIsTheLedger(schedule: seq<Action>, v: nat)
    requires AllHarmless(schedule) && Exec(schedule).busy == map[] && v <= VersionOf(Exec(schedule).row)
    ensures var s := Exec(schedule);
            && v <= |s.statement| && v <= |s.events|
            && PaidIn(s.statement[..v]) - PaidOut(s.statement[..v]) == A.Fold(s.events[..v]).balance
            && (v > 0 && v == VersionOf(s.row) ==>
                  PaidIn(s.statement[..v]) - PaidOut(s.statement[..v]) == s.row.value.balance)
  {
    StatementIsWhole(schedule);
    var s := Exec(schedule);
    PrefixAddsUp(s.statement, s.ids, s.events, VersionOf(s.row), v);
    if v > 0 && v == VersionOf(s.row) {
      RowBalance(schedule);
    }
  }

  lemma RowBalance(schedule: seq<Action>)
    requires Exec(schedule).row.Some?
    ensures var s := Exec(schedule);
            s.row.value.version <= |s.events| && s.row.value.balance == A.Fold(s.events[..s.row.value.version]).balance
  {
    SummaryIsTheFold(schedule);
  }

  lemma PrefixAddsUp(xs: seq<Entry>, ids: seq<string>, events: seq<A.Event>, n: nat, v: nat)
    requires v <= n <= |xs| && n <= |ids| && n <= |events|
    requires forall k :: 0 <= k < n ==> Tells(xs[k], ids[k], k + 1, events[k])
    ensures PaidIn(xs[..v]) - PaidOut(xs[..v]) == A.Fold(events[..v]).balance
  {
    assert forall k :: 0 <= k < n ==> xs[..n][k] == xs[k];
    StatementAddsUp(xs[..n], ids, events, v);
    assert xs[..n][..v] == xs[..v];
  }

  lemma {:induction false} QuietIsHarmless(schedule: seq<Action>)
    requires AllQuiet(schedule)
    ensures AllHarmless(schedule) && ResetsBetween(schedule)
    decreases |schedule|
  {
    if schedule != [] {
      QuietIsHarmless(schedule[..|schedule|-1]);
    }
  }

  // ---- An entry that is lost is lost for good ----

  lemma LostStaysLost(s: State, a: Action, v: nat)
    requires Inv(s) && Lost(s, v) && !a.Reset?
    ensures Lost(Next(s, a), v)
  {
    var s' := Next(s, a);
    if a.Run? && a.w in s.busy {
      var p := s.busy[a.w];
      assert PhaseOk(s, p) && !Bound(s.busy, a.w, v);
      if p.Appending? {
        AppendLists(s, a.w, v);
      }
    }
    forall u: nat ensures !Bound(s'.busy, u, v) { assert !Bound(s.busy, u, v); }
  }

  lemma {:induction false} LostForGood(s: State, later: seq<Action>, v: nat)
    requires Inv(s) && Lost(s, v) && forall i :: 0 <= i < |later| ==> !later[i].Reset?
    ensures Inv(ExecFrom(s, later)) && Lost(ExecFrom(s, later), v)
    decreases |later|
  {
    if later != [] {
      var init := later[..|later|-1];
      LostForGood(s, init, v);
      NextKeeps(ExecFrom(s, init), later[|later|-1]);
      LostStaysLost(ExecFrom(s, init), later[|later|-1], v);
    }
  }

  lemma {:induction false} QuietlyCovered(s: State, later: seq<Action>)
    requires Inv(s) && Covered(s) && AllQuiet(later)
    ensures Inv(ExecFrom(s, later)) && Covered(ExecFrom(s, later))
    decreases |later|
  {
    if later != [] {
      var init := later[..|later|-1];
      QuietlyCovered(s, init);
      NextKeeps(ExecFrom(s, init), later[|later|-1]);
      QuietCovers(ExecFrom(s, init), later[|later|-1]);
    }
  }

  // The upsert that takes the row past a needed entry leaves it lost.
  lemma UpsertLoses(s: State, w: nat, k: nat)
    requires Inv(s) && 0 < k && Raises(s.busy, w, k) && !Listed(s.statement, k) && !Underway(s.busy, k)
    ensures Lost(ExecFrom(s, [Run(w)]), k)
  {
    var s' := Step(s, w);
    assert PhaseOk(s, s.busy[w]) && !Bound(s.busy, w, k);
    forall u: nat ensures !Bound(s'.busy, u, k) { assert !Bound(s.busy, u, k); }
    assert [Run(w)][..0] == [] && ExecFrom(s, []) == s;
  }

  // Deliveries and steps alone lose the entry.
  ghost predicate LosesBy(s: State, later: seq<Action>, k: nat) { AllQuiet(later) && Lost(ExecFrom(s, later), k) }

  // Deliveries and steps alone can come to a lost entry if and only if some needed
  // entry is neither there nor under way.
  lemma LossIff(s: State)
    requires Inv(s)
    ensures (exists later, k :: LosesBy(s, later, k)) <==> !Covered(s)
  {
    if Covered(s) {
      forall later, k: nat ensures !LosesBy(s, later, k) {
        if AllQuiet(later) {
          QuietlyCovered(s, later);
          assert 0 < k <= VersionOf(ExecFrom(s, later).row) ==> Needed(ExecFrom(s, later), k);
        }
      }
    } else {
      var k: nat :| Needed(s, k) && !Listed(s.statement, k) && !Underway(s.busy, k);
      if k <= VersionOf(s.row) {
        assert LosesBy(s, [], k);
      } else {
        var w: nat :| Raises(s.busy, w, k);
        UpsertLoses(s, w, k);
        assert LosesBy(s, [Run(w)], k);
      }
    }
  }

  // A projector that dies after the upsert and before the append, with nobody else
  // bound to that event, loses the statement entry: no redelivery brings it back.
  lemma CrashLosesEntry(before: seq<Action>, w: nat, later: seq<Action>)
    requires var s := Exec(before);
             && w in s.busy && s.busy[w].Appending? && s.busy[w].v <= VersionOf(s.row)
             && !Listed(s.statement, s.busy[w].v) && !OtherBound(s.busy, w, s.busy[w].v)
    requires forall i :: 0 <= i < |later| ==> !later[i].Reset?
    ensures Lost(ExecFrom(Next(Exec(before), Crash(w)), later), Exec(before).busy[w].v)
  {
    Reachable(before);
    var s := Exec(before);
    var s' := Next(s, Crash(w));
    assert PhaseOk(s, s.busy[w]);
    forall u: nat ensures !Bound(s'.busy, u, s.busy[w].v) { assert u != w ==> !Bound(s.busy, u, s.busy[w].v); }
    NextKeeps(s, Crash(w));
    LostForGood(s', later, s.busy[w].v);
  }

  // A reset while a projector is about to upsert version v loses every earlier entry
  // that nobody is bound to: the upsert takes the row past it.
  lemma ResetLosesEntry(before: seq<Action>, w: nat, k: nat, later: seq<Action>)
    requires var s := Exec(before);
             w in s.busy && s.busy[w].Upserting? && 0 < k < s.busy[w].v && !Underway(s.busy, k)
    requires forall i :: 0 <= i < |later| ==> !later[i].Reset?
    ensures Lost(ExecFrom(Next(Next(Exec(before), Reset), Run(w)), later), k)
  {
    Reachable(before);
    var s := Next(Exec(before), Reset);
    NextKeeps(Exec(before), Reset);
    assert Raises(s.busy, w, k);
    UpsertLoses(s, w, k);
    assert ExecFrom(s, [Run(w)]) == Next(s, Run(w)) by {
      assert [Run(w)][..0] == [];
    }
    NextKeeps(s, Run(w));
    LostForGood(Next(s, Run(w)), later, k);
  }

  // Such a run exists.
  lemma CrashRunExists(e: A.Event, eventId: string)
    requires e.AccountCreated?
    ensures var before := [Grow(e, eventId), Deliver(0, 1), Run(0), Run(0)];
            var s := Exec(before);
            && 0 in s.busy && s.busy[0] == Appending(1) && VersionOf(s.row) == 1
            && s.statement == [] && s.busy.Keys == {0}
  {
    var s1 := Next(EMPTY, Grow(e, eventId));
    var s2 := Next(s1, Deliver(0, 1));
    var s3 := Next(s2, Run(0));
    var s4 := Next(s3, Run(0));
    var g, d := Grow(e, eventId), Deliver(0, 1);
    ExecSnoc([], g);
    ExecSnoc([g], d);
    ExecSnoc([g, d], Run(0));
    ExecSnoc([g, d, Run(0)], Run(0));
    assert [] + [g] == [g] && [g] + [d] == [g, d] && [g, d] + [Run(0)] == [g, d, Run(0)];
    assert [g, d, Run(0)] + [Run(0)] == [g, d, Run(0), Run(0)];
  }

  lemma Then(schedule: seq<Action>, a: Action, s: State, s': State)
    requires Exec(schedule) == s && Next(s, a) == s'
    ensures Exec(schedule + [a]) == s'
  {
    ExecSnoc(schedule, a);
  }

  // Two events are stored and the first is projected.
  function FirstProjected(e: A.Event, id: string, id': string): seq<Action> {
    [] + [Grow(e, id)] + [Grow(A.AccountFrozen("r"), id')] + [Deliver(0, 1)] + [Run(0)] + [Run(0)] + [Run(0)]
  }

  lemma AfterFirst(e: A.Event, id: string, id': string)
    requires e.AccountCreated? && id != id'
    ensures var s := Exec(FirstProjected(e, id, id'));
            && s.events == [e, A.AccountFrozen("r")] && s.ids == [id, id'] && s.busy == map[]
            && s.row == Some(Summary(e.ownerId, e.currency, A.Active, 0, 1))
  {
    var f, row := A.AccountFrozen("r"), Summary(e.ownerId, e.currency, A.Active, 0, 1);
    var s := State([e, f], [id, id'], None, [], map[]);
    Then([], Grow(e, id), EMPTY, State([e], [id], None, [], map[]));
    Then([] + [Grow(e, id)], Grow(f, id'), State([e], [id], None, [], map[]), s);
    var h := [] + [Grow(e, id)] + [Grow(f, id')];
    Then(h, Deliver(0, 1), s, s.(busy := map[0 := Fetching(1)]));
    Then(h + [Deliver(0, 1)], Run(0), s.(busy := map[0 := Fetching(1)]), s.(busy := map[0 := Upserting(1, row)]));
    var s1 := s.(row := Some(row), busy := map[0 := Appending(1)]);
    Then(h + [Deliver(0, 1)] + [Run(0)], Run(0), s.(busy := map[0 := Upserting(1, row)]), s1);
    Then(h + [Deliver(0, 1)] + [Run(0)] + [Run(0)], Run(0), s1, Step(s1, 0));
  }

  // ... and so does one that comes to a reset in the wrong place: the first event is
  // projected, the second is about to be upserted.
  lemma ResetRunExists(e: A.Event, id: string, id': string)
    requires e.AccountCreated? && id != id'
    ensures var s := Exec(FirstProjected(e, id, id') + [Deliver(0, 2)] + [Run(0)]);
            0 in s.busy && s.busy[0].Upserting? && s.busy[0].v == 2 && s.busy.Keys == {0} && !Underway(s.busy, 1)
  {
    var h := FirstProjected(e, id, id');
    var s := Exec(h);
    AfterFirst(e, id, id');
    Then(h, Deliver(0, 2), s, s.(busy := map[0 := Fetching(2)]));
    var row := Summary(e.ownerId, e.currency, A.Frozen, 0, 2);
    Then(h + [Deliver(0, 2)], Run(0), s.(busy := map[0 := Fetching(2)]), s.(busy := map[0 := Upserting(2, row)]));
  }
}
