// Loading, saving and retrying on one instance: the repository over the event store
// and the snapshot store, with what other instances commit in between.
module AccountRepositories {
  import opened Wrappers
  import opened AccountAggregates
  import A = Accounts
  import Money

  const SNAPSHOT_INTERVAL: nat := 50
  const MAX_WRITE_ATTEMPTS: nat := 3

  datatype Snapshot = Snapshot(version: nat, state: SnapshotState)

  function BaseOf(snapshot: Option<Snapshot>): nat { if snapshot.Some? then snapshot.value.version else 0 }

  // A stored snapshot is the fold of the stream up to its version.
  predicate Faithful(stream: seq<A.Event>, snapshot: Option<Snapshot>) {
    snapshot.Some? ==>
      && snapshot.value.version <= |stream|
      && Restored(snapshot.value.state, snapshot.value.version) == A.Fold(stream[..snapshot.value.version])
  }

  // ... and it is no older than the last multiple of the interval.
  predicate Recent(length: nat, base: nat) { SNAPSHOT_INTERVAL * (length / SNAPSHOT_INTERVAL) <= base <= length }

  // A load replays fewer events than the interval.
  lemma TailBound(length: nat, base: nat)
    requires Recent(length, base)
    ensures length - base < SNAPSHOT_INTERVAL
  {
  }

  // Restoring a faithful snapshot and replaying the tail is replaying everything.
  lemma LoadIsFold(stream: seq<A.Event>, snapshot: Option<Snapshot>)
    requires Faithful(stream, snapshot)
    ensures var start := if snapshot.Some? then Restored(snapshot.value.state, snapshot.value.version) else A.BLANK;
            A.Replay(start, Bodies(Tail(stream, BaseOf(snapshot)))) == A.Fold(stream)
  {
    var k := BaseOf(snapshot);
    A.ReplaySplit(A.BLANK, stream, k);
    assert Bodies(Tail(stream, k)) == stream[k..];
    assert k == 0 ==> stream[..k] == [];
  }

  lemma FaithfulGrows(stream: seq<A.Event>, more: seq<A.Event>, snapshot: Option<Snapshot>)
    requires Faithful(stream, snapshot)
    ensures Faithful(stream + more, snapshot)
  {
    if snapshot.Some? {
      assert (stream + more)[..snapshot.value.version] == stream[..snapshot.value.version];
    }
  }

  // What save leaves as the latest snapshot after an append.
  function SnapshotAfter(snapshot: Option<Snapshot>, before: nat, after: nat, state: SnapshotState): Option<Snapshot> {
    if after / SNAPSHOT_INTERVAL > before / SNAPSHOT_INTERVAL && (snapshot.None? || snapshot.value.version < after)
    then Some(Snapshot(after, state))
    else snapshot
  }

  // A save keeps the snapshot faithful, however many events it appends. It keeps it
  // recent, too, and makes it recent again at the next boundary after one whose
  // snapshot was lost.
  lemma SaveKeepsSnapshot(stream: seq<A.Event>, batch: seq<A.Event>, snapshot: Option<Snapshot>, state: SnapshotState)
    requires Faithful(stream, snapshot)
    requires Restored(state, |stream| + |batch|) == A.Fold(stream + batch)
    ensures var s' := SnapshotAfter(snapshot, |stream|, |stream| + |batch|, state);
            && Faithful(stream + batch, s')
            && (Recent(|stream|, BaseOf(snapshot)) || Crossed(|stream|, |stream| + |batch|) ==>
                  Recent(|stream + batch|, BaseOf(s')))
            && (if HoldsMultipleOf50(|stream|, |stream| + |batch|) then BaseOf(s') >= |stream| + |batch|
                else s' == snapshot)
  {
    CrossedIff(|stream|, |stream| + |batch|);
    FaithfulGrows(stream, batch, snapshot);
    assert (stream + batch)[..|stream + batch|] == stream + batch;
    Boundaries(|stream|, |stream| + |batch|);
  }

  // An append from one version to the other crosses a multiple of the interval.
  predicate Crossed(before: nat, after: nat) { after / SNAPSHOT_INTERVAL > before / SNAPSHOT_INTERVAL }

  lemma Boundaries(before: nat, after: nat)
    requires before <= after
    ensures before / SNAPSHOT_INTERVAL <= after / SNAPSHOT_INTERVAL
    ensures SNAPSHOT_INTERVAL * (after / SNAPSHOT_INTERVAL) <= after
  {
  }

  ghost predicate HoldsMultipleOf50(before: nat, after: nat) { exists k: nat :: before < 50 * k <= after }

  // An append crosses a boundary exactly when a multiple of 50 lies in it.
  lemma CrossedIff(before: nat, after: nat)
    requires before <= after
    ensures Crossed(before, after) <==> HoldsMultipleOf50(before, after)
  {
    if Crossed(before, after) {
      var k: nat := after / 50;
      assert before < 50 * k <= after;
    }
    if k: nat :| before < 50 * k <= after {
      assert after / 50 >= k > before / 50;
    }
  }

  // The command of one request, with amounts still as text.
  datatype Request =
    | Create(owner: string, currency: string)
    | Deposit(amount: string, currency: string, transactionId: string)
    | Withdraw(amount: string, currency: string, transactionId: string)
    | Freeze(reason: string)

  function CommandOf(id: string, r: Request): A.Command {
    match r
    case Create(owner, currency) => A.Create(id, owner, currency)
    case Deposit(amount, currency, tx) => A.Deposit(Money.Parse(amount), currency, tx)
    case Withdraw(amount, currency, tx) => A.Withdraw(Money.Parse(amount), currency, tx)
    case Freeze(reason) => A.Freeze(reason)
  }

  datatype Outcome = Committed | Rejected(why: A.Error) | Conflict

  function Between(others: seq<seq<A.Event>>, attempt: nat): seq<A.Event>
    requires attempt > 0
  {
    if attempt <= |others| then others[attempt-1] else []
  }

  // What the loaded account says to a command, as a function of the stream.
  function Decider(cmd: A.Command): seq<A.Event> -> Result<A.Event, A.Error> {
    stream => A.Decide(A.Fold(stream), cmd)
  }

  // What a retried command comes to when other instances commit others[k-1] between
  // the read and the write of attempt k.
  function Retried(stream: seq<A.Event>, decide: seq<A.Event> -> Result<A.Event, A.Error>,
                   others: seq<seq<A.Event>>, attempt: nat): (seq<A.Event>, Outcome)
    requires 0 < attempt <= MAX_WRITE_ATTEMPTS
    decreases MAX_WRITE_ATTEMPTS - attempt
  {
    match decide(stream)
    case Failure(why) => (stream, Rejected(why))
    case Success(e) =>
      var between := Between(others, attempt);
      if between == [] then (stream + [e], Committed)
      else if attempt == MAX_WRITE_ATTEMPTS then (stream + between, Conflict)
      else Retried(stream + between, decide, others, attempt + 1)
  }

  // A committed command adds one event, decided on exactly what precedes it; a
  // rejection was decided on exactly the final stream.
  lemma {:induction false} RetryDecidesOnTheWhole(stream: seq<A.Event>,
      decide: seq<A.Event> -> Result<A.Event, A.Error>,
      others: seq<seq<A.Event>>, attempt: nat)
    requires 0 < attempt <= MAX_WRITE_ATTEMPTS
    ensures var (after, outcome) := Retried(stream, decide, others, attempt);
            match outcome
            case Committed => |after| > |stream| && decide(after[..|after|-1]) == Success(after[|after|-1])
            case Rejected(why) => decide(after) == Failure(why)
            case Conflict => true
    decreases MAX_WRITE_ATTEMPTS - attempt
  {
    var between := Between(others, attempt);
    if decide(stream).Success? {
      if between == [] {
        var e := decide(stream).value;
        assert (stream + [e])[..|stream|] == stream;
      } else if attempt < MAX_WRITE_ATTEMPTS {
        RetryDecidesOnTheWhole(stream + between, decide, others, attempt + 1);
      }
    }
  }

  // A command gets three attempts: a write that meets a commit of another instance is
  // tried again on what that left, and the third such write ends in a conflict.
  lemma ThreeAttempts(stream: seq<A.Event>, decide: seq<A.Event> -> Result<A.Event, A.Error>, others: seq<seq<A.Event>>)
    ensures var b1, b2, b3 := Between(others, 1), Between(others, 2), Between(others, 3);
            var r, accepts := Retried(stream, decide, others, 1), (s: seq<A.Event>) => decide(s).Success?;
            && (accepts(stream) && b1 == [] ==> r == (stream + [decide(stream).value], Committed))
            && (accepts(stream) && b1 != [] && accepts(stream + b1) && b2 == [] ==>
                  r == (stream + b1 + [decide(stream + b1).value], Committed))
            && (accepts(stream) && b1 != [] && accepts(stream + b1) && b2 != [] && accepts(stream + b1 + b2) ==>
                  r == if b3 == [] then (stream + b1 + b2 + [decide(stream + b1 + b2).value], Committed)
                       else (stream + b1 + b2 + b3, Conflict))
            && (r.1.Conflict? <==>
                  && b1 != [] && b2 != [] && b3 != []
                  && accepts(stream) && accepts(stream + b1) && accepts(stream + b1 + b2))
  {
    var b1, b2 := Between(others, 1), Between(others, 2);
    assert b1 != [] ==> stream + b1 != stream;
    assert Retried(stream + b1, decide, others, 2).1.Conflict? ==> decide(stream + b1).Success?;
    assert Retried(stream + b1 + b2, decide, others, 3).1.Conflict? ==> decide(stream + b1 + b2).Success?;
  }

  // The attempts whose write met another instance's commit end before `until`.
  predicate Absorbed(stream: seq<A.Event>, after: seq<A.Event>, outcome: Outcome, others: seq<seq<A.Event>>,
      attempt: nat, until: nat)
  {
    && 0 < attempt <= until <= MAX_WRITE_ATTEMPTS + 1
    && (outcome.Conflict? ==> until == MAX_WRITE_ATTEMPTS + 1)
    && (forall k :: attempt <= k < until ==> Between(others, k) != [])
    && (if outcome.Committed?
        then |after| > 0 && after[..|after|-1] == stream + Joined(others, attempt, until)
        else after == stream + Joined(others, attempt, until))
  }

  // Whatever the outcome, everything the others committed stays, in order, and the
  // command itself adds one event if it committed and none otherwise. A conflict
  // means that all three writes met a commit of another instance.
  lemma {:induction false} RetryLosesNothing(stream: seq<A.Event>, decide: seq<A.Event> -> Result<A.Event, A.Error>,
      others: seq<seq<A.Event>>, attempt: nat)
    returns (until: nat)
    requires 0 < attempt <= MAX_WRITE_ATTEMPTS
    ensures var (after, outcome) := Retried(stream, decide, others, attempt);
            Absorbed(stream, after, outcome, others, attempt, until)
    decreases MAX_WRITE_ATTEMPTS - attempt
  {
    var between := Between(others, attempt);
    assert stream + Joined(others, attempt, attempt) == stream;
    if decide(stream).Failure? {
      until := attempt;
    } else if between == [] {
      until := attempt;
      assert (stream + [decide(stream).value])[..|stream|] == stream;
    } else if attempt == MAX_WRITE_ATTEMPTS {
      until := attempt + 1;
      assert Joined(others, attempt, attempt + 1) == between;
    } else {
      until := RetryLosesNothing(stream + between, decide, others, attempt + 1);
      var (after, outcome) := Retried(stream + between, decide, others, attempt + 1);
      OneMoreAbsorbed(stream, after, outcome, others, attempt, until);
    }
  }

  lemma OneMoreAbsorbed(stream: seq<A.Event>, after: seq<A.Event>, outcome: Outcome, others: seq<seq<A.Event>>,
      attempt: nat, until: nat)
    requires 0 < attempt <= MAX_WRITE_ATTEMPTS && Between(others, attempt) != []
    requires Absorbed(stream + Between(others, attempt), after, outcome, others, attempt + 1, until)
    ensures Absorbed(stream, after, outcome, others, attempt, until)
  {
    var between := Between(others, attempt);
    JoinedFront(others, attempt, until);
    assert stream + between + Joined(others, attempt + 1, until) == stream + Joined(others, attempt, until);
  }

  // What the others commit during the attempts from..to-1.
  function Joined(others: seq<seq<A.Event>>, from: nat, until: nat): seq<A.Event>
    requires 0 < from <= until
    decreases until
  {
    if from == until then [] else Joined(others, from, until - 1) + Between(others, until - 1)
  }

  lemma {:induction false} JoinedFront(others: seq<seq<A.Event>>, from: nat, until: nat)
    requires 0 < from < until
    ensures Joined(others, from, until) == Between(others, from) + Joined(others, from + 1, until)
    decreases until
  {
    if from + 1 < until {
      JoinedFront(others, from, until - 1);
    } else {
      assert Joined(others, from, from) == [];
    }
  }

  lemma FoldOneMore(stream: seq<A.Event>, events: seq<A.Event>, i: nat)
    requires i < |events|
    ensures A.Fold(stream + events[..i+1]) == A.When(A.Fold(stream + events[..i]), events[i])
  {
    assert stream + events[..i+1] == stream + events[..i] + [events[i]];
    A.FoldSnoc(stream + events[..i], events[i]);
  }

  // ---- What the caller of a request gets ----

  // What a committed request has done: the event it is for, and what that changed.
  predicate Served(id: string, r: Request, before: A.State, e: A.Event, after: A.State) {
    match r
    case Create(owner, currency) =>
      && !before.Exists() && e == A.AccountCreated(id, owner, currency)
      && after.accountId == Some(id) && after.ownerId == Some(owner) && after.currency == Some(currency)
      && after.status == A.Active && after.balance == before.balance
    case Deposit(amount, currency, tx) =>
      && Money.Parse(amount).Some? && Money.Parse(amount).value > 0
      && before.status == A.Active && before.currency == Some(currency)
      && e == A.MoneyDeposited(Money.Parse(amount).value, currency, tx)
      && after == before.(balance := before.balance + Money.Parse(amount).value, version := before.version + 1)
    case Withdraw(amount, currency, tx) =>
      && Money.Parse(amount).Some? && 0 < Money.Parse(amount).value <= before.balance
      && before.status == A.Active && before.currency == Some(currency)
      && e == A.MoneyWithdrawn(Money.Parse(amount).value, currency, tx)
      && after == before.(balance := before.balance - Money.Parse(amount).value, version := before.version + 1)
    case Freeze(reason) =>
      && reason != "" && before.status == A.Active && e == A.AccountFrozen(reason)
      && after == before.(status := A.Frozen, version := before.version + 1)
  }

  // Why a request is rejected in a state, the first reason in the order of the guards.
  predicate Turned(r: Request, st: A.State, why: A.Error) {
    match r
    case Create(_, _) => why == A.AlreadyExists && st.Exists()
    case Freeze(reason) =>
      if reason == "" then why == A.ReasonRequired else why == A.AlreadyFrozen && st.status == A.Frozen
    case _ =>
      var amount := Money.Parse(r.amount);
      if st.status == A.Frozen then why == A.NotActive
      else if st.currency != Some(r.currency) then why == A.CurrencyMismatch
      else if amount.None? then why == A.InvalidMoney
      else if amount.value <= 0 then why == A.NotPositive
      else why == A.InsufficientFunds && r.Withdraw? && amount.value > st.balance
  }

  // What the guards make of a request.
  lemma CommandServes(id: string, r: Request, st: A.State, why: A.Error)
    ensures var decision := A.Decide(st, CommandOf(id, r));
            && (decision == Failure(why) <==> Turned(r, st, why))
            && (decision.Success? ==> Served(id, r, st, decision.value, A.When(st, decision.value)))
  {
  }

  // The law of a request, for each kind: a committed one has added its own event, decided
  // on all that precedes it; a rejected one was turned away for a reason that holds on the
  // final stream.
  lemma RequestLaw(stream: seq<A.Event>, id: string, request: Request, others: seq<seq<A.Event>>)
    ensures var (after, outcome) := Retried(stream, Decider(CommandOf(id, request)), others, 1);
            && (outcome.Committed? ==>
                  && |after| > |stream|
                  && Served(id, request, A.Fold(after[..|after|-1]), after[|after|-1], A.Fold(after)))
            && (outcome.Rejected? ==> Turned(request, A.Fold(after), outcome.why))
  {
    var (after, outcome) := Retried(stream, Decider(CommandOf(id, request)), others, 1);
    RetryDecidesOnTheWhole(stream, Decider(CommandOf(id, request)), others, 1);
    if outcome.Committed? {
      var before := after[..|after|-1];
      assert after == before + [after[|after|-1]];
      A.FoldSnoc(before, after[|after|-1]);
      CommandServes(id, request, A.Fold(before), A.AlreadyExists);
    } else if outcome.Rejected? {
      CommandServes(id, request, A.Fold(after), outcome.why);
    }
  }

  // If nobody else writes, a request is rejected exactly when there is a reason, and
  // leaves the stream as it was; otherwise it adds one event.
  lemma RequestAlone(stream: seq<A.Event>, id: string, request: Request)
    ensures var (after, outcome) := Retried(stream, Decider(CommandOf(id, request)), [], 1);
            && (forall why :: outcome == Rejected(why) <==> Turned(request, A.Fold(stream), why))
            && (outcome.Rejected? ==> after == stream)
            && (!outcome.Rejected? ==>
                  outcome.Committed? && |after| == |stream| + 1 && after[..|stream|] == stream)
  {
    ThreeAttempts(stream, Decider(CommandOf(id, request)), []);
    forall why ensures A.Decide(A.Fold(stream), CommandOf(id, request)) == Failure(why)
                       <==> Turned(request, A.Fold(stream), why)
    {
      CommandServes(id, request, A.Fold(stream), why);
    }
  }

  class AccountRepository {
    var streams: map<string, seq<A.Event>>
    var snapshots: map<string, Snapshot>

    function Stream(id: string): seq<A.Event>
      reads this
    {
      if id in streams then streams[id] else []
    }

    function SnapshotOf(id: string): Option<Snapshot>
      reads this
    {
      if id in snapshots then Some(snapshots[id]) else None
    }

    // Every stored snapshot is faithful. It need not be recent: a process can die
    // between the append and the snapshot.
    ghost predicate Valid()
      reads this
    {
      forall id {:trigger FaithfulFor(id)} :: FaithfulFor(id)
    }

    predicate FaithfulFor(id: string)
      reads this
    {
      Faithful(Stream(id), SnapshotOf(id))
    }

    predicate RecentFor(id: string)
      reads this
    {
      Recent(|Stream(id)|, BaseOf(SnapshotOf(id)))
    }

    constructor ()
      ensures Valid() && streams == map[] && snapshots == map[]
    {
      streams, snapshots := map[], map[];
    }

    method GetById(id: string) returns (account: AccountAggregate, replayed: nat)
      requires Valid()
      ensures fresh(account)
      ensures account.Current() == A.Fold(Stream(id)) && account.uncommittedEvents == []
      ensures replayed == |Stream(id)| - BaseOf(SnapshotOf(id))
      ensures RecentFor(id) ==> replayed < 50
    {
      account := new AccountAggregate();
      assert FaithfulFor(id);
      var snapshot := SnapshotOf(id);
      if snapshot.Some? {
        account.RestoreSnapshot(snapshot.value.state, snapshot.value.version);
      }
      var events := Tail(Stream(id), BaseOf(snapshot));
      account.LoadFromHistory(events);
      replayed := |events|;
      LoadIsFold(Stream(id), snapshot);
      if RecentFor(id) {
        TailBound(|Stream(id)|, BaseOf(snapshot));
      }
    }

    // Appends the aggregate's new events if nobody has written since it was loaded,
    // and keeps a snapshot when the append crosses a boundary. A batch may hold any
    // number of events.
    method Save(id: string, account: AccountAggregate) returns (ok: bool)
      requires Valid()
      requires |account.uncommittedEvents| <= account.version
      requires var loaded := account.version - |account.uncommittedEvents|;
               && loaded <= |Stream(id)|
               && account.Current() == A.Fold(Stream(id)[..loaded] + Bodies(account.uncommittedEvents))
      modifies this, account
      ensures Valid()
      ensures var batch := old(Bodies(account.uncommittedEvents));
              && (ok <==> batch == [] || old(account.version) - |batch| == |old(Stream(id))|)
              && Stream(id) == (if ok then old(Stream(id)) + batch else old(Stream(id)))
      ensures old(RecentFor(id)) || Crossed(|old(Stream(id))|, |Stream(id)|) ==> RecentFor(id)
      ensures if HoldsMultipleOf50(|old(Stream(id))|, |Stream(id)|)
              then BaseOf(SnapshotOf(id)) >= |Stream(id)|
              else SnapshotOf(id) == old(SnapshotOf(id))
      ensures forall other :: other != id ==>
          Stream(other) == old(Stream(other)) && SnapshotOf(other) == old(SnapshotOf(other))
    {
      var events := account.PullUncommittedEvents();
      if |events| == 0 {
        assert Bodies(events) == [];
        return true;
      }
      var expectedVersion := account.version - |events|;
      if expectedVersion != |Stream(id)| {
        return false;
      }
      ghost var stream, snapshot, batch := Stream(id), SnapshotOf(id), Bodies(events);
      assert stream[..expectedVersion] == stream;
      var state := account.GetSnapshotState();
      assert FaithfulFor(id);
      SaveKeepsSnapshot(stream, batch, snapshot, state);
      streams := streams[id := Stream(id) + Bodies(events)];
      var previousSnapshotBoundary := expectedVersion / SNAPSHOT_INTERVAL;
      var currentSnapshotBoundary := account.version / SNAPSHOT_INTERVAL;
      if currentSnapshotBoundary > previousSnapshotBoundary {
        var current := SnapshotOf(id);
        if current.None? || current.value.version < account.version {
          snapshots := snapshots[id := Snapshot(account.version, state)];
        }
      }
      assert SnapshotOf(id) == SnapshotAfter(snapshot, |stream|, |stream| + |batch|, state);
      forall other ensures FaithfulFor(other) {
        assert other != id ==> old(FaithfulFor(other))
                               && Stream(other) == old(Stream(other)) && SnapshotOf(other) == old(SnapshotOf(other));
      }
      return true;
    }

    // Raises these events on a loaded account.
    method RaiseAll(account: AccountAggregate, ghost stream: seq<A.Event>, events: seq<A.Event>)
      requires account.Current() == A.Fold(stream) && account.uncommittedEvents == []
      modifies account
      ensures account.Current() == A.Fold(stream + events) && Bodies(account.uncommittedEvents) == events
    {
      assert stream + events[..0] == stream;
      for i := 0 to |events|
        invariant Bodies(account.uncommittedEvents) == events[..i]
        invariant account.Current() == A.Fold(stream + events[..i])
      {
        FoldOneMore(stream, events, i);
        account.Apply(Recorded(account.version + 1, events[i]), false);
        assert events[..i+1] == events[..i] + [events[i]];
      }
      assert events[..|events|] == events;
    }

    // Another instance's save of these events, run to completion.
    method CommitElsewhere(id: string, events: seq<A.Event>)
      requires Valid()
      modifies this
      ensures Valid() && Stream(id) == old(Stream(id)) + events
      ensures forall other :: other != id ==> Stream(other) == old(Stream(other))
    {
      var account, _ := GetById(id);
      ghost var stream := Stream(id);
      RaiseAll(account, stream, events);
      assert stream[..|stream|] == stream;
      var ok := Save(id, account);
    }

    method Operate(account: AccountAggregate, id: string, request: Request) returns (r: Result<(), A.Error>)
      modifies account
      ensures Decided(CommandOf(id, request), old(account.Current()), old(account.uncommittedEvents),
                      r, account.Current(), account.uncommittedEvents)
    {
      match request {
        case Create(owner, currency) => r := account.Create(id, owner, currency);
        case Deposit(amount, currency, tx) => r := account.Deposit(amount, currency, tx);
        case Withdraw(amount, currency, tx) => r := account.Withdraw(amount, currency, tx);
        case Freeze(reason) => r := account.Freeze(reason);
      }
    }

    // One attempt: load, decide, save, with another instance's commit before the save.
    method Attempt(id: string, request: Request, between: seq<A.Event>) returns (r: Result<bool, A.Error>)
      requires Valid()
      modifies this
      ensures Valid()
      ensures match A.Decide(A.Fold(old(Stream(id))), CommandOf(id, request))
              case Failure(why) => r == Failure(why) && Stream(id) == old(Stream(id))
              case Success(e) =>
                && r == Success(between == [])
                && Stream(id) == old(Stream(id)) + (if between == [] then [e] else between)
      ensures forall other :: other != id ==> Stream(other) == old(Stream(other))
    {
      var account, _ := GetById(id);
      ghost var stream := Stream(id);
      var decision := Operate(account, id, request);
      if decision.Failure? {
        return Failure(decision.error);
      }
      ghost var e := account.uncommittedEvents[0].event;
      assert Bodies(account.uncommittedEvents) == [e];
      A.FoldSnoc(stream, e);
      CommitElsewhere(id, between);
      assert Stream(id)[..|stream|] == stream;
      assert stream + [] == stream;
      var ok := Save(id, account);
      return Success(ok);
    }

    // Load, decide, save; only a version conflict is retried, at most three times.
    method ExecuteWithRetry(id: string, request: Request, others: seq<seq<A.Event>>) returns (outcome: Outcome)
      requires Valid()
      modifies this
      ensures Valid()
      ensures (Stream(id), outcome) == Retried(old(Stream(id)), Decider(CommandOf(id, request)), others, 1)
      ensures outcome.Committed? ==>
                var s := Stream(id);
                |s| > |old(Stream(id))| && Served(id, request, A.Fold(s[..|s|-1]), s[|s|-1], A.Fold(s))
      ensures outcome.Rejected? ==> Turned(request, A.Fold(Stream(id)), outcome.why)
      ensures forall other :: other != id ==> Stream(other) == old(Stream(other))
    {
      RequestLaw(Stream(id), id, request, others);
      var attempt := 1;
      while attempt <= MAX_WRITE_ATTEMPTS
        invariant 1 <= attempt <= MAX_WRITE_ATTEMPTS + 1 && Valid()
        invariant attempt <= MAX_WRITE_ATTEMPTS ==>
                    Retried(Stream(id), Decider(CommandOf(id, request)), others, attempt)
                      == Retried(old(Stream(id)), Decider(CommandOf(id, request)), others, 1)
        invariant attempt > MAX_WRITE_ATTEMPTS ==>
                    (Stream(id), Conflict) == Retried(old(Stream(id)), Decider(CommandOf(id, request)), others, 1)
        invariant forall other :: other != id ==> Stream(other) == old(Stream(other))
      {
        var r := Attempt(id, request, Between(others, attempt));
        if r.Failure? {
          return Rejected(r.error);
        }
        if r.value {
          return Committed;
        }
        attempt := attempt + 1;
      }
      outcome := Conflict;
    }
  }
}
