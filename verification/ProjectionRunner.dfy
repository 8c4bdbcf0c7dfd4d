// Rebuilding read models from the event store: the paged replay of the global log,
// and the rebuild of one account from its own stream.
module ProjectionRunners {
  import opened AccountProjectors
  import opened AccountReadModel
  import opened EventStores
  import opened ProjectionReplay
  import opened Wrappers
  import A = Accounts
  import T = Transfers
  import TP = TransferProjectors

  const PAGE_SIZE := 1000

  function AccountStream(id: string): string { "account-" + id }

  function TransferStream(id: string): string { "transfer-" + id }

  // An event's data names the entity of its stream.
  predicate Addressed(entry: Logged<Body>) {
    match entry.event.body
    case OfAccount(id, _) => entry.streamId == AccountStream(id)
    case OfTransfer(id, _) => entry.streamId == TransferStream(id)
  }

  lemma StreamNamesDiffer(a: string, b: string)
    ensures AccountStream(a) == AccountStream(b) ==> a == b
    ensures AccountStream(a) != TransferStream(b)
  {
    if AccountStream(a) == AccountStream(b) {
      assert AccountStream(a)[8..] == a && AccountStream(b)[8..] == b;
    }
    assert AccountStream(a)[0] == 'a' && TransferStream(b)[0] == 't';
  }

  // Whatever characters an id contains, its stream's messages go to the one topic of
  // account events or of transfer events.
  lemma StreamTopics(id: string)
    ensures TopicForStream(AccountStream(id)) == "account-events"
    ensures TopicForStream(TransferStream(id)) == "transfer-events"
  {
    TopicOfPrefixed("account", id);
    TopicOfPrefixed("transfer", id);
    assert "account" + "-" + id == AccountStream(id) && "transfer" + "-" + id == TransferStream(id);
    assert "account" + "-events" == "account-events" && "transfer" + "-events" == "transfer-events";
  }

  // What the account projector is given of a stream: it ignores other events.
  function StreamPart(stream: seq<Recorded<Body>>): seq<Stored> {
    if stream == [] then []
    else
      var last := stream[|stream|-1];
      StreamPart(stream[..|stream|-1])
        + (if last.body.OfAccount?
           then [Stored(last.eventId, last.body.accountId, last.streamVersion, last.body.account)] else [])
  }

  // The log delivers of an account exactly what its own stream holds.
  lemma {:induction false} PartIsStream(entries: seq<Logged<Body>>, id: string)
    requires forall i :: 0 <= i < |entries| ==> Addressed(entries[i])
    ensures var stream, part := OfStream(entries, AccountStream(id)), AccountPart(entries, id);
            && part == StreamPart(stream) && |part| == |stream|
            && forall i :: 0 <= i < |part| ==> part[i].accountId == id && part[i].version == stream[i].streamVersion
    decreases |entries|
  {
    if entries != [] {
      var n := |entries| - 1;
      PartIsStream(entries[..n], id);
      var body := entries[n].event.body;
      StreamNamesDiffer(id, if body.OfAccount? then body.accountId else body.transferId);
      var before, stream := OfStream(entries[..n], AccountStream(id)), OfStream(entries, AccountStream(id));
      if entries[n].streamId == AccountStream(id) {
        assert stream[..|stream|-1] == before && stream[|stream|-1] == entries[n].event;
      } else {
        assert stream == before;
      }
    }
  }

  predicate AllOf(stream: seq<Recorded<Body>>, id: string) {
    forall i :: 0 <= i < |stream| ==> stream[i].body.OfAccount? && stream[i].body.accountId == id
  }

  lemma {:induction false} StreamNamesItsAccount(entries: seq<Logged<Body>>, id: string)
    requires forall i :: 0 <= i < |entries| ==> Addressed(entries[i])
    ensures AllOf(OfStream(entries, AccountStream(id)), id)
    decreases |entries|
  {
    if entries != [] {
      var n := |entries| - 1;
      StreamNamesItsAccount(entries[..n], id);
      var body := entries[n].event.body;
      StreamNamesDiffer(id, if body.OfAccount? then body.accountId else body.transferId);
      var before, stream := OfStream(entries[..n], AccountStream(id)), OfStream(entries, AccountStream(id));
      assert AllOf(before, id);
      assert stream == before || stream == before + [entries[n].event];
    }
  }

  function EventsOf(part: seq<Stored>): seq<A.Event> { seq(|part|, i requires 0 <= i < |part| => part[i].event) }

  function IdsOf(part: seq<Stored>): seq<string> { seq(|part|, i requires 0 <= i < |part| => part[i].eventId) }

  predicate DistinctIds(entries: seq<Logged<Body>>) {
    forall i, j :: 0 <= i < j < |entries| ==> entries[i].event.eventId != entries[j].event.eventId
  }

  lemma {:induction false} PartIdsAreDistinct(entries: seq<Logged<Body>>, id: string)
    requires DistinctIds(entries)
    ensures Distinct(IdsOf(AccountPart(entries, id)))
    ensures forall i :: 0 <= i < |AccountPart(entries, id)| ==>
              exists k :: 0 <= k < |entries| && entries[k].event.eventId == AccountPart(entries, id)[i].eventId
    decreases |entries|
  {
    if entries != [] {
      var n := |entries| - 1;
      PartIdsAreDistinct(entries[..n], id);
      var before, part := AccountPart(entries[..n], id), AccountPart(entries, id);
      assert before <= part;
      forall i | 0 <= i < |before|
        ensures exists k :: 0 <= k < n && entries[k].event.eventId == part[i].eventId
      {
        var k :| 0 <= k < |entries[..n]| && entries[..n][k].event.eventId == before[i].eventId;
        assert entries[k].event.eventId == part[i].eventId;
      }
      if |part| > |before| {
        assert part[|before|].eventId == entries[n].event.eventId;
        forall i | 0 <= i < |before| ensures part[i].eventId != entries[n].event.eventId {
          var k :| 0 <= k < n && entries[k].event.eventId == part[i].eventId;
        }
      }
      assert forall i :: 0 <= i < |before| ==> IdsOf(before)[i] == IdsOf(part)[i];
    }
  }

  // A log that the aggregates and the event store can have written.
  ghost predicate Lawful(log: Log<Body>) {
    && Consistent(log) && DistinctIds(log.all)
    && (forall i :: 0 <= i < |log.all| ==> Addressed(log.all[i]))
    && (forall id :: AccountPart(log.all, id) != [] ==> id != "" && A.Accepted(id, EventsOf(AccountPart(log.all, id))))
    && (forall id :: TransferPart(log.all, id).0 != [] ==> id != "" && T.Accepted(id, TransferPart(log.all, id).0))
  }

  lemma PartIsDeliveries(log: Log<Body>, id: string)
    requires Lawful(log)
    ensures var part := AccountPart(log.all, id);
            Distinct(IdsOf(part)) && part == Deliveries(id, EventsOf(part), IdsOf(part))
    ensures AccountPart(log.all, id) == StreamPart(log.Stream(AccountStream(id)))
  {
    PartIsStream(log.all, id);
    PartIdsAreDistinct(log.all, id);
    NumberedPart(AccountPart(log.all, id), log.Stream(AccountStream(id)), id);
  }

  lemma NumberedPart(part: seq<Stored>, stream: seq<Recorded<Body>>, id: string)
    requires |part| == |stream| && forall i :: 0 <= i < |stream| ==> stream[i].streamVersion == i + 1
    requires forall i :: 0 <= i < |part| ==> part[i].accountId == id && part[i].version == stream[i].streamVersion
    ensures part == Deliveries(id, EventsOf(part), IdsOf(part))
  {
    forall i | 0 <= i < |part| ensures part[i] == Deliveries(id, EventsOf(part), IdsOf(part))[i] {
      assert stream[i].streamVersion == i + 1;
    }
  }

  // An accepted transfer stream can always be projected from nothing.
  lemma {:induction false} TransferStreamsSucceed(es: seq<T.Event>, times: seq<int>)
    requires |times| == |es| && (es != [] ==> es[0].TransferInitiated?)
    ensures TP.Replayed(None, es, times).Success?
    ensures es != [] ==> TP.Replayed(None, es, times).value.Some?
    decreases |es|
  {
    if es != [] {
      TransferStreamsSucceed(es[..|es|-1], times[..|es|-1]);
    }
  }

  // Every account stream is empty or begins with AccountCreated.
  ghost predicate AllCreatedFirst(all: seq<Logged<Body>>) {
    forall id :: AccountPart(all, id) != [] ==> AccountPart(all, id)[0].event.AccountCreated?
  }

  // The account's view of its own events.
  function Expected(all: seq<Logged<Body>>, id: string): Local {
    var part := AccountPart(all, id);
    LocalAt(EventsOf(part), IdsOf(part), |part|)
  }

  lemma AccountAlone(log: Log<Body>, id: string)
    requires Lawful(log)
    ensures var part := AccountPart(log.all, id);
            && (ReplayedLocal(NOTHING_YET, part).Success? <==> part == [] || part[0].event.AccountCreated?)
            && (ReplayedLocal(NOTHING_YET, part).Success? ==>
                  ReplayedLocal(NOTHING_YET, part) == Success(Expected(log.all, id)))
  {
    var part := AccountPart(log.all, id);
    PartIsDeliveries(log, id);
    if part != [] {
      OwnStreamSucceedsIff(id, EventsOf(part), IdsOf(part));
    } else {
      assert LocalAt([], [], 0) == NOTHING_YET;
    }
  }

  lemma StreamAlone(log: Log<Body>, id: string)
    requires Lawful(log)
    ensures var part, stream := AccountPart(log.all, id), log.Stream(AccountStream(id));
            var replayed := ReplayedLocal(NOTHING_YET, StreamPart(stream));
            && (replayed.Success? <==> part == [] || part[0].event.AccountCreated?)
            && (replayed.Success? ==> replayed == Success(Expected(log.all, id)))
            && AllOf(stream, id)
  {
    PartIsDeliveries(log, id);
    AccountAlone(log, id);
    StreamNamesItsAccount(log.all, id);
    assert log.Stream(AccountStream(id)) == OfStream(log.all, AccountStream(id));
  }

  // Replaying a lawful log onto empty read models raises no error if and only if
  // every account stream begins with AccountCreated.
  lemma ReplaySucceedsIff(log: Log<Body>)
    requires Lawful(log)
    ensures VisitAll(EMPTY, log.all).1.None? <==> AllCreatedFirst(log.all)
  {
    if VisitAll(EMPTY, log.all).1.None? {
      forall id ensures AccountPart(log.all, id) != [] ==> AccountPart(log.all, id)[0].event.AccountCreated? {
        EachGetsItsOwn(EMPTY, log.all, id, "");
        AccountAlone(log, id);
      }
    } else if AllCreatedFirst(log.all) {
      forall id
        ensures ReplayedLocal(LocalOf(EMPTY.accounts, id), AccountPart(log.all, id)).Success?
        ensures TP.Replayed(EMPTY.Transfer(id), TransferPart(log.all, id).0, TransferPart(log.all, id).1).Success?
      {
        AccountAlone(log, id);
        var (es, times) := TransferPart(log.all, id);
        if es != [] {
          TP.AcceptedIsBegun(id, es);
        }
        TransferStreamsSucceed(es, times);
      }
      InterleavingSucceeds(EMPTY, log.all);
    }
  }

  // Then each account shows its aggregate and a whole statement, and each transfer
  // whose times do not decrease shows its aggregate.
  lemma ReplayGivesTheFolds(log: Log<Body>, account: string, transfer: string)
    requires Lawful(log) && AllCreatedFirst(log.all)
    ensures var after := VisitAll(EMPTY, log.all).0;
            var (es, times) := TransferPart(log.all, transfer);
            && LocalOf(after.accounts, account) == Expected(log.all, account)
            && (es != [] && TP.NonDecreasing(times) ==>
                  TP.Begun(es) && after.Transfer(transfer) == Some(TP.RowAt(es, times, |es|)))
  {
    ReplaySucceedsIff(log);
    EachGetsItsOwn(EMPTY, log.all, account, transfer);
    AccountAlone(log, account);
    var (es, times) := TransferPart(log.all, transfer);
    if es != [] && TP.NonDecreasing(times) {
      TP.AcceptedIsBegun(transfer, es);
      assert es[..|es|] == es && times[..|es|] == times;
      TP.InOrder(es, times, |es|);
    }
  }

  // So the statement a replay gives tells the account's events, line by line, and adds up
  // to the aggregate's balance after each of them; the summary is the aggregate.
  lemma ReplayShowsTheLedger(log: Log<Body>, account: string, v: nat)
    requires Lawful(log) && AllCreatedFirst(log.all) && v <= |AccountPart(log.all, account)|
    ensures var after, part := VisitAll(EMPTY, log.all).0.accounts, AccountPart(log.all, account);
            var xs, events := after.Statement(account), EventsOf(part);
            && |xs| == |part| && IsStatement(xs, IdsOf(part), events)
            && PaidIn(xs[..v]) - PaidOut(xs[..v]) == A.Fold(events[..v]).balance
            && (part != [] ==>
                  && account in after.summaries
                  && (var row, st := after.summaries[account], A.Fold(events);
                      && st.ownerId == Some(row.owner) && st.currency == Some(row.currency)
                      && row.status == st.status && row.balance == st.balance && row.version == |part|))
  {
    ReplayGivesTheFolds(log, account, "");
    LedgerOf(AccountPart(log.all, account), v);
    if AccountPart(log.all, account) != [] {
      SummaryAtEnd(AccountPart(log.all, account));
    }
  }

  lemma LedgerOf(part: seq<Stored>, v: nat)
    requires v <= |part|
    ensures var xs, events := LocalAt(EventsOf(part), IdsOf(part), |part|).statement, EventsOf(part);
            && |xs| == |part| && IsStatement(xs, IdsOf(part), events)
            && PaidIn(xs[..v]) - PaidOut(xs[..v]) == A.Fold(events[..v]).balance
  {
    var xs, events := LocalAt(EventsOf(part), IdsOf(part), |part|).statement, EventsOf(part);
    forall k | 0 <= k < |xs| ensures Tells(xs[k], IdsOf(part)[k], k + 1, events[k]) {
      EntryTells(IdsOf(part)[k], k + 1, events[k]);
    }
    StatementAddsUp(xs, IdsOf(part), events, v);
  }

  lemma SummaryAtEnd(part: seq<Stored>)
    requires part != [] && part[0].event.AccountCreated?
    ensures var local, st := LocalAt(EventsOf(part), IdsOf(part), |part|), A.Fold(EventsOf(part));
            && local.row.Some?
            && st.ownerId == Some(local.row.value.owner) && st.currency == Some(local.row.value.currency)
            && local.row.value.status == st.status && local.row.value.balance == st.balance
            && local.row.value.version == |part|
  {
    var events := EventsOf(part);
    assert events[..|events|] == events;
    CreatedFirst(events, |events|);
  }

  // ---- The runner ----

  // The entries past a position.
  function Rest(all: seq<Logged<Body>>, position: nat): seq<Logged<Body>> {
    if position <= |all| then all[position..] else []
  }

  // Visiting one page and then the rest is visiting everything.
  lemma {:induction false} VisitAllSplit(views: Views, page: seq<Logged<Body>>, rest: seq<Logged<Body>>)
    ensures var (after, error) := VisitAll(views, page);
            VisitAll(views, page + rest) == (if error.Some? then (after, error) else VisitAll(after, rest))
    decreases |rest|
  {
    if rest == [] {
      assert page + rest == page;
    } else {
      var n := |rest| - 1;
      VisitAllSplit(views, page, rest[..n]);
      var all := page + rest;
      assert all[..|all|-1] == page + rest[..n] && all[|all|-1] == rest[n];
      var (after, error) := VisitAll(views, page);
      calc {
        VisitAll(views, all);
        VisitNext(VisitAll(views, page + rest[..n]), rest[n]);
        VisitNext(if error.Some? then (after, error) else VisitAll(after, rest[..n]), rest[n]);
        if error.Some? then (after, error) else VisitAll(after, rest);
      }
    }
  }

  // The entries of a page follow its position, and the rest follows the last of them.
  lemma PageThenRest(all: seq<Logged<Body>>, position: nat, max: nat)
    requires max > 0
    ensures var page := Page(all, position, max);
            && Rest(all, position) == page + Rest(all, position + |page|)
            && (page == [] <==> position >= |all|)
            && (page != [] ==> position + |page| <= |all| && page[|page|-1] == all[position+|page|-1])
  {
  }

  lemma PageStep(views: Views, all: seq<Logged<Body>>, position: nat, max: nat)
    requires max > 0 && Page(all, position, max) != []
    ensures var page := Page(all, position, max);
            var visited := VisitAll(views, page);
            VisitAll(views, Rest(all, position)) ==
              (if visited.1.Some? then visited else VisitAll(visited.0, Rest(all, position + |page|)))
  {
    PageThenRest(all, position, max);
    VisitAllSplit(views, Page(all, position, max), Rest(all, position + |Page(all, position, max)|));
  }

  // The position of a page's last entry is where the next page begins.
  lemma PageLeads(views: Views, all: seq<Logged<Body>>, position: nat, page: seq<Logged<Body>>)
    requires forall i :: 0 <= i < |all| ==> all[i].position == i + 1
    requires page == Page(all, position, PAGE_SIZE)
    ensures page == [] <==> position >= |all|
    ensures page != [] ==>
              var next, visited := page[|page|-1].position, VisitAll(views, page);
              && position < next <= |all|
              && VisitAll(views, Rest(all, position)) ==
                   (if visited.1.Some? then visited else VisitAll(visited.0, Rest(all, next)))
  {
    PageThenRest(all, position, PAGE_SIZE);
    if page != [] {
      PageStep(views, all, position, PAGE_SIZE);
      assert page[|page|-1] == all[position+|page|-1];
    }
  }

  lemma ProjectedIsLocal(rows: Rows, e: Stored, id: string)
    ensures var r := Projected(rows, e);
            && (r.Success? <==> ProjectedLocal(LocalOf(rows, e.accountId), e).Success?)
            && (r.Success? ==>
                  LocalOf(r.value, id) ==
                    (if id == e.accountId then ProjectedLocal(LocalOf(rows, id), e).value else LocalOf(rows, id)))
  {
  }

  lemma StreamPartSnoc(stream: seq<Recorded<Body>>, k: nat)
    requires k < |stream|
    ensures var e := stream[k];
            StreamPart(stream[..k+1]) ==
              if e.body.OfAccount?
              then StreamPart(stream[..k]) + [Stored(e.eventId, e.body.accountId, e.streamVersion, e.body.account)]
              else StreamPart(stream[..k])
  {
    assert stream[..k+1][..k] == stream[..k];
  }

  lemma ReplayedLocalNext(local: Local, part: seq<Stored>, e: Stored)
    requires ReplayedLocal(local, part).Success?
    ensures ReplayedLocal(local, part + [e]) == ProjectedLocal(ReplayedLocal(local, part).value, e)
  {
    assert (part + [e])[..|part|] == part;
  }

  lemma StreamStep(local: Local, stream: seq<Recorded<Body>>, k: nat)
    requires k < |stream| && ReplayedLocal(local, StreamPart(stream[..k])).Success?
    ensures var e, before := stream[k], ReplayedLocal(local, StreamPart(stream[..k]));
            ReplayedLocal(local, StreamPart(stream[..k+1])) ==
              if e.body.OfAccount?
              then ProjectedLocal(before.value, Stored(e.eventId, e.body.accountId, e.streamVersion, e.body.account))
              else before
  {
    StreamPartSnoc(stream, k);
    var e := stream[k];
    if e.body.OfAccount? {
      ReplayedLocalNext(local, StreamPart(stream[..k]),
          Stored(e.eventId, e.body.accountId, e.streamVersion, e.body.account));
    }
  }

  lemma StreamFailureStays(local: Local, stream: seq<Recorded<Body>>, k: nat)
    requires k <= |stream| && ReplayedLocal(local, StreamPart(stream[..k])).Failure?
    ensures ReplayedLocal(local, StreamPart(stream)).Failure?
  {
    var part, whole := StreamPart(stream[..k]), StreamPart(stream);
    StreamPartPrefix(stream, k);
    assert whole[..|part|] == part;
    LocalFailureStays(local, whole, |part|);
  }

  lemma {:induction false} StreamPartPrefix(stream: seq<Recorded<Body>>, k: nat)
    requires k <= |stream|
    ensures StreamPart(stream[..k]) <= StreamPart(stream)
    decreases |stream|
  {
    if k == |stream| {
      assert stream[..k] == stream;
    } else {
      StreamPartPrefix(stream[..|stream|-1], k);
      assert stream[..|stream|-1][..k] == stream[..k];
    }
  }

  class ProjectionRunner {
    const store: InMemoryEventStore<Body>
    const accounts: InMemoryAccountReadModel
    const transfers: TP.InMemoryTransferReadModel

    constructor (store: InMemoryEventStore<Body>, accounts: InMemoryAccountReadModel,
        transfers: TP.InMemoryTransferReadModel)
      ensures this.store == store && this.accounts == accounts && this.transfers == transfers
    {
      this.store, this.accounts, this.transfers := store, accounts, transfers;
    }

    function Shown(): Views
      reads accounts, transfers
    {
      Views(accounts.Contents(), transfers.summaries)
    }

    method VisitOne(entry: Logged<Body>) returns (r: Option<Error>)
      modifies accounts, transfers
      ensures match Visit(old(Shown()), entry)
              case Success(views) => r == None && Shown() == views
              case Failure(why) => r == Some(why) && Shown() == old(Shown())
    {
      r := None;
      match entry.event.body {
        case OfAccount(_, _) =>
          var projector := new AccountProjector(accounts);
          var projected := projector.Project(Delivered(entry));
          if projected.Failure? {
            r := Some(AccountError(projected.error));
          }
        case OfTransfer(id, e) =>
          var projected := transfers.Project(id, e, entry.event.occurredAt);
          if projected.Failure? {
            r := Some(TransferError(projected.error));
          }
      }
    }

    // One page, entry by entry.
    method VisitPage(page: seq<Logged<Body>>) returns (r: Option<Error>)
      modifies accounts, transfers
      ensures (Shown(), r) == VisitAll(old(Shown()), page)
    {
      r := None;
      ghost var before := Shown();
      for i := 0 to |page|
        invariant r.None? && VisitAll(before, page) == VisitAll(Shown(), page[i..])
      {
        ghost var here := Shown();
        VisitAllSplit(here, [page[i]], page[i+1..]);
        assert page[i..] == [page[i]] + page[i+1..];
        assert [page[i]][..0] == [];
        r := VisitOne(page[i]);
        if r.Some? {
          return;
        }
      }
    }

    // Page after page, every entry past the position is visited once, in order,
    // until the log is exhausted or a projector raises an error.
    method ReplayFrom(position: nat) returns (r: Option<Error>, checkpoint: nat)
      requires Consistent(store.Contents())
      modifies accounts, transfers
      ensures (Shown(), r) == VisitAll(old(Shown()), Rest(store.allEvents, position))
      ensures r.None? ==> checkpoint == if position <= |store.allEvents| then |store.allEvents| else position
    {
      ghost var all := store.allEvents;
      ghost var goal := VisitAll(Shown(), Rest(all, position));
      checkpoint := position;
      var hasMore := true;
      while hasMore
        invariant Consistent(store.Contents()) && store.allEvents == all
        invariant checkpoint == position || position < checkpoint <= |all|
        invariant VisitAll(Shown(), Rest(all, checkpoint)) == goal
        invariant !hasMore ==> checkpoint >= |all|
        decreases hasMore, |all| - checkpoint
      {
        var events := store.ReadAll(checkpoint, PAGE_SIZE);
        PageLeads(Shown(), all, checkpoint, events);
        if |events| == 0 {
          hasMore := false;
          break;
        }
        r := VisitPage(events);
        if r.Some? {
          return;
        }
        checkpoint := events[|events|-1].position;
      }
      r := None;
    }

    method RebuildAll() returns (r: Option<Error>)
      requires Consistent(store.Contents())
      modifies accounts, transfers
      ensures (Shown(), r) == VisitAll(EMPTY, store.allEvents)
    {
      accounts.ResetAll();
      transfers.ResetAll();
      assert Shown() == EMPTY && Rest(store.allEvents, 0) == store.allEvents;
      var error, _ := ReplayFrom(0);
      return error;
    }

    // The account's own events, one after another.
    method ProjectStream(id: string, events: seq<Recorded<Body>>) returns (r: Option<Error>)
      requires forall i :: 0 <= i < |events| && events[i].body.OfAccount? ==> events[i].body.accountId == id
      modifies accounts
      ensures var replayed := ReplayedLocal(old(LocalOf(accounts.Contents(), id)), StreamPart(events));
              && (r.None? <==> replayed.Success?)
              && (r.None? ==> replayed == Success(LocalOf(accounts.Contents(), id)))
      ensures forall other :: other != id ==>
                LocalOf(accounts.Contents(), other) == old(LocalOf(accounts.Contents(), other))
    {
      ghost var before, rows := LocalOf(accounts.Contents(), id), accounts.Contents();
      for i := 0 to |events|
        invariant ReplayedLocal(before, StreamPart(events[..i])) == Success(LocalOf(accounts.Contents(), id))
        invariant forall other :: other != id ==> LocalOf(accounts.Contents(), other) == LocalOf(rows, other)
      {
        StreamStep(before, events, i);
        if events[i].body.OfAccount? {
          r := ProjectEvent(Stored(events[i].eventId, events[i].body.accountId, events[i].streamVersion,
              events[i].body.account));
          if r.Some? {
            StreamFailureStays(before, events, i + 1);
            return;
          }
        }
      }
      assert events[..|events|] == events;
      r := None;
    }

    method ProjectEvent(e: Stored) returns (r: Option<Error>)
      modifies accounts
      ensures var projected := ProjectedLocal(old(LocalOf(accounts.Contents(), e.accountId)), e);
              && (r.None? <==> projected.Success?)
              && (r.None? ==> projected == Success(LocalOf(accounts.Contents(), e.accountId)))
      ensures forall other :: other != e.accountId ==>
                LocalOf(accounts.Contents(), other) == old(LocalOf(accounts.Contents(), other))
    {
      ghost var rows := accounts.Contents();
      forall id | id != e.accountId && Projected(rows, e).Success?
        ensures LocalOf(Projected(rows, e).value, id) == LocalOf(rows, id)
      {
        ProjectedIsLocal(rows, e, id);
      }
      ProjectedIsLocal(rows, e, e.accountId);
      var projector := new AccountProjector(accounts);
      var projected := projector.Project(e);
      r := if projected.Failure? then Some(AccountError(projected.error)) else None;
    }

    // From any contents of the read model: the account's rows become what its own
    // stream gives an empty model, and no other account's rows change.
    method RebuildAccount(id: string) returns (r: Option<Error>)
      requires Lawful(store.Contents())
      modifies accounts
      ensures var part := AccountPart(store.allEvents, id);
              && (r.None? <==> part == [] || part[0].event.AccountCreated?)
              && (r.None? ==> LocalOf(accounts.Contents(), id) == Expected(store.allEvents, id))
      ensures forall other :: other != id ==>
                LocalOf(accounts.Contents(), other) == old(LocalOf(accounts.Contents(), other))
    {
      StreamAlone(store.Contents(), id);
      r := ResetAndProject(id);
    }

    method ResetAndProject(id: string) returns (r: Option<Error>)
      requires Consistent(store.Contents()) && AllOf(store.Contents().Stream(AccountStream(id)), id)
      modifies accounts
      ensures var replayed := ReplayedLocal(NOTHING_YET, StreamPart(store.Contents().Stream(AccountStream(id))));
              && (r.None? <==> replayed.Success?)
              && (r.None? ==> replayed == Success(LocalOf(accounts.Contents(), id)))
      ensures forall other :: other != id ==>
                LocalOf(accounts.Contents(), other) == old(LocalOf(accounts.Contents(), other))
    {
      accounts.ResetAccount(id);
      var events := store.ReadStream(AccountStream(id), 0);
      r := ProjectStream(id, events);
    }
  }
}
