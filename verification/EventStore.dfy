// The event store: one append-only sequence per stream, one global log, and an
// outbox message for every appended event.
module EventStores {
  import opened Outboxes
  import opened Sorting
  import opened Wrappers

  datatype NewEvent<E> = NewEvent(eventId: string, occurredAt: int, body: E)

  datatype Recorded<E> = Recorded(eventId: string, occurredAt: int, body: E, streamVersion: nat)

  datatype Logged<E> = Logged(position: nat, streamId: string, event: Recorded<E>)

  datatype Log<E> = Log(streams: map<string, seq<Recorded<E>>>, all: seq<Logged<E>>)
  {
    function Stream(id: string): seq<Recorded<E>> { if id in streams then streams[id] else [] }
  }

  // The events of a batch with the versions they get.
  function Numbered<E>(events: seq<NewEvent<E>>, base: nat): seq<Recorded<E>> {
    seq(|events|, i requires 0 <= i < |events| =>
      Recorded(events[i].eventId, events[i].occurredAt, events[i].body, base + i + 1))
  }

  function Positioned<E>(id: string, events: seq<Recorded<E>>, base: nat): seq<Logged<E>> {
    seq(|events|, i requires 0 <= i < |events| => Logged(base + i + 1, id, events[i]))
  }

  function Appended<E>(log: Log<E>, id: string, events: seq<NewEvent<E>>, expectedVersion: nat): Log<E> {
    var current := log.Stream(id);
    if expectedVersion != |current| then log
    else
      var added := Numbered(events, |current|);
      Log(log.streams[id := current + added], log.all + Positioned(id, added, |log.all|))
  }

  // The text before the first '-'.
  function Head(id: string): string { if id == "" || id[0] == '-' then "" else [id[0]] + Head(id[1..]) }

  function TopicForStream(id: string): string { Head(id) + "-events" }

  function MessagesFor<E>(id: string, events: seq<Recorded<E>>): seq<Message<Recorded<E>>> {
    seq(|events|, i requires 0 <= i < |events| =>
      Message(events[i].eventId, TopicForStream(id), id, events[i], events[i].occurredAt, None, 0, None, None))
  }

  // ---- Streams and log ----

  // What the log holds of a stream.
  function OfStream<E>(all: seq<Logged<E>>, id: string): seq<Recorded<E>> {
    if all == [] then []
    else OfStream(all[..|all|-1], id) + (if all[|all|-1].streamId == id then [all[|all|-1].event] else [])
  }

  // Streams are numbered 1..n, the log 1..N, and each stream is the log restricted
  // to its appends.
  ghost predicate Consistent<E>(log: Log<E>) {
    && (forall i :: 0 <= i < |log.all| ==> log.all[i].position == i + 1)
    && (forall id, i :: 0 <= i < |log.Stream(id)| ==> log.Stream(id)[i].streamVersion == i + 1)
    && (forall id :: log.Stream(id) == OfStream(log.all, id))
  }

  lemma {:induction false} OfStreamGrows<E>(all: seq<Logged<E>>, id: string, added: seq<Recorded<E>>, base: nat,
      other: string)
    ensures OfStream(all + Positioned(id, added, base), other) ==
        OfStream(all, other) + (if id == other then added else [])
    decreases |added|
  {
    var more := Positioned(id, added, base);
    if added == [] {
      assert all + more == all;
    } else {
      var n := |added| - 1;
      OfStreamGrows(all, id, added[..n], base, other);
      assert (all + more)[..|all|+n] == all + Positioned(id, added[..n], base);
      assert (all + more)[|all|+n] == Logged(base + n + 1, id, added[n]);
      assert added == added[..n] + [added[n]];
    }
  }

  lemma AppendKeepsConsistent<E>(log: Log<E>, id: string, events: seq<NewEvent<E>>, expectedVersion: nat)
    requires Consistent(log)
    ensures Consistent(Appended(log, id, events, expectedVersion))
  {
    var log' := Appended(log, id, events, expectedVersion);
    if expectedVersion == |log.Stream(id)| {
      forall other ensures log'.Stream(other) == OfStream(log'.all, other) {
        OfStreamGrows(log.all, id, Numbered(events, expectedVersion), |log.all|, other);
      }
      AppendNumbers(log, id, events);
    }
  }

  lemma AppendNumbers<E>(log: Log<E>, id: string, events: seq<NewEvent<E>>)
    requires forall other, i :: 0 <= i < |log.Stream(other)| ==> log.Stream(other)[i].streamVersion == i + 1
    ensures var log' := Appended(log, id, events, |log.Stream(id)|);
            forall other, i :: 0 <= i < |log'.Stream(other)| ==> log'.Stream(other)[i].streamVersion == i + 1
  {
    var log' := Appended(log, id, events, |log.Stream(id)|);
    var n := |log.Stream(id)|;
    forall other, i | 0 <= i < |log'.Stream(other)| ensures log'.Stream(other)[i].streamVersion == i + 1 {
      assert log'.Stream(other)[i] == if other == id && i >= n then Numbered(events, n)[i-n] else log.Stream(other)[i];
    }
  }

  // The recorded event is the new one with this version.
  ghost predicate Records<E>(r: Recorded<E>, e: NewEvent<E>, version: nat) {
    r.eventId == e.eventId && r.occurredAt == e.occurredAt && r.body == e.body && r.streamVersion == version
  }

  // The message brings the recorded event, unpublished and untried, under the event's id
  // to the stream's topic, with the stream as its key.
  ghost predicate Brings<E>(m: Message<Recorded<E>>, r: Recorded<E>, id: string) {
    && m.id == r.eventId && m.payload == r && m.key == id && m.topic == TopicForStream(id)
    && m.createdAt == r.occurredAt && m.position.None?
    && m.attempts == 0 && m.publishedAt.None? && m.lastError.None?
  }

  // An append at the current version adds exactly the batch, in order, to its stream and
  // to the log, and one message for each event; at any other version it adds nothing.
  lemma AppendAdds<E>(log: Log<E>, id: string, events: seq<NewEvent<E>>, expectedVersion: nat)
    ensures var log', n := Appended(log, id, events, expectedVersion), |log.Stream(id)|;
            if expectedVersion != n then log' == log
            else
              && |log'.Stream(id)| == n + |events| && log'.Stream(id)[..n] == log.Stream(id)
              && |log'.all| == |log.all| + |events| && log'.all[..|log.all|] == log.all
              && (forall other :: other != id ==> log'.Stream(other) == log.Stream(other))
              && (forall i :: 0 <= i < |events| ==>
                    && Records(log'.Stream(id)[n+i], events[i], n + i + 1)
                    && log'.all[|log.all|+i] == Logged(|log.all| + i + 1, id, log'.Stream(id)[n+i]))
              && (var added := log'.Stream(id)[n..];
                  |MessagesFor(id, added)| == |added|
                  && forall i :: 0 <= i < |added| ==> Brings(MessagesFor(id, added)[i], added[i], id))
              && Numbered(events, n) == log'.Stream(id)[n..]
  {
  }

  // Every account stream has the one topic, whatever characters its id contains.
  lemma {:induction false} TopicOfPrefixed(prefix: string, rest: string)
    requires forall i :: 0 <= i < |prefix| ==> prefix[i] != '-'
    ensures Head(prefix + "-" + rest) == prefix && TopicForStream(prefix + "-" + rest) == prefix + "-events"
    decreases |prefix|
  {
    var id := prefix + "-" + rest;
    if prefix == "" {
      assert id[0] == '-';
    } else {
      TopicOfPrefixed(prefix[1..], rest);
      assert id[1..] == prefix[1..] + "-" + rest;
      assert prefix == [prefix[0]] + prefix[1..];
    }
  }

  // ---- Reading ----

  // On a numbered log, the first maxCount entries past a position are a slice.
  function Page<E>(all: seq<Logged<E>>, fromPosition: nat, maxCount: nat): seq<Logged<E>> {
    if fromPosition >= |all| then []
    else if fromPosition + maxCount >= |all| then all[fromPosition..]
    else all[fromPosition..fromPosition+maxCount]
  }

  class InMemoryEventStore<E(==)> {
    var streams: map<string, seq<Recorded<E>>>
    var allEvents: seq<Logged<E>>
    const outboxStore: InMemoryOutboxStore<Recorded<E>>

    function Contents(): Log<E>
      reads this
    {
      Log(streams, allEvents)
    }

    constructor (outboxStore: InMemoryOutboxStore<Recorded<E>>)
      ensures this.outboxStore == outboxStore && Contents() == Log(map[], []) && Consistent(Contents())
    {
      this.outboxStore := outboxStore;
      streams, allEvents := map[], [];
    }

    method Append(id: string, events: seq<NewEvent<E>>, expectedVersion: nat) returns (ok: bool)
      requires Consistent(Contents())
      modifies this, outboxStore
      ensures ok <==> expectedVersion == |old(Contents()).Stream(id)|
      ensures Contents() == Appended(old(Contents()), id, events, expectedVersion) && Consistent(Contents())
      ensures outboxStore.Contents() ==
                (if !ok then old(outboxStore.Contents())
                 else old(outboxStore.Contents()).(messages :=
                   Staged(old(outboxStore.messages), MessagesFor(id, Numbered(events, expectedVersion)))))
      ensures var n := |old(Contents()).Stream(id)|;
              ok ==> forall i :: 0 <= i < |events| ==>
                       n + i < |Contents().Stream(id)| && Records(Contents().Stream(id)[n+i], events[i], n + i + 1)
    {
      AppendKeepsConsistent(Contents(), id, events, expectedVersion);
      var current := if id in streams then streams[id] else [];
      var currentVersion := |current|;
      if expectedVersion != currentVersion {
        return false;
      }
      var appended := Numbered(events, currentVersion);
      streams := streams[id := current + appended];
      PushAll(id, appended);
      outboxStore.Stage(MessagesFor(id, appended));
      return true;
    }

    // The appended events enter the global log one by one.
    method PushAll(id: string, appended: seq<Recorded<E>>)
      modifies this`allEvents
      ensures allEvents == old(allEvents) + Positioned(id, appended, |old(allEvents)|)
    {
      for i := 0 to |appended|
        invariant allEvents == old(allEvents) + Positioned(id, appended[..i], |old(allEvents)|)
      {
        allEvents := allEvents + [Logged(|allEvents| + 1, id, appended[i])];
      }
      assert appended[..|appended|] == appended;
    }

    method ReadStream(id: string, fromVersion: nat) returns (events: seq<Recorded<E>>)
      requires Consistent(Contents())
      ensures var stream := Contents().Stream(id);
              events == if fromVersion <= |stream| then stream[fromVersion..] else []
    {
      var current := if id in streams then streams[id] else [];
      assert current == Contents().Stream(id);
      events := [];
      for i := 0 to |current|
        invariant events == if i <= fromVersion then [] else current[fromVersion..i]
      {
        assert current[i].streamVersion == i + 1;
        if current[i].streamVersion > fromVersion {
          events := events + [current[i]];
        }
      }
    }

    method ReadAll(fromPosition: nat, maxCount: nat) returns (page: seq<Logged<E>>)
      requires Consistent(Contents())
      ensures page == Page(allEvents, fromPosition, maxCount)
      ensures |page| <= maxCount && (fromPosition >= |allEvents| ==> page == [])
      ensures fromPosition <= |allEvents| ==>
                fromPosition + |page| <= |allEvents| && page == allEvents[fromPosition..fromPosition+|page|]
      ensures |page| < maxCount ==> fromPosition + |page| >= |allEvents|
    {
      page := [];
      for i := 0 to |allEvents|
        invariant page == if i <= fromPosition then [] else allEvents[fromPosition..i]
      {
        if allEvents[i].position > fromPosition {
          page := page + [allEvents[i]];
        }
      }
      if |page| > maxCount {
        page := page[..maxCount];
      }
    }
  }
}
