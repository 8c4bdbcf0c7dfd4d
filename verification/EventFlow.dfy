// The event store and the outbox publishers running together: appends with any
// expected versions, interleaved with claims, sends, marks and publisher deaths.
module EventFlow {
  import opened EventStores
  import opened Outboxes
  import opened Wrappers
  import P = OutboxPublishers

  datatype World<E> = World(log: Log<E>, publishing: P.State<Recorded<E>>)

  datatype Action<E> =
    | Append(id: string, events: seq<NewEvent<E>>, expectedVersion: nat)
    | Publish(step: P.Action<Recorded<E>>)   // staging is done by appends only

  function Next<E>(s: World<E>, a: Action<E>): World<E> {
    match a
    case Append(id, events, expected) =>
      if expected != |s.log.Stream(id)| then s
      else World(Appended(s.log, id, events, expected),
          P.Next(s.publishing, P.Stage(MessagesFor(id, Numbered(events, expected)))))
    case Publish(step) => if step.Stage? then s else s.(publishing := P.Next(s.publishing, step))
  }

  function Exec<E>(schedule: seq<Action<E>>): World<E> {
    if schedule == [] then World(Log(map[], []), P.State(Outbox([], {}), map[], {}, {}))
    else Next(Exec(schedule[..|schedule|-1]), schedule[|schedule|-1])
  }

  // A message carries its event, under the event's id, to the topic and key of the stream.
  ghost predicate Carries<E>(m: Message<Recorded<E>>, entry: Logged<E>) {
    && m.id == entry.event.eventId && m.payload == entry.event
    && m.key == entry.streamId && m.topic == TopicForStream(entry.streamId)
  }

  predicate DistinctIds<E>(all: seq<Logged<E>>) {
    forall i, j :: 0 <= i < j < |all| ==> all[i].event.eventId != all[j].event.eventId
  }

  ghost predicate Paired<E>(s: World<E>) {
    && |s.publishing.box.messages| == |s.log.all|
    && forall i :: 0 <= i < |s.log.all| ==> Carries(s.publishing.box.messages[i], s.log.all[i])
  }

  predicate InLog<E>(all: seq<Logged<E>>, id: string) { exists i :: 0 <= i < |all| && all[i].event.eventId == id }

  ghost predicate SameIds<E>(s: World<E>) {
    forall id :: HasId(s.publishing.box.messages, id) <==> InLog(s.log.all, id)
  }

  // Publishers' steps change no id, topic, key or payload.
  lemma MarksKeepCargo<E>(box: Outbox<Recorded<E>>, id: string, at: int, error: string, i: nat)
    requires i < |box.messages|
    ensures var m, p, f := box.messages[i], MarkedPublished(box, id, at).messages,
        MarkedFailed(box, id, error).messages;
            && |p| == |f| == |box.messages|
            && p[i].id == f[i].id == m.id && p[i].payload == f[i].payload == m.payload
            && p[i].key == f[i].key == m.key && p[i].topic == f[i].topic == m.topic
  {
  }

  lemma PublishKeepsCargo<E>(s: P.State<Recorded<E>>, a: P.Action<Recorded<E>>, i: nat)
    requires !a.Stage? && i < |s.box.messages|
    ensures var m, ms := s.box.messages[i], P.Next(s, a).box.messages;
            |ms| == |s.box.messages| && ms[i].id == m.id && ms[i].payload == m.payload && ms[i].key == m.key
                && ms[i].topic == m.topic
  {
    if a.Mark? && P.MayAct(s, a.w) {
      var job := s.jobs[a.w];
      MarksKeepCargo(s.box, job.batch[0].id, a.at, if job.phase.SendFailed? then job.phase.error else "", i);
    }
  }

  lemma PublishKeepsLength<E>(s: P.State<Recorded<E>>, a: P.Action<Recorded<E>>)
    requires !a.Stage?
    ensures |P.Next(s, a).box.messages| == |s.box.messages|
  {
  }

  lemma InLogGrows<E>(all: seq<Logged<E>>, more: seq<Logged<E>>, id: string)
    ensures InLog(all + more, id) <==> InLog(all, id) || InLog(more, id)
  {
    var sum := all + more;
    if InLog(all, id) {
      var i :| 0 <= i < |all| && all[i].event.eventId == id;
      assert sum[i].event.eventId == id;
    }
    if InLog(more, id) {
      var i :| 0 <= i < |more| && more[i].event.eventId == id;
      assert sum[|all|+i].event.eventId == id;
    }
  }

  lemma BatchIds<E>(id: string, added: seq<Recorded<E>>, base: nat, x: string)
    ensures HasId(MessagesFor(id, added), x) <==> InLog(Positioned(id, added, base), x)
  {
    var ms, entries := MessagesFor(id, added), Positioned(id, added, base);
    assert forall i :: 0 <= i < |added| ==> ms[i].id == entries[i].event.eventId;
  }

  lemma AppendKeepsIds<E>(s: World<E>, id: string, events: seq<NewEvent<E>>, expected: nat)
    requires SameIds(s) && UniqueIds(s.publishing.box.messages) && expected == |s.log.Stream(id)|
    ensures SameIds(Next(s, Append(id, events, expected)))
  {
    var added := Numbered(events, expected);
    StagedAddsEachIdOnce(s.publishing.box.messages, MessagesFor(id, added));
    var s' := Next(s, Append(id, events, expected));
    forall x ensures HasId(s'.publishing.box.messages, x) <==> InLog(s'.log.all, x) {
      BatchIds(id, added, |s.log.all|, x);
      InLogGrows(s.log.all, Positioned(id, added, |s.log.all|), x);
    }
  }

  lemma PublishKeepsIds<E>(s: World<E>, a: P.Action<Recorded<E>>)
    requires SameIds(s) && !a.Stage?
    ensures SameIds(Next(s, Publish(a)))
  {
    var ms := P.Next(s.publishing, a).box.messages;
    PublishKeepsLength(s.publishing, a);
    forall i | 0 <= i < |ms| ensures ms[i].id == s.publishing.box.messages[i].id {
      PublishKeepsCargo(s.publishing, a, i);
    }
    forall id ensures HasId(ms, id) <==> HasId(s.publishing.box.messages, id) {
    }
  }

  // With distinct event ids, appending pairs each new entry with a new message.
  lemma AppendKeepsPairs<E>(s: World<E>, id: string, events: seq<NewEvent<E>>, expected: nat)
    requires Paired(s) && expected == |s.log.Stream(id)|
    requires DistinctIds(Next(s, Append(id, events, expected)).log.all)
    ensures Paired(Next(s, Append(id, events, expected)))
  {
    var added := Numbered(events, expected);
    var batch, entries := MessagesFor(id, added), Positioned(id, added, |s.log.all|);
    BatchIsNew(s.publishing.box.messages, s.log.all, batch, entries);
    StagedFresh(s.publishing.box.messages, batch);
  }

  lemma BatchIsNew<E>(ms: seq<Message<Recorded<E>>>, all: seq<Logged<E>>, batch: seq<Message<Recorded<E>>>,
      entries: seq<Logged<E>>)
    requires |ms| == |all| && forall i :: 0 <= i < |all| ==> ms[i].id == all[i].event.eventId
    requires |batch| == |entries| && forall i :: 0 <= i < |entries| ==> batch[i].id == entries[i].event.eventId
    requires DistinctIds(all + entries)
    ensures UniqueIds(batch)
    ensures forall i :: 0 <= i < |batch| ==> !HasId(ms, batch[i].id)
  {
    var sum, n := all + entries, |all|;
    forall i, j | 0 <= i < j < |batch| ensures batch[i].id != batch[j].id {
      assert sum[n+i] == entries[i] && sum[n+j] == entries[j];
    }
    forall i | 0 <= i < |batch| ensures !HasId(ms, batch[i].id) {
      forall k | 0 <= k < |ms| ensures ms[k].id != batch[i].id {
        assert sum[k] == all[k] && sum[n+i] == entries[i];
      }
    }
  }

  lemma PublishKeepsPairs<E>(s: World<E>, a: P.Action<Recorded<E>>)
    requires Paired(s) && !a.Stage?
    ensures Paired(Next(s, Publish(a)))
  {
    PublishKeepsLength(s.publishing, a);
    forall i | 0 <= i < |s.log.all| ensures Carries(P.Next(s.publishing, a).box.messages[i], s.log.all[i]) {
      PublishKeepsCargo(s.publishing, a, i);
    }
  }

  // After any run: versions are 1..n and positions 1..N, each stream is the log
  // restricted to its appends, and the outbox holds exactly the ids of the log.
  lemma {:induction false} StoreAndOutboxAgree<E>(schedule: seq<Action<E>>)
    ensures Consistent(Exec(schedule).log) && SameIds(Exec(schedule)) && P.Inv(Exec(schedule).publishing)
    decreases |schedule|
  {
    if schedule != [] {
      StoreAndOutboxAgree(schedule[..|schedule|-1]);
      var s := Exec(schedule[..|schedule|-1]);
      match schedule[|schedule|-1]
      case Append(id, events, expected) =>
        if expected == |s.log.Stream(id)| {
          AppendKeepsConsistent(s.log, id, events, expected);
          AppendKeepsIds(s, id, events, expected);
          P.NextKeeps(s.publishing, P.Stage(MessagesFor(id, Numbered(events, expected))));
        }
      case Publish(step) =>
        if !step.Stage? {
          PublishKeepsIds(s, step);
          P.NextKeeps(s.publishing, step);
        }
    }
  }

  // While event ids are distinct, every log entry has its own message, in the order
  // of the log, which still carries that entry however often it was claimed, failed
  // or published.
  lemma {:induction false} EveryEventHasItsMessage<E>(schedule: seq<Action<E>>)
    requires DistinctIds(Exec(schedule).log.all)
    ensures Paired(Exec(schedule))
    decreases |schedule|
  {
    if schedule != [] {
      var s := Exec(schedule[..|schedule|-1]);
      var a := schedule[|schedule|-1];
      assert s.log.all <= Exec(schedule).log.all;
      assert forall i :: 0 <= i < |s.log.all| ==> s.log.all[i] == Exec(schedule).log.all[i];
      EveryEventHasItsMessage(schedule[..|schedule|-1]);
      match a
      case Append(id, events, expected) =>
        if expected == |s.log.Stream(id)| {
          AppendKeepsPairs(s, id, events, expected);
        }
      case Publish(step) =>
        if !step.Stage? {
          PublishKeepsPairs(s, step);
        }
    }
  }
}
