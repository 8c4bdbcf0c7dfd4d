// The outbox: staged messages, claims by publishers, and the marks that end a claim.
module Outboxes {
  import opened Sorting
  import opened Wrappers

  datatype Message<P> = Message(
    id: string, topic: string, key: string, payload: P,
    createdAt: int, position: Option<nat>,
    attempts: nat, publishedAt: Option<int>, lastError: Option<string>)

  // messages is in the order in which the ids were staged.
  datatype Outbox<P> = Outbox(messages: seq<Message<P>>, claimed: set<string>)

  const MAX_SAFE_INTEGER := 9007199254740991

  function ByPosition<P>(m: Message<P>): Key { (m.position.GetOr(MAX_SAFE_INTEGER), m.createdAt) }

  predicate HasId<P>(ms: seq<Message<P>>, id: string) { exists i :: 0 <= i < |ms| && ms[i].id == id }

  predicate UniqueIds<P>(ms: seq<Message<P>>) { forall i, j :: 0 <= i < j < |ms| ==> ms[i].id != ms[j].id }

  // ---- The operations ----

  function Staged<P>(ms: seq<Message<P>>, batch: seq<Message<P>>): seq<Message<P>> {
    if batch == [] then ms
    else
      var before := Staged(ms, batch[..|batch|-1]);
      if HasId(before, batch[|batch|-1].id) then before else before + [batch[|batch|-1]]
  }

  predicate Pending<P>(box: Outbox<P>, m: Message<P>) { m.publishedAt.None? && m.id !in box.claimed }

  function PendingIn<P>(box: Outbox<P>): Message<P> -> bool { m => Pending(box, m) }

  function Queue<P>(box: Outbox<P>): seq<Message<P>> {
    StableSort(ByPosition, Filter(PendingIn(box), box.messages))
  }

  function Batch<P>(box: Outbox<P>, limit: nat): seq<Message<P>> {
    if limit < |Queue(box)| then Queue(box)[..limit] else Queue(box)
  }

  function IdsOf<P>(ms: seq<Message<P>>): set<string> {
    if ms == [] then {} else IdsOf(ms[..|ms|-1]) + {ms[|ms|-1].id}
  }

  function Claim<P>(box: Outbox<P>, limit: nat): Outbox<P> {
    box.(claimed := box.claimed + IdsOf(Batch(box, limit)))
  }

  // Replaces the message with an id; the others keep their place.
  function Amended<P>(ms: seq<Message<P>>, id: string, change: Message<P> -> Message<P>): seq<Message<P>> {
    seq(|ms|, i requires 0 <= i < |ms| => if ms[i].id == id then change(ms[i]) else ms[i])
  }

  function Published<P>(m: Message<P>, at: int): Message<P> { m.(publishedAt := Some(at), lastError := None) }

  function Failed<P>(m: Message<P>, error: string): Message<P> {
    m.(attempts := m.attempts + 1, lastError := Some(error))
  }

  // Marking an id that was never staged does nothing.
  function MarkedPublished<P>(box: Outbox<P>, id: string, at: int): Outbox<P> {
    if HasId(box.messages, id)
    then Outbox(Amended(box.messages, id, (m: Message<P>) => Published(m, at)), box.claimed - {id})
    else box
  }

  function MarkedFailed<P>(box: Outbox<P>, id: string, error: string): Outbox<P> {
    if HasId(box.messages, id)
    then Outbox(Amended(box.messages, id, (m: Message<P>) => Failed(m, error)), box.claimed - {id})
    else box
  }

  // ---- What they keep ----

  lemma {:induction false} StagedAddsEachIdOnce<P>(ms: seq<Message<P>>, batch: seq<Message<P>>)
    requires UniqueIds(ms)
    ensures UniqueIds(Staged(ms, batch)) && ms <= Staged(ms, batch)
    ensures forall id :: HasId(Staged(ms, batch), id) <==> HasId(ms, id) || HasId(batch, id)
    decreases |batch|
  {
    if batch != [] {
      var n := |batch| - 1;
      StagedAddsEachIdOnce(ms, batch[..n]);
      var before := Staged(ms, batch[..n]);
      var after := Staged(ms, batch);
      forall id ensures HasId(batch, id) <==> HasId(batch[..n], id) || batch[n].id == id {
        HasIdSnoc(batch[..n], batch[n], id);
        assert batch == batch[..n] + [batch[n]];
      }
      if !HasId(before, batch[n].id) {
        forall id ensures HasId(after, id) <==> HasId(before, id) || batch[n].id == id {
          HasIdSnoc(before, batch[n], id);
        }
      }
    }
  }

  lemma HasIdSnoc<P>(ms: seq<Message<P>>, m: Message<P>, id: string)
    ensures HasId(ms + [m], id) <==> HasId(ms, id) || m.id == id
  {
    var all := ms + [m];
    assert all[|ms|] == m;
    assert forall i :: 0 <= i < |ms| ==> all[i] == ms[i];
  }

  lemma {:induction false} IdsOfHas<P>(ms: seq<Message<P>>, id: string)
    ensures id in IdsOf(ms) <==> HasId(ms, id)
    decreases |ms|
  {
    if ms != [] {
      IdsOfHas(ms[..|ms|-1], id);
      HasIdSnoc(ms[..|ms|-1], ms[|ms|-1], id);
      assert ms == ms[..|ms|-1] + [ms[|ms|-1]];
    }
  }

  // A fresh batch of distinct ids is staged whole, in order.
  lemma {:induction false} StagedFresh<P>(ms: seq<Message<P>>, batch: seq<Message<P>>)
    requires UniqueIds(batch) && forall i :: 0 <= i < |batch| ==> !HasId(ms, batch[i].id)
    ensures Staged(ms, batch) == ms + batch
    decreases |batch|
  {
    if batch != [] {
      var n := |batch| - 1;
      StagedFresh(ms, batch[..n]);
      assert batch == batch[..n] + [batch[n]];
      assert (ms + batch[..n]) + [batch[n]] == ms + batch;
      forall i | 0 <= i < |ms + batch[..n]| ensures (ms + batch[..n])[i].id != batch[n].id {
        if i < |ms| {
          assert HasId(ms, ms[i].id);
        } else {
          assert (ms + batch[..n])[i] == batch[i-|ms|];
        }
      }
    }
  }

  // A queue holds exactly the pending messages, each once, in order of position and
  // then of creation.
  lemma QueueIsPending<P>(box: Outbox<P>, m: Message<P>)
    ensures m in Queue(box) <==> m in box.messages && Pending(box, m)
    ensures Sorted(ByPosition, Queue(box))
    ensures multiset(Queue(box)) == multiset(Filter(PendingIn(box), box.messages))
  {
    var pending := Filter(PendingIn(box), box.messages);
    SortSorts(ByPosition, pending);
    FilterHolds(PendingIn(box), box.messages, m);
    assert m in Queue(box) <==> m in multiset(Queue(box));
    assert m in pending <==> m in multiset(pending);
  }

  // A batch takes pending messages only, and nothing that is left pending comes
  // before a message it takes.
  lemma BatchIsTheFront<P>(box: Outbox<P>, limit: nat, i: nat)
    requires i < |Batch(box, limit)|
    ensures |Batch(box, limit)| <= limit
    ensures Batch(box, limit)[i] in box.messages && Pending(box, Batch(box, limit)[i])
    ensures forall m :: m in Queue(box)[|Batch(box, limit)|..] ==>
        NotAfter(ByPosition(Batch(box, limit)[i]), ByPosition(m))
    ensures limit >= |Queue(box)| ==> Batch(box, limit) == Queue(box)
  {
    var queue := Queue(box);
    QueueIsPending(box, Batch(box, limit)[i]);
    assert Batch(box, limit)[i] == queue[i];
    forall m | m in queue[|Batch(box, limit)|..] ensures NotAfter(ByPosition(queue[i]), ByPosition(m)) {
      var k :| 0 <= k < |queue| - |Batch(box, limit)| && queue[|Batch(box, limit)|..][k] == m;
      assert queue[|Batch(box, limit)|+k] == m;
    }
  }

  // a goes out before b, or may: by event position, a message without one after those
  // with a safe integer, and then by the time of creation.
  predicate NotLater<P>(a: Message<P>, b: Message<P>) {
    var p := if a.position.Some? then a.position.value else 9007199254740991;
    var q := if b.position.Some? then b.position.value else 9007199254740991;
    p < q || (p == q && a.createdAt <= b.createdAt)
  }

  // A claim is in that order, and so are the messages it takes and those it leaves.
  lemma ClaimIsInOrder<P>(box: Outbox<P>, limit: nat)
    ensures var batch := Batch(box, limit);
            && (forall i, j :: 0 <= i < j < |batch| ==> NotLater(batch[i], batch[j]))
            && (forall i, m :: 0 <= i < |batch| && m in box.messages && Pending(box, m) && m !in batch ==>
                  NotLater(batch[i], m))
            && (|batch| < limit ==> forall m :: m in box.messages && m.publishedAt.None? && m.id !in box.claimed ==>
                  m in batch)
  {
    var queue, batch := Queue(box), Batch(box, limit);
    SortSorts(ByPosition, Filter(PendingIn(box), box.messages));
    forall k | 0 <= k < |batch| ensures queue[k] in batch { assert batch[k] == queue[k]; }
    forall i, m | 0 <= i < |batch| && m in box.messages && Pending(box, m) && m !in batch
      ensures NotLater(batch[i], m)
    {
      QueueIsPending(box, m);
      var k :| 0 <= k < |queue| && queue[k] == m;
    }
    forall m | |batch| < limit && m in box.messages && Pending(box, m) ensures m in batch {
      QueueIsPending(box, m);
    }
  }

  // ---- The store ----

  class InMemoryOutboxStore<P(==)> {
    var messages: seq<Message<P>>
    var claimed: set<string>

    function Contents(): Outbox<P>
      reads this
    {
      Outbox(messages, claimed)
    }

    constructor ()
      ensures Contents() == Outbox([], {})
    {
      messages, claimed := [], {};
    }

    method Stage(batch: seq<Message<P>>)
      modifies this
      ensures Contents() == old(Contents()).(messages := Staged(old(messages), batch))
    {
      for i := 0 to |batch|
        invariant messages == Staged(old(messages), batch[..i]) && claimed == old(claimed)
      {
        assert batch[..i+1][..i] == batch[..i];
        if !HasId(messages, batch[i].id) {
          messages := messages + [batch[i]];
        }
      }
      assert batch[..|batch|] == batch;
    }

    method PendingMessages() returns (pending: seq<Message<P>>)
      ensures pending == Filter(PendingIn(Contents()), messages)
    {
      ghost var box := Contents();
      pending := [];
      for i := 0 to |messages|
        invariant pending == Filter(PendingIn(box), messages[..i])
      {
        assert messages[..i+1][..i] == messages[..i];
        if messages[i].publishedAt.None? && messages[i].id !in claimed {
          pending := pending + [messages[i]];
        }
      }
      assert messages[..|messages|] == messages;
    }

    method ClaimPending(limit: nat) returns (batch: seq<Message<P>>)
      modifies this
      ensures Contents() == Claim(old(Contents()), limit) && batch == Batch(old(Contents()), limit)
      ensures messages == old(messages) && |batch| <= limit
      ensures forall i, j :: 0 <= i < j < |batch| ==> NotLater(batch[i], batch[j])
      ensures forall id :: id in claimed <==> id in old(claimed) || HasId(batch, id)
    {
      ghost var box := Contents();
      batch := PendingMessages();
      batch := StableSort(ByPosition, batch);
      assert batch == Queue(box);
      if limit < |batch| {
        batch := batch[..limit];
      }
      for i := 0 to |batch|
        invariant messages == box.messages && claimed == box.claimed + IdsOf(batch[..i])
      {
        assert batch[..i+1][..i] == batch[..i];
        claimed := claimed + {batch[i].id};
      }
      assert batch[..|batch|] == batch;
      ClaimIsInOrder(box, limit);
      forall id ensures id in claimed <==> id in box.claimed || HasId(batch, id) {
        IdsOfHas(batch, id);
      }
    }

    method MarkPublished(id: string, at: int)
      modifies this
      ensures Contents() == MarkedPublished(old(Contents()), id, at)
      ensures |messages| == |old(messages)|
      ensures forall i :: 0 <= i < |messages| ==>
                var m := old(messages)[i];
                messages[i] == if m.id == id then m.(publishedAt := Some(at), lastError := None) else m
      ensures claimed == if HasId(old(messages), id) then old(claimed) - {id} else old(claimed)
    {
      if HasId(messages, id) {
        messages := Amended(messages, id, (m: Message<P>) => Published(m, at));
        claimed := claimed - {id};
      }
    }

    method MarkFailed(id: string, error: string)
      modifies this
      ensures Contents() == MarkedFailed(old(Contents()), id, error)
      ensures |messages| == |old(messages)|
      ensures forall i :: 0 <= i < |messages| ==>
                var m := old(messages)[i];
                messages[i] == if m.id == id then m.(attempts := m.attempts + 1, lastError := Some(error)) else m
      ensures claimed == if HasId(old(messages), id) then old(claimed) - {id} else old(claimed)
    {
      if HasId(messages, id) {
        messages := Amended(messages, id, (m: Message<P>) => Failed(m, error));
        claimed := claimed - {id};
      }
    }
  }
}
