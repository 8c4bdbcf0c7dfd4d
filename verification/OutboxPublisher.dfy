// Any number of publisher loops drain one outbox. Claiming a batch, sending a
// message to the broker and marking it are separate steps, and a publisher can die
// between any two of them.
module OutboxPublishers {
  import opened Outboxes
  import opened Sorting
  import opened Wrappers

  datatype Phase = ToSend | Sent | SendFailed(error: string)

  // The rest of the claimed batch; the phase is about its first message.
  datatype Job<P> = Job(batch: seq<Message<P>>, phase: Phase)

  // broker: the ids it has received. orphans: claims whose publisher died.
  datatype State<P> = State(box: Outbox<P>, jobs: map<nat, Job<P>>, broker: set<string>, orphans: set<string>)

  datatype Action<P> =
    | Stage(batch: seq<Message<P>>)
    | Claim(w: nat, limit: nat)
    | Send(w: nat)
    | SendFails(w: nat, error: string, received: bool)   // the error may come after the broker got it
    | Mark(w: nat, at: int)
    | Die(w: nat)

  // A claimed batch is worked off message by message; an empty one is forgotten.
  function WithJob<P>(jobs: map<nat, Job<P>>, w: nat, batch: seq<Message<P>>): map<nat, Job<P>> {
    if batch == [] then jobs - {w} else jobs[w := Job(batch, ToSend)]
  }

  predicate MayAct<P>(s: State<P>, w: nat) { w in s.jobs && s.jobs[w].batch != [] }

  function Next<P>(s: State<P>, a: Action<P>): State<P> {
    match a
    case Stage(batch) =>
      // A message is staged unpublished.
      if forall i :: 0 <= i < |batch| ==> batch[i].publishedAt.None? then
        s.(box := s.box.(messages := Staged(s.box.messages, batch)))
      else s
    case Claim(w, limit) =>
      if w in s.jobs then s
      else s.(box := Outboxes.Claim(s.box, limit), jobs := WithJob(s.jobs, w, Batch(s.box, limit)))
    case Send(w) =>
      if MayAct(s, w) && s.jobs[w].phase.ToSend? then
        s.(jobs := s.jobs[w := s.jobs[w].(phase := Sent)], broker := s.broker + {s.jobs[w].batch[0].id})
      else s
    case SendFails(w, error, received) =>
      if MayAct(s, w) && s.jobs[w].phase.ToSend? then
        s.(jobs := s.jobs[w := s.jobs[w].(phase := SendFailed(error))],
           broker := if received then s.broker + {s.jobs[w].batch[0].id} else s.broker)
      else s
    case Mark(w, at) =>
      if MayAct(s, w) && !s.jobs[w].phase.ToSend? then
        var id := s.jobs[w].batch[0].id;
        s.(box := if s.jobs[w].phase.Sent? then MarkedPublished(s.box, id, at)
                  else MarkedFailed(s.box, id, s.jobs[w].phase.error),
           jobs := WithJob(s.jobs, w, s.jobs[w].batch[1..]))
      else s
    case Die(w) =>
      if w in s.jobs then s.(jobs := s.jobs - {w}, orphans := s.orphans + IdsOf(s.jobs[w].batch)) else s
  }

  function ExecFrom<P>(s: State<P>, schedule: seq<Action<P>>): State<P> {
    if schedule == [] then s else Next(ExecFrom(s, schedule[..|schedule|-1]), schedule[|schedule|-1])
  }

  function Exec<P>(schedule: seq<Action<P>>): State<P> { ExecFrom(State(Outbox([], {}), map[], {}, {}), schedule) }

  // ---- The invariant ----

  predicate Holds<P>(s: State<P>, w: nat, id: string) { w in s.jobs && HasId(s.jobs[w].batch, id) }

  predicate PublishedIn<P>(box: Outbox<P>, id: string) {
    exists i :: 0 <= i < |box.messages| && box.messages[i].id == id && box.messages[i].publishedAt.Some?
  }

  ghost predicate BoxOk<P>(s: State<P>) {
    && UniqueIds(s.box.messages)
    && (forall id :: id in s.box.claimed ==> HasId(s.box.messages, id) && !PublishedIn(s.box, id))
    && (forall id :: PublishedIn(s.box, id) ==> id in s.broker)
    && s.orphans <= s.box.claimed
    && (forall id :: id in s.box.claimed ==> id in s.orphans || exists w :: Holds(s, w, id))
  }

  predicate JobOk<P>(s: State<P>, w: nat)
    requires w in s.jobs
  {
    && s.jobs[w].batch != [] && UniqueIds(s.jobs[w].batch)
    && (forall i :: 0 <= i < |s.jobs[w].batch| ==> s.jobs[w].batch[i].id in s.box.claimed)
    && (s.jobs[w].phase.Sent? ==> s.jobs[w].batch[0].id in s.broker)
  }

  ghost predicate Inv<P>(s: State<P>) {
    && BoxOk(s)
    && (forall w :: w in s.jobs ==> JobOk(s, w))
    && (forall v, w, id :: Holds(s, v, id) && Holds(s, w, id) ==> v == w)
    && (forall w, id :: Holds(s, w, id) ==> id !in s.orphans)
  }

  // ---- Claiming ----

  lemma {:induction false} FilterUnique<P>(keep: Message<P> -> bool, ms: seq<Message<P>>)
    requires UniqueIds(ms)
    ensures UniqueIds(Filter(keep, ms))
    ensures forall id :: HasId(Filter(keep, ms), id) ==> HasId(ms, id)
    decreases |ms|
  {
    if ms != [] {
      var n := |ms| - 1;
      FilterUnique(keep, ms[..n]);
      var kept := Filter(keep, ms[..n]);
      forall id ensures HasId(ms, id) <==> HasId(ms[..n], id) || ms[n].id == id {
        HasIdSnoc(ms[..n], ms[n], id);
        assert ms == ms[..n] + [ms[n]];
      }
      forall id ensures HasId(kept + [ms[n]], id) <==> HasId(kept, id) || ms[n].id == id {
        HasIdSnoc(kept, ms[n], id);
      }
      assert !HasId(ms[..n], ms[n].id);
      assert !HasId(kept, ms[n].id);
    }
  }

  // Sorting keeps the ids.
  lemma SortIds<P>(ms: seq<Message<P>>, id: string)
    ensures HasId(StableSort(ByPosition, ms), id) <==> HasId(ms, id)
  {
    var sorted := StableSort(ByPosition, ms);
    SortSorts(ByPosition, ms);
    assert forall m :: m in sorted <==> m in multiset(sorted);
    assert forall m :: m in ms <==> m in multiset(ms);
    if HasId(ms, id) {
      var i :| 0 <= i < |ms| && ms[i].id == id;
      assert ms[i] in sorted;
    }
    if HasId(sorted, id) {
      var i :| 0 <= i < |sorted| && sorted[i].id == id;
      assert sorted[i] in ms;
    }
  }

  lemma {:induction false} SortUnique<P>(ms: seq<Message<P>>)
    requires UniqueIds(ms)
    ensures UniqueIds(StableSort(ByPosition, ms))
    ensures forall id :: HasId(StableSort(ByPosition, ms), id) <==> HasId(ms, id)
    decreases |ms|
  {
    forall id ensures HasId(StableSort(ByPosition, ms), id) <==> HasId(ms, id) {
      SortIds(ms, id);
    }
    if ms != [] {
      var n := |ms| - 1;
      SortUnique(ms[..n]);
      SortSorts(ByPosition, ms[..n]);
      var sorted := StableSort(ByPosition, ms[..n]);
      var at := InsertSorts(ByPosition, sorted, ms[n]);
      assert !HasId(ms[..n], ms[n].id);
      InsertedUnique(sorted, ms[n], at);
    }
  }

  lemma InsertedUnique<P>(ms: seq<Message<P>>, m: Message<P>, at: nat)
    requires UniqueIds(ms) && !HasId(ms, m.id) && at <= |ms|
    ensures UniqueIds(ms[..at] + [m] + ms[at..])
    ensures forall id :: HasId(ms[..at] + [m] + ms[at..], id) <==> HasId(ms, id) || m.id == id
  {
    var all := ms[..at] + [m] + ms[at..];
    assert forall i :: 0 <= i < at ==> all[i] == ms[i];
    assert all[at] == m;
    assert forall i :: at <= i < |ms| ==> all[i+1] == ms[i];
    forall id | HasId(ms, id) ensures HasId(all, id) {
      var i :| 0 <= i < |ms| && ms[i].id == id;
      assert all[if i < at then i else i + 1].id == id;
    }
    forall i, j | 0 <= i < j < |all| ensures all[i].id != all[j].id {
      assert i < at ==> all[i] == ms[i];
      assert i > at ==> all[i] == ms[i-1];
      assert j < at ==> all[j] == ms[j];
      assert j > at ==> all[j] == ms[j-1];
      assert forall k :: 0 <= k < |ms| ==> ms[k].id != m.id;
    }
  }

  // A batch holds each id once, and none that is claimed or published already.
  lemma BatchIsFresh<P>(box: Outbox<P>, limit: nat, id: string)
    requires UniqueIds(box.messages)
    ensures UniqueIds(Batch(box, limit))
    ensures HasId(Batch(box, limit), id) ==> HasId(box.messages, id) && id !in box.claimed && !PublishedIn(box, id)
  {
    FilterUnique(PendingIn(box), box.messages);
    SortUnique(Filter(PendingIn(box), box.messages));
    if HasId(Batch(box, limit), id) {
      var i :| 0 <= i < |Batch(box, limit)| && Batch(box, limit)[i].id == id;
      BatchIsTheFront(box, limit, i);
    }
  }

  lemma ClaimKeeps<P>(s: State<P>, w: nat, limit: nat)
    requires Inv(s)
    ensures Inv(Next(s, Action.Claim(w, limit)))
  {
    if w !in s.jobs {
      var batch := Batch(s.box, limit);
      var s' := Next(s, Action.Claim(w, limit));
      forall id ensures id in s'.box.claimed <==> id in s.box.claimed || HasId(batch, id) {
        IdsOfHas(batch, id);
      }
      forall id
        ensures HasId(batch, id) ==> HasId(s.box.messages, id) && id !in s.box.claimed && !PublishedIn(s.box, id)
      {
        BatchIsFresh(s.box, limit, id);
      }
      BatchIsFresh(s.box, limit, "");
      ClaimBox(s, s', w, batch);
      ClaimJobs(s, s', w, batch);
    }
  }

  ghost predicate Claimed<P>(s: State<P>, s': State<P>, w: nat, batch: seq<Message<P>>) {
    && w !in s.jobs && UniqueIds(batch)
    && s'.jobs == WithJob(s.jobs, w, batch) && s'.orphans == s.orphans && s'.broker == s.broker
    && s'.box.messages == s.box.messages
    && (forall id :: id in s'.box.claimed <==> id in s.box.claimed || HasId(batch, id))
    && (forall id :: HasId(batch, id) ==> HasId(s.box.messages, id) && id !in s.box.claimed && !PublishedIn(s.box, id))
  }

  lemma ClaimBox<P>(s: State<P>, s': State<P>, w: nat, batch: seq<Message<P>>)
    requires Inv(s) && Claimed(s, s', w, batch)
    ensures BoxOk(s')
  {
    forall id | id in s'.box.claimed && id !in s'.orphans ensures exists v :: Holds(s', v, id) {
      if id in s.box.claimed {
        var v :| Holds(s, v, id);
        assert Holds(s', v, id);
      } else {
        assert Holds(s', w, id);
      }
    }
    forall id ensures PublishedIn(s'.box, id) == PublishedIn(s.box, id) {
    }
  }

  lemma ClaimJobs<P>(s: State<P>, s': State<P>, w: nat, batch: seq<Message<P>>)
    requires Inv(s) && Claimed(s, s', w, batch)
    ensures Inv(s')
  {
    ClaimBox(s, s', w, batch);
    forall v | v in s'.jobs ensures JobOk(s', v) {
      if v != w {
        assert JobOk(s, v);
      } else {
        forall i | 0 <= i < |batch| ensures batch[i].id in s'.box.claimed {
          assert HasId(batch, batch[i].id);
        }
      }
    }
    forall v, id | Holds(s', v, id)
      ensures if v == w then HasId(batch, id) else Holds(s, v, id) && id in s.box.claimed
    {
      if v != w {
        assert JobOk(s, v);
      }
    }
  }

  // ---- Sending, marking, dying, staging ----

  lemma SendKeeps<P>(s: State<P>, a: Action<P>)
    requires Inv(s) && (a.Send? || a.SendFails?)
    ensures Inv(Next(s, a))
  {
    var s' := Next(s, a);
    assert s'.box == s.box && s'.jobs.Keys == s.jobs.Keys;
    forall v | v in s'.jobs ensures JobOk(s', v) && s'.jobs[v].batch == s.jobs[v].batch {
      assert JobOk(s, v);
    }
    forall v, id ensures Holds(s', v, id) == Holds(s, v, id) {
    }
  }

  // A job without its first message.
  lemma TailIds<P>(batch: seq<Message<P>>, id: string)
    requires batch != [] && UniqueIds(batch)
    ensures UniqueIds(batch[1..])
    ensures HasId(batch[1..], id) <==> HasId(batch, id) && id != batch[0].id
  {
    if HasId(batch, id) && id != batch[0].id {
      var i :| 0 <= i < |batch| && batch[i].id == id;
      assert batch[1..][i-1].id == id;
    }
  }

  lemma SameIds<P>(ms: seq<Message<P>>, ms': seq<Message<P>>, x: string)
    requires |ms'| == |ms| && forall i :: 0 <= i < |ms| ==> ms'[i].id == ms[i].id
    ensures HasId(ms', x) <==> HasId(ms, x)
    ensures UniqueIds(ms) ==> UniqueIds(ms')
  {
    if HasId(ms, x) {
      var i :| 0 <= i < |ms| && ms[i].id == x;
      assert ms'[i].id == x;
    }
  }

  // Marking a message changes no id and publishes at most that message.
  lemma MarkedBox<P>(box: Outbox<P>, id: string, at: int, error: string, x: string)
    requires UniqueIds(box.messages) && HasId(box.messages, id)
    ensures var p, f := MarkedPublished(box, id, at), MarkedFailed(box, id, error);
            && UniqueIds(p.messages) && UniqueIds(f.messages)
            && (HasId(p.messages, x) <==> HasId(box.messages, x)) && (HasId(f.messages, x) <==> HasId(box.messages, x))
            && (PublishedIn(p, x) <==> PublishedIn(box, x) || x == id) && (PublishedIn(f, x) <==> PublishedIn(box, x))
            && p.claimed == f.claimed == box.claimed - {id}
  {
    SameIds(box.messages, MarkedPublished(box, id, at).messages, x);
    SameIds(box.messages, MarkedFailed(box, id, error).messages, x);
    MarkPublishes(box, id, at, error, x);
  }

  lemma MarkPublishes<P>(box: Outbox<P>, id: string, at: int, error: string, x: string)
    requires HasId(box.messages, id)
    ensures var p, f := MarkedPublished(box, id, at), MarkedFailed(box, id, error);
            (PublishedIn(p, x) <==> PublishedIn(box, x) || x == id) && (PublishedIn(f, x) <==> PublishedIn(box, x))
  {
    var p, f := MarkedPublished(box, id, at), MarkedFailed(box, id, error);
    if PublishedIn(box, x) {
      var i :| 0 <= i < |box.messages| && box.messages[i].id == x && box.messages[i].publishedAt.Some?;
      assert p.messages[i].id == x && p.messages[i].publishedAt.Some?;
      assert f.messages[i].id == x && f.messages[i].publishedAt.Some?;
    }
    var k :| 0 <= k < |box.messages| && box.messages[k].id == id;
    assert p.messages[k].id == id && p.messages[k].publishedAt.Some?;
  }

  lemma MarkKeeps<P>(s: State<P>, w: nat, at: int)
    requires Inv(s)
    ensures Inv(Next(s, Mark(w, at)))
  {
    if MayAct(s, w) && !s.jobs[w].phase.ToSend? {
      assert JobOk(s, w);
      var job := s.jobs[w];
      var id := job.batch[0].id;
      var s' := Next(s, Mark(w, at));
      var error := if job.phase.SendFailed? then job.phase.error else "";
      MarkedBox(s.box, id, at, error, id);
      forall x ensures
          && (HasId(s'.box.messages, x) <==> HasId(s.box.messages, x))
          && (PublishedIn(s'.box, x) ==> PublishedIn(s.box, x) || (x == id && job.phase.Sent?))
      {
        MarkedBox(s.box, id, at, error, x);
      }
      MarkedJobs(s, s', w);
    }
  }

  // The rest of the job after its first message was marked.
  lemma MarkedJobs<P>(s: State<P>, s': State<P>, w: nat)
    requires Inv(s) && w in s.jobs && !s.jobs[w].phase.ToSend?
    requires s.jobs[w].batch != []
    requires s'.jobs == WithJob(s.jobs, w, s.jobs[w].batch[1..]) && s'.orphans == s.orphans && s'.broker == s.broker
    requires UniqueIds(s'.box.messages) && s'.box.claimed == s.box.claimed - {s.jobs[w].batch[0].id}
    requires forall x :: HasId(s'.box.messages, x) <==> HasId(s.box.messages, x)
    requires forall x :: PublishedIn(s'.box, x) ==>
        PublishedIn(s.box, x) || (x == s.jobs[w].batch[0].id && s.jobs[w].phase.Sent?)
    ensures Inv(s')
  {
    var batch := s.jobs[w].batch;
    var id := batch[0].id;
    assert JobOk(s, w) && HasId(batch, id) && Holds(s, w, id);
    forall v, x ensures Holds(s', v, x) <==> Holds(s, v, x) && x != id {
      TailIds(batch, x);
      if v != w && Holds(s, v, x) {
        assert x == id ==> Holds(s, w, x);
      }
    }
    forall x | x in s'.box.claimed && x !in s'.orphans ensures exists v :: Holds(s', v, x) {
      var v :| Holds(s, v, x);
      assert Holds(s', v, x);
    }
    forall v | v in s'.jobs ensures JobOk(s', v) {
      assert JobOk(s, v);
      TailIds(batch, id);
      forall i | 0 <= i < |s'.jobs[v].batch| ensures s'.jobs[v].batch[i].id in s'.box.claimed {
        assert HasId(s'.jobs[v].batch, s'.jobs[v].batch[i].id);
        assert Holds(s', v, s'.jobs[v].batch[i].id);
      }
    }
  }

  lemma DieKeeps<P>(s: State<P>, w: nat)
    requires Inv(s)
    ensures Inv(Next(s, Die(w)))
  {
    if w in s.jobs {
      var s' := Next(s, Die(w));
      assert JobOk(s, w);
      forall id ensures id in s'.orphans <==> id in s.orphans || Holds(s, w, id) {
        IdsOfHas(s.jobs[w].batch, id);
      }
      forall v, id ensures Holds(s', v, id) <==> Holds(s, v, id) && v != w {
      }
      forall id | id in s'.box.claimed && id !in s'.orphans ensures exists v :: Holds(s', v, id) {
        var v :| Holds(s, v, id);
        assert Holds(s', v, id);
      }
      forall v | v in s'.jobs ensures JobOk(s', v) {
        assert JobOk(s, v);
      }
    }
  }

  lemma StageKeeps<P>(s: State<P>, batch: seq<Message<P>>)
    requires Inv(s)
    ensures Inv(Next(s, Stage(batch)))
  {
    var s' := Next(s, Stage(batch));
    if forall i :: 0 <= i < |batch| ==> batch[i].publishedAt.None? {
      StagedAddsEachIdOnce(s.box.messages, batch);
      StagedUnpublished(s.box.messages, batch);
      forall id ensures PublishedIn(s'.box, id) <==> PublishedIn(s.box, id) {
        if PublishedIn(s.box, id) {
          var i :| 0 <= i < |s.box.messages| && s.box.messages[i].id == id && s.box.messages[i].publishedAt.Some?;
          assert s'.box.messages[i] == s.box.messages[i];
        }
      }
      forall v, id ensures Holds(s', v, id) == Holds(s, v, id) {
      }
      forall id | id in s'.box.claimed && id !in s'.orphans ensures exists v :: Holds(s', v, id) {
        var v :| Holds(s, v, id);
        assert Holds(s', v, id);
      }
      forall v | v in s'.jobs ensures JobOk(s', v) {
        assert JobOk(s, v);
      }
    }
  }

  lemma {:induction false} StagedUnpublished<P>(ms: seq<Message<P>>, batch: seq<Message<P>>)
    requires forall i :: 0 <= i < |batch| ==> batch[i].publishedAt.None?
    ensures ms <= Staged(ms, batch)
    ensures forall i :: |ms| <= i < |Staged(ms, batch)| ==> Staged(ms, batch)[i].publishedAt.None?
    decreases |batch|
  {
    if batch != [] {
      StagedUnpublished(ms, batch[..|batch|-1]);
    }
  }

  lemma NextKeeps<P>(s: State<P>, a: Action<P>)
    requires Inv(s)
    ensures Inv(Next(s, a))
  {
    match a
    case Stage(batch) => StageKeeps(s, batch);
    case Claim(w, limit) => ClaimKeeps(s, w, limit);
    case Mark(w, at) => MarkKeeps(s, w, at);
    case Die(w) => DieKeeps(s, w);
    case _ => SendKeeps(s, a);
  }

  lemma {:induction false} Reachable<P>(schedule: seq<Action<P>>)
    ensures Inv(Exec(schedule))
    decreases |schedule|
  {
    if schedule != [] {
      Reachable(schedule[..|schedule|-1]);
      NextKeeps(Exec(schedule[..|schedule|-1]), schedule[|schedule|-1]);
    }
  }

  // ---- What every schedule gives ----

  // No message is in two outstanding claims, nor twice in one; what is claimed is
  // staged and unpublished; and only what the broker received is ever published.
  lemma ClaimsAreExclusive<P>(schedule: seq<Action<P>>, v: nat, w: nat, i: nat, j: nat)
    ensures var s := Exec(schedule);
            v in s.jobs && w in s.jobs && i < |s.jobs[v].batch| && j < |s.jobs[w].batch| ==>
              && (s.jobs[v].batch[i].id == s.jobs[w].batch[j].id ==> v == w && i == j)
              && HasId(s.box.messages, s.jobs[v].batch[i].id)
              && !PublishedIn(s.box, s.jobs[v].batch[i].id)
  {
    Reachable(schedule);
    var s := Exec(schedule);
    if v in s.jobs && w in s.jobs && i < |s.jobs[v].batch| && j < |s.jobs[w].batch| {
      assert JobOk(s, v) && JobOk(s, w);
      assert Holds(s, v, s.jobs[v].batch[i].id) && Holds(s, w, s.jobs[w].batch[j].id);
    }
  }

  // Every staged message is published, held by a publisher, pending, or orphaned by
  // a publisher that died; these exclude one another.
  lemma EveryMessageIsAccountedFor<P>(schedule: seq<Action<P>>, i: nat)
    ensures var s := Exec(schedule);
            i < |s.box.messages| ==>
              var m := s.box.messages[i];
              var held := exists w :: Holds(s, w, m.id);
              && (m.publishedAt.Some? || held || m.id in s.orphans || m in Queue(s.box))
              && (m.publishedAt.Some? ==> !held && m.id !in s.orphans && m !in Queue(s.box))
              && (held ==> m.id !in s.orphans && m !in Queue(s.box))
              && (m.id in s.orphans ==> m !in Queue(s.box))
  {
    Reachable(schedule);
    var s := Exec(schedule);
    if i < |s.box.messages| {
      var m := s.box.messages[i];
      QueueIsPending(s.box, m);
      assert m.publishedAt.Some? ==> PublishedIn(s.box, m.id);
      forall w | Holds(s, w, m.id) ensures m.id in s.box.claimed {
        assert JobOk(s, w);
      }
    }
  }

  lemma PublishedStays<P>(s: State<P>, a: Action<P>, id: string)
    requires Inv(s) && PublishedIn(s.box, id)
    ensures PublishedIn(Next(s, a).box, id)
  {
    var i :| 0 <= i < |s.box.messages| && s.box.messages[i].id == id && s.box.messages[i].publishedAt.Some?;
    match a
    case Stage(batch) =>
      StagedAddsEachIdOnce(s.box.messages, batch);
      assert s.box.messages <= Next(s, a).box.messages;
      assert Next(s, a).box.messages[i] == s.box.messages[i];
    case Mark(w, at) =>
      if MayAct(s, w) && !s.jobs[w].phase.ToSend? {
        assert JobOk(s, w);
        MarkedBox(s.box, s.jobs[w].batch[0].id, at,
                  if s.jobs[w].phase.SendFailed? then s.jobs[w].phase.error else "", id);
      }
    case _ =>
  }

  // Once published, whatever happens later: the broker has it, it stays published,
  // and no publisher ever claims it again.
  lemma {:induction false} PublishedOnce<P>(schedule: seq<Action<P>>, later: seq<Action<P>>, id: string, w: nat)
    requires PublishedIn(Exec(schedule).box, id)
    ensures var s := Exec(schedule + later);
            PublishedIn(s.box, id) && id in s.broker && !Holds(s, w, id)
    decreases |later|
  {
    var all := schedule + later;
    Reachable(all);
    if later == [] {
      assert all == schedule;
    } else {
      var n := |later| - 1;
      PublishedOnce(schedule, later[..n], id, w);
      Reachable(schedule + later[..n]);
      assert all[..|all|-1] == schedule + later[..n] && all[|all|-1] == later[n];
      PublishedStays(Exec(schedule + later[..n]), later[n], id);
    }
    var s := Exec(all);
    assert w in s.jobs ==> JobOk(s, w);
  }

  // ---- One turn of the loop, undisturbed ----

  const BATCH_SIZE := 100

  // outcomes[i] is the error of sending batch[i], if any.
  function Settled<P>(box: Outbox<P>, batch: seq<Message<P>>, outcomes: seq<Option<string>>, at: int): Outbox<P>
    requires |outcomes| >= |batch|
  {
    if batch == [] then box
    else
      var n := |batch| - 1;
      var before := Settled(box, batch[..n], outcomes, at);
      if outcomes[n].None? then MarkedPublished(before, batch[n].id, at)
      else MarkedFailed(before, batch[n].id, outcomes[n].value)
  }

  predicate Delivered<P>(batch: seq<Message<P>>, outcomes: seq<Option<string>>, id: string)
    requires |outcomes| >= |batch|
  {
    exists i :: 0 <= i < |batch| && batch[i].id == id && outcomes[i].None?
  }

  // A turn publishes exactly the messages that were sent, gives up exactly the
  // claims of its batch, and a failure of one message holds up no other.
  lemma {:induction false} TurnSettlesItsBatch<P>(box: Outbox<P>, batch: seq<Message<P>>,
      outcomes: seq<Option<string>>, at: int, id: string)
    requires |outcomes| >= |batch| && UniqueIds(box.messages) && UniqueIds(batch)
    requires forall i :: 0 <= i < |batch| ==> HasId(box.messages, batch[i].id)
    ensures var after := Settled(box, batch, outcomes, at);
            && UniqueIds(after.messages) && (HasId(after.messages, id) <==> HasId(box.messages, id))
            && (PublishedIn(after, id) <==> PublishedIn(box, id) || Delivered(batch, outcomes, id))
            && (id in after.claimed <==> id in box.claimed && !HasId(batch, id))
    decreases |batch|
  {
    if batch != [] {
      var n := |batch| - 1;
      TurnSettlesItsBatch(box, batch[..n], outcomes, at, id);
      TurnSettlesItsBatch(box, batch[..n], outcomes, at, batch[n].id);
      var before := Settled(box, batch[..n], outcomes, at);
      MarkedBox(before, batch[n].id, at, outcomes[n].GetOr(""), id);
      HasIdSnoc(batch[..n], batch[n], id);
      assert batch == batch[..n] + [batch[n]];
      DeliveredSnoc(batch, outcomes, id);
    }
  }

  // What a turn does to each message: one it sent is published, one whose sending failed
  // has one more attempt and the error, and all others are as they were.
  lemma {:induction false} TurnMarksEach<P>(box: Outbox<P>, batch: seq<Message<P>>,
      outcomes: seq<Option<string>>, at: int, i: nat)
    requires |outcomes| >= |batch| && UniqueIds(batch) && i < |box.messages|
    ensures var after, m := Settled(box, batch, outcomes, at).messages, box.messages[i];
            && |after| == |box.messages| && after[i].id == m.id
            && (!HasId(batch, m.id) ==> after[i] == m)
            && (forall k :: 0 <= k < |batch| && batch[k].id == m.id ==>
                  after[i] == if outcomes[k].None? then m.(publishedAt := Some(at), lastError := None)
                              else m.(attempts := m.attempts + 1, lastError := outcomes[k]))
    decreases |batch|
  {
    if batch != [] {
      var n := |batch| - 1;
      TurnMarksEach(box, batch[..n], outcomes, at, i);
      HasIdSnoc(batch[..n], batch[n], box.messages[i].id);
      assert batch == batch[..n] + [batch[n]];
      var before := Settled(box, batch[..n], outcomes, at);
      assert before.messages[i].id == batch[n].id ==> HasId(before.messages, batch[n].id);
    }
  }

  lemma DeliveredSnoc<P>(batch: seq<Message<P>>, outcomes: seq<Option<string>>, id: string)
    requires batch != [] && |outcomes| >= |batch|
    ensures var n := |batch| - 1;
            Delivered(batch, outcomes, id) <==>
                Delivered(batch[..n], outcomes, id) || (batch[n].id == id && outcomes[n].None?)
  {
    var n := |batch| - 1;
    if Delivered(batch[..n], outcomes, id) {
      var i :| 0 <= i < n && batch[..n][i].id == id && outcomes[i].None?;
      assert batch[i].id == id;
    }
    if Delivered(batch, outcomes, id) {
      var i :| 0 <= i < |batch| && batch[i].id == id && outcomes[i].None?;
      assert i < n ==> batch[..n][i].id == id;
    }
  }

  method RunOnce<P>(outbox: InMemoryOutboxStore<P>, outcomes: seq<Option<string>>, at: int)
      returns (batch: seq<Message<P>>)
    requires |outcomes| >= BATCH_SIZE
    modifies outbox
    ensures batch == Batch(old(outbox.Contents()), BATCH_SIZE)
    ensures |batch| <= 100 <= |outcomes|
    ensures |batch| < 100 ==>
              forall m :: m in old(outbox.messages) && Pending(old(outbox.Contents()), m) ==> m in batch
    ensures outbox.Contents() == Settled(Outboxes.Claim(old(outbox.Contents()), BATCH_SIZE), batch, outcomes, at)
  {
    ghost var box := Outboxes.Claim(outbox.Contents(), BATCH_SIZE);
    ClaimIsInOrder(outbox.Contents(), BATCH_SIZE);
    batch := outbox.ClaimPending(BATCH_SIZE);
    for i := 0 to |batch|
      invariant outbox.Contents() == Settled(box, batch[..i], outcomes, at)
    {
      assert batch[..i+1][..i] == batch[..i];
      if outcomes[i].None? {
        outbox.MarkPublished(batch[i].id, at);
      } else {
        outbox.MarkFailed(batch[i].id, outcomes[i].value);
      }
    }
    assert batch[..|batch|] == batch;
  }
}
