// What visiting the entries of the global log, one after another, does to the two
// read models.
module ProjectionReplay {
  import opened AccountProjectors
  import opened AccountReadModel
  import opened EventStores
  import opened Wrappers
  import A = Accounts
  import T = Transfers
  import TP = TransferProjectors

  datatype Body =
    | OfAccount(accountId: string, account: A.Event)
    | OfTransfer(transferId: string, transfer: T.Event)

  datatype Error = AccountError(account: AccountProjectors.ProjectionError)
      | TransferError(transfer: TP.ProjectionError)

  datatype Views = Views(accounts: Rows, transfers: map<string, TP.Row>)
  {
    function Transfer(id: string): Option<TP.Row> { if id in transfers then Some(transfers[id]) else None }
  }

  const EMPTY := Views(NO_ROWS, map[])

  function Delivered(entry: Logged<Body>): Stored
    requires entry.event.body.OfAccount?
  {
    Stored(entry.event.eventId, entry.event.body.accountId, entry.event.streamVersion, entry.event.body.account)
  }

  // Both projectors see every entry; each ignores the other's events.
  function Visit(views: Views, entry: Logged<Body>): Result<Views, Error> {
    match entry.event.body
    case OfAccount(_, _) =>
      (match Projected(views.accounts, Delivered(entry))
       case Success(rows) => Success(views.(accounts := rows))
       case Failure(why) => Failure(AccountError(why)))
    case OfTransfer(id, e) =>
      (match TP.Projected(views.Transfer(id), e, entry.event.occurredAt)
       case Success(row) => Success(if row.Some? then views.(transfers := views.transfers[id := row.value]) else views)
       case Failure(why) => Failure(TransferError(why)))
  }

  // The first error stops the replay and leaves what was projected before it.
  function VisitAll(views: Views, entries: seq<Logged<Body>>): (Views, Option<Error>) {
    if entries == [] then (views, None)
    else VisitNext(VisitAll(views, entries[..|entries|-1]), entries[|entries|-1])
  }

  function VisitNext(before: (Views, Option<Error>), entry: Logged<Body>): (Views, Option<Error>) {
    if before.1.Some? then before
    else
      var r := Visit(before.0, entry);
      if r.Success? then (r.value, None) else (before.0, Some(r.error))
  }

  // A replay that ends without an error has visited every entry in order; one that ends
  // with an error leaves the views as they were when the first entry that cannot be
  // projected was reached, and that entry's error.
  lemma {:induction false} FirstErrorStops(views: Views, entries: seq<Logged<Body>>)
    returns (k: nat)
    ensures k <= |entries| && VisitAll(views, entries[..k]) == (VisitAll(views, entries).0, None)
    ensures VisitAll(views, entries).1.None? <==> k == |entries|
    ensures k < |entries| ==> Visit(VisitAll(views, entries).0, entries[k]) == Failure(VisitAll(views, entries).1.value)
    decreases |entries|
  {
    if entries == [] {
      k := 0;
    } else {
      var n := |entries| - 1;
      k := FirstErrorStops(views, entries[..n]);
      assert entries[..n][..k] == entries[..k];
      if k == n && Visit(VisitAll(views, entries[..n]).0, entries[n]).Success? {
        k := |entries|;
        assert entries[..k] == entries;
      }
    }
  }

  // An error is of the entry's own projector: the account's events can miss their summary
  // or leave a gap, and a transfer's event can miss its summary.
  lemma VisitFailsIff(views: Views, entry: Logged<Body>)
    ensures Visit(views, entry).Failure? <==>
              match entry.event.body
              case OfAccount(id, e) =>
                var row := views.accounts.Summary(id);
                if row.None? then !e.AccountCreated? || entry.event.streamVersion != 1
                else entry.event.streamVersion > row.value.version + 1
                     || (entry.event.streamVersion == row.value.version + 1 && e.AccountCreated?)
              case OfTransfer(id, e) => views.Transfer(id).None? && !e.TransferInitiated?
  {
  }

  // ---- One account on its own ----

  datatype Local = Local(row: Option<Summary>, statement: seq<Entry>)

  const NOTHING_YET := Local(None, [])

  function LocalOf(rows: Rows, id: string): Local { Local(rows.Summary(id), rows.Statement(id)) }

  function ProjectedLocal(local: Local, e: Stored): Result<Local, AccountProjectors.ProjectionError> {
    match Planned(local.row, e.version, e.event)
    case Skip => Success(local)
    case Fail(why) => Failure(why)
    case Write(row) =>
      Success(Local(Some(AccountReadModel.Upserted(local.row, row)),
          AccountReadModel.Appended(local.statement, EntryOf(e.eventId, e.version, e.event))))
  }

  function ReplayedLocal(local: Local, es: seq<Stored>): Result<Local, AccountProjectors.ProjectionError> {
    if es == [] then Success(local)
    else
      var before := ReplayedLocal(local, es[..|es|-1]);
      if before.Failure? then before else ProjectedLocal(before.value, es[|es|-1])
  }

  // What the account shows after its first p events.
  function LocalAt(events: seq<A.Event>, ids: seq<string>, p: nat): Local
    requires p <= |events| && |ids| == |events|
  {
    Local(if p == 0 then None else Some(SummaryOf(A.Fold(events[..p]))),
          seq(p, i requires 0 <= i < p => EntryOf(ids[i], i + 1, events[i])))
  }

  function Deliveries(id: string, events: seq<A.Event>, ids: seq<string>): seq<Stored>
    requires |ids| == |events|
  {
    seq(|events|, i requires 0 <= i < |events| => Stored(ids[i], id, i + 1, events[i]))
  }

  predicate Distinct(ids: seq<string>) { forall i, j :: 0 <= i < j < |ids| ==> ids[i] != ids[j] }

  // The stream begins with its one AccountCreated.
  predicate CreatedOnce(events: seq<A.Event>) {
    && events != [] && events[0].AccountCreated?
    && forall i :: 0 < i < |events| ==> !events[i].AccountCreated?
  }

  lemma {:induction false} AcceptedIsCreatedOnce(id: string, events: seq<A.Event>)
    requires id != "" && A.Accepted(id, events) && events != [] && events[0].AccountCreated?
    ensures CreatedOnce(events) && A.Fold(events).Exists()
    decreases |events|
  {
    var n := |events| - 1;
    A.AcceptedIsSound(id, events[..n]);
    if n > 0 {
      AcceptedIsCreatedOnce(id, events[..n]);
      assert A.Raised(id, A.Fold(events[..n]), events[n]);
    } else {
      assert events[..0] == [];
      assert A.Raised(id, A.BLANK, events[0]);
    }
  }

  // The next event in sequence takes the account one step on.
  lemma NextEventAdvances(id: string, events: seq<A.Event>, ids: seq<string>, p: nat)
    requires |ids| == |events| && Distinct(ids) && CreatedOnce(events) && p < |events|
    ensures ProjectedLocal(LocalAt(events, ids, p), Stored(ids[p], id, p + 1, events[p])) ==
        Success(LocalAt(events, ids, p + 1))
  {
    var local := LocalAt(events, ids, p);
    var x := EntryOf(ids[p], p + 1, events[p]);
    PlanIsFaithful(events, local.row, p + 1);
    assert Planned(local.row, p + 1, events[p]).Write?;
    assert forall i :: 0 <= i < p ==> local.statement[i].version == i + 1 && local.statement[i].eventId == ids[i];
    var at := AppendInserts(local.statement, x);
    var k := if at < p then at else 0;
    assert p > 0 ==> local.statement[k].version == k + 1;
    assert at == p;
    assert local.statement[..p] + [x] + local.statement[p..] == LocalAt(events, ids, p + 1).statement;
  }

  lemma SeenIsSkipped(id: string, events: seq<A.Event>, ids: seq<string>, p: nat, v: nat)
    requires |ids| == |events| && 0 < v <= p <= |events|
    ensures ProjectedLocal(LocalAt(events, ids, p), Deliveries(id, events, ids)[v-1]) ==
        Success(LocalAt(events, ids, p))
  {
    assert LocalAt(events, ids, p).row.value.version == p;
  }

  lemma ReplayedLocalSnoc(local: Local, es: seq<Stored>, v: nat)
    requires v < |es| && ReplayedLocal(local, es[..v]).Success?
    ensures ReplayedLocal(local, es[..v+1]) == ProjectedLocal(ReplayedLocal(local, es[..v]).value, es[v])
  {
    assert es[..v+1][..v] == es[..v];
  }

  // The v-th delivery onto what the account shows after p events and v - 1 deliveries.
  lemma DeliveryAdvances(id: string, events: seq<A.Event>, ids: seq<string>, p: nat, v: nat)
    requires |ids| == |events| && Distinct(ids) && CreatedOnce(events) && p <= |events| && 0 < v <= |events|
    ensures ProjectedLocal(LocalAt(events, ids, if v - 1 <= p then p else v - 1), Deliveries(id, events, ids)[v-1]) ==
              Success(LocalAt(events, ids, if v <= p then p else v))
  {
    if v <= p {
      SeenIsSkipped(id, events, ids, p, v);
    } else {
      NextEventAdvances(id, events, ids, v - 1);
    }
  }

  // States that follow one another, event by event, are what the replay passes through.
  lemma {:induction false} ReplayPasses(es: seq<Stored>, states: seq<Local>, v: nat)
    requires |states| == |es| + 1 && v <= |es|
    requires forall i :: 0 <= i < |es| ==> ProjectedLocal(states[i], es[i]) == Success(states[i+1])
    ensures ReplayedLocal(states[0], es[..v]) == Success(states[v])
    decreases v
  {
    if v > 0 {
      ReplayPasses(es, states, v - 1);
      ReplayedLocalSnoc(states[0], es, v - 1);
    }
  }

  // Redelivering a stream from its beginning to an account that had already been
  // projected up to p skips what it has and ends with the whole stream.
  lemma OwnStreamCatchesUp(id: string, events: seq<A.Event>, ids: seq<string>, p: nat, v: nat)
    requires |ids| == |events| && Distinct(ids) && CreatedOnce(events) && p <= |events| && v <= |events|
    ensures ReplayedLocal(LocalAt(events, ids, p), Deliveries(id, events, ids)[..v]) ==
              Success(LocalAt(events, ids, if v <= p then p else v))
  {
    var es := Deliveries(id, events, ids);
    var states := seq(|events| + 1, i requires 0 <= i <= |events| => LocalAt(events, ids, if i <= p then p else i));
    forall i | 0 <= i < |es| ensures ProjectedLocal(states[i], es[i]) == Success(states[i+1]) {
      DeliveryAdvances(id, events, ids, p, i + 1);
    }
    ReplayPasses(es, states, v);
  }

  // An empty read model takes a whole stream exactly when it begins with
  // AccountCreated; an accepted stream that begins with AccountFrozen is refused.
  lemma OwnStreamSucceedsIff(id: string, events: seq<A.Event>, ids: seq<string>)
    requires id != "" && A.Accepted(id, events) && |ids| == |events| && Distinct(ids) && events != []
    ensures ReplayedLocal(NOTHING_YET, Deliveries(id, events, ids)).Success? <==> events[0].AccountCreated?
    ensures events[0].AccountCreated? ==>
              ReplayedLocal(NOTHING_YET, Deliveries(id, events, ids)) == Success(LocalAt(events, ids, |events|))
  {
    var es := Deliveries(id, events, ids);
    assert es[..|events|] == es;
    if events[0].AccountCreated? {
      AcceptedIsCreatedOnce(id, events);
      assert LocalAt(events, ids, 0) == NOTHING_YET;
      OwnStreamCatchesUp(id, events, ids, 0, |events|);
    } else {
      assert es[..1][..0] == [];
      assert ReplayedLocal(NOTHING_YET, es[..1]).Failure?;
      LocalFailureStays(NOTHING_YET, es, 1);
    }
  }

  lemma {:induction false} LocalFailureStays(local: Local, es: seq<Stored>, n: nat)
    requires n <= |es| && ReplayedLocal(local, es[..n]).Failure?
    ensures ReplayedLocal(local, es).Failure?
    decreases |es|
  {
    if n == |es| {
      assert es[..n] == es;
    } else {
      assert es[..|es|-1][..n] == es[..n];
      LocalFailureStays(local, es[..|es|-1], n);
    }
  }

  // ---- The interleaved log ----

  // What the log delivers of one account.
  function AccountPart(entries: seq<Logged<Body>>, id: string): seq<Stored> {
    if entries == [] then []
    else
      var last := entries[|entries|-1];
      AccountPart(entries[..|entries|-1], id)
        + (if last.event.body.OfAccount? && last.event.body.accountId == id then [Delivered(last)] else [])
  }

  // ... and of one transfer, with the times.
  function TransferPart(entries: seq<Logged<Body>>, id: string): (part: (seq<T.Event>, seq<int>))
    ensures |part.0| == |part.1|
  {
    if entries == [] then ([], [])
    else
      var before, last := TransferPart(entries[..|entries|-1], id), entries[|entries|-1];
      if last.event.body.OfTransfer? && last.event.body.transferId == id
      then (before.0 + [last.event.body.transfer], before.1 + [last.event.occurredAt])
      else before
  }

  // Visiting an entry touches its own account only.
  lemma VisitIsLocal(views: Views, entry: Logged<Body>, id: string)
    ensures var r := Visit(views, entry);
            var mine := entry.event.body.OfAccount? && entry.event.body.accountId == id;
            && (mine ==> (r.Success? <==> ProjectedLocal(LocalOf(views.accounts, id), Delivered(entry)).Success?))
            && (r.Success? ==>
                  LocalOf(r.value.accounts, id) ==
                    (if mine then ProjectedLocal(LocalOf(views.accounts, id), Delivered(entry)).value
                     else LocalOf(views.accounts, id)))
  {
  }

  lemma VisitIsLocalToTransfers(views: Views, entry: Logged<Body>, id: string)
    ensures var r := Visit(views, entry);
            var mine := entry.event.body.OfTransfer? && entry.event.body.transferId == id;
            var projected := if mine
                             then TP.Projected(views.Transfer(id), entry.event.body.transfer, entry.event.occurredAt)
                             else Success(views.Transfer(id));
            && (mine ==> (r.Success? <==> projected.Success?))
            && (r.Success? ==> projected == Success(r.value.Transfer(id)))
  {
  }

  // A replay of the log that raises no error gives each account exactly what its
  // own stream gives, and each transfer likewise.
  lemma {:induction false} EachGetsItsOwn(views: Views, entries: seq<Logged<Body>>, account: string, transfer: string)
    requires VisitAll(views, entries).1.None?
    ensures var after := VisitAll(views, entries).0;
            && ReplayedLocal(LocalOf(views.accounts, account), AccountPart(entries, account))
                 == Success(LocalOf(after.accounts, account))
            && TP.Replayed(views.Transfer(transfer), TransferPart(entries, transfer).0,
                TransferPart(entries, transfer).1)
                 == Success(after.Transfer(transfer))
    decreases |entries|
  {
    if entries != [] {
      var n := |entries| - 1;
      EachGetsItsOwn(views, entries[..n], account, transfer);
      var before := VisitAll(views, entries[..n]).0;
      VisitIsLocal(before, entries[n], account);
      VisitIsLocalToTransfers(before, entries[n], transfer);
      PartsSnoc(views, entries, account, transfer);
    }
  }

  lemma PartsSnoc(views: Views, entries: seq<Logged<Body>>, account: string, transfer: string)
    requires entries != []
    ensures var init, last := entries[..|entries|-1], entries[|entries|-1];
            var a, t := AccountPart(entries, account), TransferPart(entries, transfer);
            && (if last.event.body.OfAccount? && last.event.body.accountId == account
                then a != [] && a[..|a|-1] == AccountPart(init, account) && a[|a|-1] == Delivered(last)
                else a == AccountPart(init, account))
            && (if last.event.body.OfTransfer? && last.event.body.transferId == transfer
                then t.0 != [] && t.0[..|t.0|-1] == TransferPart(init, transfer).0
                     && t.0[|t.0|-1] == last.event.body.transfer
                  && t.1[..|t.1|-1] == TransferPart(init, transfer).1 && t.1[|t.1|-1] == last.event.occurredAt
                else t == TransferPart(init, transfer))
  {
  }

  ghost predicate AllSucceed(views: Views, entries: seq<Logged<Body>>) {
    && (forall id :: ReplayedLocal(LocalOf(views.accounts, id), AccountPart(entries, id)).Success?)
    && (forall id :: TP.Replayed(views.Transfer(id), TransferPart(entries, id).0, TransferPart(entries, id).1).Success?)
  }

  // If every account's and every transfer's own part raises no error, neither does
  // their interleaving.
  lemma {:induction false} InterleavingSucceeds(views: Views, entries: seq<Logged<Body>>)
    requires AllSucceed(views, entries)
    ensures VisitAll(views, entries).1.None?
    decreases |entries|
  {
    if entries != [] {
      var n := |entries| - 1;
      var init, body := entries[..n], entries[n].event.body;
      forall id
        ensures ReplayedLocal(LocalOf(views.accounts, id), AccountPart(init, id)).Success?
        ensures TP.Replayed(views.Transfer(id), TransferPart(init, id).0, TransferPart(init, id).1).Success?
      {
        PartsSnoc(views, entries, id, id);
        assert ReplayedLocal(LocalOf(views.accounts, id), AccountPart(entries, id)).Success?;
        assert TP.Replayed(views.Transfer(id), TransferPart(entries, id).0, TransferPart(entries, id).1).Success?;
      }
      InterleavingSucceeds(views, init);
      var before := VisitAll(views, init).0;
      var id := if body.OfAccount? then body.accountId else body.transferId;
      EachGetsItsOwn(views, init, id, id);
      PartsSnoc(views, entries, id, id);
      assert ReplayedLocal(LocalOf(views.accounts, id), AccountPart(entries, id)).Success?;
      assert TP.Replayed(views.Transfer(id), TransferPart(entries, id).0, TransferPart(entries, id).1).Success?;
      VisitIsLocal(before, entries[n], id);
      VisitIsLocalToTransfers(before, entries[n], id);
    }
  }
}
