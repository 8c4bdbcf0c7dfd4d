// Projecting transfer events onto one row per transfer. The projector has no gap
// check; the store keeps the row it has only when that row is strictly newer.
module TransferProjectors {
  import opened Wrappers
  import T = Transfers

  // What a row shows, apart from its timestamps.
  datatype Shown = Shown(
    info: T.Info, status: T.Status, failure: Option<(string, T.Stage)>,
    debit: T.LegState, credit: T.LegState, compensation: T.LegState)

  datatype Row = Row(shown: Shown, updatedAt: int)

  datatype ProjectionError = MissingSummary

  // What the projector upserts, given the row it has read.
  function Candidate(existing: Option<Shown>, e: T.Event): Option<Shown> {
    if e.TransferInitiated? then Some(Shown(e.info, T.Initiated, None, T.UNSTARTED, T.UNSTARTED, T.UNSTARTED))
    else if existing.None? then None
    else
      var row := existing.value;
      match e
      case TransferStarted(Debit, tx, n) =>
        Some(row.(status := T.DebitInProgress, debit := T.LegState(Some(tx), n), failure := None))
      case TransferStarted(Credit, tx, n) =>
        Some(row.(status := T.CreditInProgress, credit := T.LegState(Some(tx), n), failure := None))
      case TransferStarted(Compensation, tx, n) =>
        Some(row.(status := T.CompensationInProgress, compensation := T.LegState(Some(tx), n)))
      case TransferDebited(_) => Some(row.(status := T.Debited))
      case TransferCompleted => Some(row.(status := T.Completed))
      case TransferFailed(reason, stage) => Some(row.(status := T.Failed, failure := Some((reason, stage))))
      case TransferCompensated(_) => Some(row.(status := T.Compensated))
      case _ => existing
  }

  function Upserted(current: Option<Row>, row: Row): Row {
    if current.Some? && current.value.updatedAt > row.updatedAt then current.value else row
  }

  function ShownIn(row: Option<Row>): Option<Shown> { if row.Some? then Some(row.value.shown) else None }

  function Projected(row: Option<Row>, e: T.Event, at: int): Result<Option<Row>, ProjectionError> {
    var candidate := Candidate(ShownIn(row), e);
    if candidate.None? then Failure(MissingSummary) else Success(Some(Upserted(row, Row(candidate.value, at))))
  }

  // Events one after another; the first error stops the replay.
  function Replayed(row: Option<Row>, es: seq<T.Event>, times: seq<int>): Result<Option<Row>, ProjectionError>
    requires |times| == |es|
    decreases |es|
  {
    if es == [] then Success(row)
    else
      var before := Replayed(row, es[..|es|-1], times[..|es|-1]);
      if before.Failure? then before else Projected(before.value, es[|es|-1], times[|es|-1])
  }

  // ---- The row an aggregate shows ----

  predicate Showable(st: T.State) { st.info.Some? && st.status.Some? }

  function ShownBy(st: T.State): Shown
    requires Showable(st)
  {
    Shown(st.info.value, st.status.value, st.failure, st.debit, st.credit, st.compensation)
  }

  // Only the first event of an accepted stream is TransferInitiated.
  predicate Begun(es: seq<T.Event>) {
    && es != [] && es[0].TransferInitiated?
    && forall i :: 0 < i < |es| ==> !es[i].TransferInitiated?
  }

  lemma {:induction false} AcceptedIsBegun(id: string, es: seq<T.Event>)
    requires id != "" && T.Accepted(id, es) && es != []
    ensures Begun(es) && Showable(T.Fold(es)) && T.Fold(es).info.value.transferId == id
    decreases |es|
  {
    if |es| > 1 {
      AcceptedIsBegun(id, es[..|es|-1]);
    } else {
      assert es[..|es|-1] == [];
    }
  }

  lemma {:induction false} BegunIsShowable(es: seq<T.Event>)
    requires Begun(es)
    ensures Showable(T.Fold(es))
    decreases |es|
  {
    if |es| > 1 {
      BegunIsShowable(es[..|es|-1]);
    } else {
      assert es[..|es|-1] == [];
    }
  }

  function RowAt(es: seq<T.Event>, times: seq<int>, n: nat): Row
    requires Begun(es) && |times| == |es| && 0 < n <= |es|
  {
    BegunIsShowable(es[..n]);
    Row(ShownBy(T.Fold(es[..n])), times[n-1])
  }

  // The candidate for the next event of the stream is the aggregate's next row.
  lemma CandidateFollows(es: seq<T.Event>, times: seq<int>, n: nat)
    requires Begun(es) && |times| == |es| && n < |es|
    ensures Candidate(if n == 0 then None else Some(RowAt(es, times, n).shown), es[n]) ==
        Some(RowAt(es, times, n + 1).shown)
  {
    assert es[..n+1] == es[..n] + [es[n]];
    T.FoldSnoc(es[..n], es[n]);
    assert n == 0 ==> es[..n] == [];
  }

  predicate NonDecreasing(times: seq<int>) { forall i, j :: 0 <= i < j < |times| ==> times[i] <= times[j] }

  lemma OrderedSnoc(times: seq<int>, t: int)
    ensures NonDecreasing(times + [t]) <==> NonDecreasing(times) && (times == [] || times[|times|-1] <= t)
  {
    var all := times + [t];
    assert forall i :: 0 <= i < |times| ==> all[i] == times[i];
    assert all[|times|] == t;
  }

  // ---- In order ----

  lemma {:induction false} InOrder(es: seq<T.Event>, times: seq<int>, n: nat)
    requires Begun(es) && |times| == |es| && 0 < n <= |es| && NonDecreasing(times[..n])
    ensures Replayed(None, es[..n], times[..n]) == Success(Some(RowAt(es, times, n)))
  {
    assert es[..n][..n-1] == es[..n-1] && times[..n][..n-1] == times[..n-1];
    CandidateFollows(es, times, n - 1);
    if n > 1 {
      assert times[..n] == times[..n-1] + [times[n-1]];
      OrderedSnoc(times[..n-1], times[n-1]);
      InOrder(es, times, n - 1);
    }
  }

  // Every accepted event after the first changes what the row shows.
  lemma EventsShow(id: string, st: T.State, e: T.Event)
    requires id != "" && T.Raised(id, st, e) && Showable(st) && st.info.value.transferId != ""
    ensures Showable(T.When(st, e)) && ShownBy(T.When(st, e)) != ShownBy(st)
  {
    var cmd :| T.AddressedTo(id, cmd) && T.Decide(st, cmd) == Success(e);
  }

  // After every event the row shows what the aggregate shows.
  predicate AlwaysShows(es: seq<T.Event>, times: seq<int>)
    requires Begun(es) && |times| == |es|
  {
    forall n :: 0 < n <= |es| ==>
      var row := Replayed(None, es[..n], times[..n]);
      row.Success? && row.value.Some? && row.value.value.shown == RowAt(es, times, n).shown
  }

  // The first time that is smaller than the one before it.
  lemma {:induction false} FirstDescent(times: seq<int>) returns (k: nat)
    requires !NonDecreasing(times)
    ensures 0 < k < |times| && times[k] < times[k-1] && NonDecreasing(times[..k])
    decreases |times|
  {
    var n := |times| - 1;
    if NonDecreasing(times[..n]) {
      k := n;
      assert times == times[..n] + [times[n]];
      OrderedSnoc(times[..n], times[n]);
    } else {
      k := FirstDescent(times[..n]);
      assert times[..n][..k] == times[..k];
    }
  }

  // Projecting an accepted stream in order shows the aggregate after every event if
  // and only if occurredAt never decreases along the stream.
  lemma InOrderIffNonDecreasing(id: string, es: seq<T.Event>, times: seq<int>)
    requires id != "" && T.Accepted(id, es) && es != [] && |times| == |es|
    ensures Begun(es)
    ensures AlwaysShows(es, times) <==> NonDecreasing(times)
  {
    AcceptedIsBegun(id, es);
    if NonDecreasing(times) {
      forall n | 0 < n <= |es| ensures Replayed(None, es[..n], times[..n]) == Success(Some(RowAt(es, times, n))) {
        InOrder(es, times, n);
      }
    } else {
      var k := FirstDescent(times);
      DescentHides(id, es, times, k);
    }
  }

  // An event older than the one before it is not shown.
  lemma DescentHides(id: string, es: seq<T.Event>, times: seq<int>, k: nat)
    requires id != "" && T.Accepted(id, es) && Begun(es) && |times| == |es|
    requires 0 < k < |es| && times[k] < times[k-1] && NonDecreasing(times[..k])
    ensures Replayed(None, es[..k+1], times[..k+1]) == Success(Some(RowAt(es, times, k)))
    ensures RowAt(es, times, k).shown != RowAt(es, times, k + 1).shown
  {
    InOrder(es, times, k);
    CandidateFollows(es, times, k);
    assert es[..k+1][..k] == es[..k] && times[..k+1][..k] == times[..k];
    AcceptedPrefix(id, es, k);
    AcceptedIsBegun(id, es[..k]);
    EventsShow(id, T.Fold(es[..k]), es[k]);
  }

  lemma {:induction false} AcceptedPrefix(id: string, es: seq<T.Event>, n: nat)
    requires T.Accepted(id, es) && n <= |es|
    ensures T.Accepted(id, es[..n])
    ensures n < |es| ==> T.Raised(id, T.Fold(es[..n]), es[n])
    decreases |es|
  {
    if n == |es| {
      assert es[..n] == es;
    } else if n < |es| - 1 {
      AcceptedPrefix(id, es[..|es|-1], n);
      assert es[..|es|-1][..n] == es[..n];
    }
  }

  // ---- Redelivery ----

  // What a run of events writes: for each field the last value, if any.
  datatype Delta = Delta(
    info: Option<T.Info>, status: Option<T.Status>, failure: Option<Option<(string, T.Stage)>>,
    debit: Option<T.LegState>, credit: Option<T.LegState>, compensation: Option<T.LegState>)

  const NOTHING := Delta(None, None, None, None, None, None)

  function DeltaOf(e: T.Event): Delta {
    match e
    case TransferInitiated(info) =>
      Delta(Some(info), Some(T.Initiated), Some(None), Some(T.UNSTARTED), Some(T.UNSTARTED), Some(T.UNSTARTED))
    case TransferStarted(Debit, tx, n) =>
      NOTHING.(status := Some(T.DebitInProgress), failure := Some(None), debit := Some(T.LegState(Some(tx), n)))
    case TransferStarted(Credit, tx, n) =>
      NOTHING.(status := Some(T.CreditInProgress), failure := Some(None), credit := Some(T.LegState(Some(tx), n)))
    case TransferStarted(Compensation, tx, n) =>
      NOTHING.(status := Some(T.CompensationInProgress), compensation := Some(T.LegState(Some(tx), n)))
    case TransferDebited(_) => NOTHING.(status := Some(T.Debited))
    case TransferCompleted => NOTHING.(status := Some(T.Completed))
    case TransferFailed(reason, stage) => NOTHING.(status := Some(T.Failed), failure := Some(Some((reason, stage))))
    case TransferCompensated(_) => NOTHING.(status := Some(T.Compensated))
  }

  function Later<X>(a: Option<X>, b: Option<X>): Option<X> { if b.Some? then b else a }

  function Then(a: Delta, b: Delta): Delta {
    Delta(Later(a.info, b.info), Later(a.status, b.status), Later(a.failure, b.failure),
          Later(a.debit, b.debit), Later(a.credit, b.credit), Later(a.compensation, b.compensation))
  }

  function Merge(s: Shown, d: Delta): Shown {
    Shown(d.info.GetOr(s.info), d.status.GetOr(s.status), d.failure.GetOr(s.failure),
          d.debit.GetOr(s.debit), d.credit.GetOr(s.credit), d.compensation.GetOr(s.compensation))
  }

  // What es[lo..hi] writes.
  function Written(es: seq<T.Event>, lo: nat, hi: nat): Delta
    requires lo <= hi <= |es|
  {
    if lo == hi then NOTHING else Then(Written(es, lo, hi - 1), DeltaOf(es[hi-1]))
  }

  // The row after hi events is the row after lo with the writes between merged in;
  // merging them a second time changes nothing.
  lemma {:induction false} RowsByWrites(es: seq<T.Event>, times: seq<int>, lo: nat, hi: nat)
    requires Begun(es) && |times| == |es| && 0 < lo <= hi <= |es|
    ensures RowAt(es, times, hi).shown == Merge(RowAt(es, times, lo).shown, Written(es, lo, hi))
    decreases hi
  {
    if lo < hi {
      RowsByWrites(es, times, lo, hi - 1);
      CandidateFollows(es, times, hi - 1);
    }
  }

  lemma {:induction false} FirstWritesAll(es: seq<T.Event>, times: seq<int>, hi: nat, s: Shown)
    requires Begun(es) && |times| == |es| && 0 < hi <= |es|
    ensures Merge(s, Written(es, 0, hi)) == RowAt(es, times, hi).shown
  {
    CandidateFollows(es, times, hi - 1);
    if hi > 1 {
      FirstWritesAll(es, times, hi - 1, s);
    } else {
      assert Written(es, 0, 0) == NOTHING;
    }
  }

  lemma MergeAgain(es: seq<T.Event>, times: seq<int>, r: nat, p: nat)
    requires Begun(es) && |times| == |es| && r <= p <= |es| && 0 < p
    ensures Merge(RowAt(es, times, p).shown, Written(es, r, p)) == RowAt(es, times, p).shown
  {
    if r == 0 {
      FirstWritesAll(es, times, p, RowAt(es, times, p).shown);
    } else {
      RowsByWrites(es, times, r, p);
    }
  }

  // Events r..hi-1 applied to the row after p events, with r <= p <= hi.
  lemma {:induction false} OverlapCatchesUp(es: seq<T.Event>, times: seq<int>, r: nat, p: nat, hi: nat)
    requires Begun(es) && |times| == |es| && r <= p <= hi <= |es| && 0 < p
    ensures Merge(RowAt(es, times, p).shown, Written(es, r, hi)) == RowAt(es, times, hi).shown
    decreases hi
  {
    if hi == p {
      MergeAgain(es, times, r, p);
    } else {
      OverlapCatchesUp(es, times, r, p, hi - 1);
      CandidateFollows(es, times, hi - 1);
    }
  }

  // The last event of a slice is projected last.
  lemma SliceSnoc(row: Option<Row>, es: seq<T.Event>, times: seq<int>, a: nat, i: nat)
    requires |times| == |es| && a < i <= |es|
    ensures var before := Replayed(row, es[a..i-1], times[a..i-1]);
            Replayed(row, es[a..i], times[a..i]) ==
              (if before.Failure? then before else Projected(before.value, es[i-1], times[i-1]))
  {
    var slice, at := es[a..i], times[a..i];
    assert slice[..|slice|-1] == es[a..i-1] && at[..|slice|-1] == times[a..i-1];
    assert slice[|slice|-1] == es[i-1] && at[|slice|-1] == times[i-1];
  }

  // Projecting one more event merges one more write.
  lemma MergeNext(es: seq<T.Event>, s: Shown, r: nat, i: nat)
    requires r < i <= |es|
    ensures Candidate(Some(Merge(s, Written(es, r, i - 1))), es[i-1]) == Some(Merge(s, Written(es, r, i)))
  {
  }

  // While the replay of es[a..] is still among events older than the row, nothing
  // happens; from the first event r that is not, every event is applied.
  lemma {:induction false} ReplayOnto(es: seq<T.Event>, times: seq<int>, a: nat, p: nat, r: nat, i: nat)
    requires Begun(es) && |times| == |es| && NonDecreasing(times)
    requires a <= r < p <= |es| && a <= i <= |es|
    requires times[r] == times[p-1] && (a < r ==> times[r-1] < times[p-1])
    ensures Replayed(Some(RowAt(es, times, p)), es[a..i], times[a..i]) ==
              Success(Some(if i <= r then RowAt(es, times, p)
                           else Row(Merge(RowAt(es, times, p).shown, Written(es, r, i)), times[i-1])))
    decreases i
  {
    if i > a {
      ReplayOnto(es, times, a, p, r, i - 1);
      SliceSnoc(Some(RowAt(es, times, p)), es, times, a, i);
      if r < i {
        MergeNext(es, RowAt(es, times, p).shown, r, i);
      }
    } else {
      assert es[a..i] == [];
    }
  }

  // The first event at or after a that is as late as the last one projected.
  lemma {:induction false} FirstNotOlder(times: seq<int>, a: nat, p: nat) returns (r: nat)
    requires a < p <= |times| && NonDecreasing(times)
    ensures a <= r < p && times[r] == times[p-1] && (a < r ==> times[r-1] < times[p-1])
    decreases p - a
  {
    if times[a] == times[p-1] {
      r := a;
    } else {
      r := FirstNotOlder(times, a + 1, p);
    }
  }

  // Redelivering a stream from any position a up to which it had been projected
  // ends exactly at the full row, if occurredAt never decreases. In particular
  // replaying the whole stream onto any prefix does (a == 0).
  lemma RedeliveryCatchesUp(id: string, es: seq<T.Event>, times: seq<int>, a: nat, p: nat)
    requires id != "" && T.Accepted(id, es) && |times| == |es| && NonDecreasing(times)
    requires a <= p <= |es| && 0 < p
    ensures Begun(es)
    ensures Replayed(Some(RowAt(es, times, p)), es[a..], times[a..]) == Success(Some(RowAt(es, times, |es|)))
  {
    AcceptedIsBegun(id, es);
    var n := |es|;
    assert es[a..] == es[a..n] && times[a..] == times[a..n];
    if a < p {
      var r := FirstNotOlder(times, a, p);
      ReplayOnto(es, times, a, p, r, n);
      OverlapCatchesUp(es, times, r, p, n);
    } else {
      Continues(es, times, p, n);
    }
  }

  lemma {:induction false} Continues(es: seq<T.Event>, times: seq<int>, p: nat, i: nat)
    requires Begun(es) && |times| == |es| && NonDecreasing(times) && 0 < p <= i <= |es|
    ensures Replayed(Some(RowAt(es, times, p)), es[p..i], times[p..i]) == Success(Some(RowAt(es, times, i)))
    decreases i
  {
    if i > p {
      Continues(es, times, p, i - 1);
      CandidateFollows(es, times, i - 1);
      SliceSnoc(Some(RowAt(es, times, p)), es, times, p, i);
    } else {
      assert es[p..i] == [];
    }
  }

  // On the way a replay may show an older state: redelivering the first event sets
  // the row back to it exactly when it is as late as the last one projected.
  lemma EqualTimesRegress(id: string, es: seq<T.Event>, times: seq<int>, p: nat)
    requires id != "" && T.Accepted(id, es) && |times| == |es| && NonDecreasing(times) && 1 < p <= |es|
    ensures Begun(es)
    ensures Replayed(Some(RowAt(es, times, p)), es[..1], times[..1]) ==
              Success(Some(RowAt(es, times, if times[0] == times[p-1] then 1 else p)))
  {
    AcceptedIsBegun(id, es);
    CandidateFollows(es, times, 0);
    assert es[..1][..0] == [] && times[..1][..0] == [];
    assert times[0] <= times[p-1];
  }

  // ---- The projector and its store ----

  class InMemoryTransferReadModel {
    var summaries: map<string, Row>

    function RowOf(id: string): Option<Row>
      reads this
    {
      if id in summaries then Some(summaries[id]) else None
    }

    constructor ()
      ensures summaries == map[]
    {
      summaries := map[];
    }

    method UpsertTransferSummary(id: string, row: Row)
      modifies this
      ensures summaries == old(summaries)[id := Upserted(old(RowOf(id)), row)]
      ensures summaries == if id in old(summaries) && old(summaries)[id].updatedAt > row.updatedAt
                           then old(summaries) else old(summaries)[id := row]
    {
      if id in summaries && summaries[id].updatedAt > row.updatedAt {
        assert summaries == summaries[id := summaries[id]];
        return;
      }
      summaries := summaries[id := row];
    }

    method ResetTransfer(id: string)
      modifies this
      ensures summaries == old(summaries) - {id}
    {
      summaries := summaries - {id};
    }

    method ResetAll()
      modifies this
      ensures summaries == map[]
    {
      summaries := map[];
    }

    method Project(id: string, e: T.Event, at: int) returns (r: Result<(), ProjectionError>)
      modifies this
      ensures match Projected(old(RowOf(id)), e, at)
              case Success(row) => r == Success(()) && row.Some? && summaries == old(summaries)[id := row.value]
              case Failure(why) => r == Failure(why) && summaries == old(summaries)
      ensures r == Failure(MissingSummary) <==> id !in old(summaries) && !e.TransferInitiated?
    {
      var existing := RowOf(id);
      if e.TransferInitiated? {
        UpsertTransferSummary(id,
          Row(Shown(e.info, T.Initiated, None, T.UNSTARTED, T.UNSTARTED, T.UNSTARTED), at));
        return Success(());
      }
      if existing.None? {
        return Failure(MissingSummary);
      }
      var row := existing.value.shown;
      match e {
        case TransferStarted(Debit, tx, n) =>
          row := row.(status := T.DebitInProgress, debit := T.LegState(Some(tx), n), failure := None);
        case TransferStarted(Credit, tx, n) =>
          row := row.(status := T.CreditInProgress, credit := T.LegState(Some(tx), n), failure := None);
        case TransferStarted(Compensation, tx, n) =>
          row := row.(status := T.CompensationInProgress, compensation := T.LegState(Some(tx), n));
        case TransferDebited(_) => row := row.(status := T.Debited);
        case TransferCompleted => row := row.(status := T.Completed);
        case TransferFailed(reason, stage) => row := row.(status := T.Failed, failure := Some((reason, stage)));
        case TransferCompensated(_) => row := row.(status := T.Compensated);
      }
      UpsertTransferSummary(id, Row(row, at));
      return Success(());
    }

    // Reset, then project the transfer's own stream.
    method Rebuild(id: string, es: seq<T.Event>, times: seq<int>) returns (r: Result<(), ProjectionError>)
      requires |times| == |es|
      modifies this
      ensures Replayed(None, es, times).Success? <==> r.Success?
      ensures r.Success? ==> RowOf(id) == Replayed(None, es, times).value
      ensures forall other :: other != id ==> RowOf(other) == old(RowOf(other))
    {
      r := Success(());
      ResetTransfer(id);
      for i := 0 to |es|
        invariant Replayed(None, es[..i], times[..i]) == Success(RowOf(id)) && r == Success(())
        invariant forall other :: other != id ==> RowOf(other) == old(RowOf(other))
      {
        assert es[..i+1][..i] == es[..i] && times[..i+1][..i] == times[..i];
        r := Project(id, es[i], times[i]);
        if r.Failure? {
          FailureStays(None, es, times, i + 1);
          return;
        }
      }
      assert es[..|es|] == es && times[..|es|] == times;
    }
  }

  // The first error stops a replay.
  lemma {:induction false} FailureStays(row: Option<Row>, es: seq<T.Event>, times: seq<int>, n: nat)
    requires |times| == |es| && n <= |es| && Replayed(row, es[..n], times[..n]).Failure?
    ensures Replayed(row, es, times).Failure?
    decreases |es|
  {
    if n == |es| {
      assert es[..n] == es && times[..n] == times;
    } else {
      assert es[..|es|-1][..n] == es[..n] && times[..|es|-1][..n] == times[..n];
      FailureStays(row, es[..|es|-1], times[..|es|-1], n);
    }
  }
}
