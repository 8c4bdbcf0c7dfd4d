// The account read model: one summary row and one statement per account, with a
// version guard on the row and a deduplicating, version-sorted statement.
module AccountReadModel {
  import opened Sorting
  import opened Wrappers
  import A = Accounts

  datatype Summary = Summary(owner: string, currency: string, status: A.Status, balance: int, version: nat)

  // What a statement entry says about its event, without the transfer labels.
  datatype Line =
    | Opened
    | Deposited(amount: int, currency: string, transactionId: string)
    | Withdrawn(amount: int, currency: string, transactionId: string)
    | Froze(reason: string)

  datatype Entry = Entry(eventId: string, version: nat, line: Line)

  datatype Rows = Rows(summaries: map<string, Summary>, statements: map<string, seq<Entry>>)
  {
    function Summary(id: string): Option<Summary> { if id in summaries then Some(summaries[id]) else None }

    function Statement(id: string): seq<Entry> { if id in statements then statements[id] else [] }
  }

  const NO_ROWS := Rows(map[], map[])

  // ---- The row ----

  function Upserted(current: Option<Summary>, row: Summary): Summary {
    if current.Some? && current.value.version >= row.version then current.value else row
  }

  // ---- The statement ----

  function ByVersion(x: Entry): Key { (x.version, 0) }

  predicate HasEvent(xs: seq<Entry>, eventId: string) { exists i :: 0 <= i < |xs| && xs[i].eventId == eventId }

  function Appended(current: seq<Entry>, x: Entry): seq<Entry> {
    if HasEvent(current, x.eventId) then current else StableSort(ByVersion, current + [x])
  }

  // On a sorted statement without the event, appending puts the entry at the one
  // place its version belongs and moves nothing else.
  lemma AppendInserts(xs: seq<Entry>, x: Entry) returns (at: nat)
    requires Sorted(ByVersion, xs) && !HasEvent(xs, x.eventId)
    ensures at <= |xs| && Appended(xs, x) == xs[..at] + [x] + xs[at..]
    ensures forall i :: 0 <= i < |xs| ==> (i < at <==> xs[i].version <= x.version)
  {
    SortKeepsSorted(ByVersion, xs);
    assert (xs + [x])[..|xs|] == xs;
    at := InsertSorts(ByVersion, xs, x);
  }

  // ---- The store ----

  function Upsert(rows: Rows, id: string, row: Summary): Rows {
    rows.(summaries := rows.summaries[id := Upserted(rows.Summary(id), row)])
  }

  function Append(rows: Rows, id: string, x: Entry): Rows {
    if HasEvent(rows.Statement(id), x.eventId) then rows
    else rows.(statements := rows.statements[id := StableSort(ByVersion, rows.Statement(id) + [x])])
  }

  function WithoutAccount(rows: Rows, id: string): Rows {
    Rows(rows.summaries - {id}, rows.statements - {id})
  }

  class InMemoryAccountReadModel {
    var summaries: map<string, Summary>
    var statements: map<string, seq<Entry>>

    function Contents(): Rows
      reads this
    {
      Rows(summaries, statements)
    }

    constructor ()
      ensures Contents() == NO_ROWS
    {
      summaries, statements := map[], map[];
    }

    method GetAccountSummary(id: string) returns (r: Option<Summary>)
      ensures r == Contents().Summary(id)
    {
      r := if id in summaries then Some(summaries[id]) else None;
    }

    method UpsertAccountSummary(id: string, row: Summary)
      modifies this
      ensures Contents() == Upsert(old(Contents()), id, row)
      ensures statements == old(statements)
      ensures summaries == if id in old(summaries) && old(summaries)[id].version >= row.version then old(summaries)
                           else old(summaries)[id := row]
    {
      if id in summaries && summaries[id].version >= row.version {
        assert summaries == summaries[id := summaries[id]];
        return;
      }
      summaries := summaries[id := row];
    }

    // `some`: the statement is searched front to back.
    method AppendAccountStatement(id: string, entry: Entry)
      modifies this
      ensures Contents() == Append(old(Contents()), id, entry)
      ensures summaries == old(summaries)
      ensures var current := old(Contents().Statement(id));
              if exists k :: 0 <= k < |current| && current[k].eventId == entry.eventId
              then statements == old(statements)
              else statements == old(statements)[id := StableSort(ByVersion, current + [entry])]
    {
      var current := if id in statements then statements[id] else [];
      for i := 0 to |current|
        invariant forall k :: 0 <= k < i ==> current[k].eventId != entry.eventId
      {
        if current[i].eventId == entry.eventId {
          return;
        }
      }
      statements := statements[id := StableSort(ByVersion, current + [entry])];
    }

    method ResetAccount(id: string)
      modifies this
      ensures Contents() == WithoutAccount(old(Contents()), id)
      ensures id !in summaries && id !in statements
      ensures forall other :: other != id ==>
                Contents().Summary(other) == old(Contents().Summary(other))
                && Contents().Statement(other) == old(Contents().Statement(other))
    {
      summaries := summaries - {id};
      statements := statements - {id};
    }

    method ResetAll()
      modifies this
      ensures Contents() == NO_ROWS
    {
      summaries := map[];
      statements := map[];
    }
  }
}
