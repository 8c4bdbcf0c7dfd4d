// Projecting one event of an account stream onto the account read model.
module AccountProjectors {
  import opened Wrappers
  import opened AccountReadModel
  import A = Accounts

  // An event as it is delivered: its id, the account its data names and its stream version.
  datatype Stored = Stored(eventId: string, accountId: string, version: nat, event: A.Event)

  datatype ProjectionError = MissingSummary | Gap(expected: nat, received: nat)

  datatype Plan = Skip | Fail(why: ProjectionError) | Write(row: Summary)

  // What a projector that has read `existing` is going to do with an event.
  function Planned(existing: Option<Summary>, version: nat, e: A.Event): Plan {
    if e.AccountCreated? then
      if existing.Some? && existing.value.version >= version then Skip
      else if existing.Some? then Fail(Gap(existing.value.version + 1, version))
      else if version != 1 then Fail(Gap(1, version))
      else Write(Summary(e.ownerId, e.currency, A.Active, 0, version))
    else if existing.None? then Fail(MissingSummary)
    else if existing.value.version >= version then Skip
    else if existing.value.version + 1 != version then Fail(Gap(existing.value.version + 1, version))
    else
      var row := existing.value.(version := version);
      match e
      case MoneyDeposited(n, _, _) => Write(row.(balance := row.balance + n))
      case MoneyWithdrawn(n, _, _) => Write(row.(balance := row.balance - n))
      case AccountFrozen(_) => Write(row.(status := A.Frozen))
      case _ => Skip
  }

  function LineOf(e: A.Event): Line {
    match e
    case AccountCreated(_, _, _) => Opened
    case MoneyDeposited(n, currency, tx) => Deposited(n, currency, tx)
    case MoneyWithdrawn(n, currency, tx) => Withdrawn(n, currency, tx)
    case AccountFrozen(reason) => Froze(reason)
  }

  function EntryOf(eventId: string, version: nat, e: A.Event): Entry { Entry(eventId, version, LineOf(e)) }

  // The row an aggregate in state st shows.
  function SummaryOf(st: A.State): Summary {
    Summary(st.ownerId.GetOr(""), st.currency.GetOr(""), st.status, st.balance, st.version)
  }

  // The row is the aggregate's after its first `version` events.
  predicate RowOk(events: seq<A.Event>, row: Summary) {
    && 0 < row.version <= |events|
    && events[0].AccountCreated?
    && row == SummaryOf(A.Fold(events[..row.version]))
  }

  predicate RowFits(events: seq<A.Event>, row: Option<Summary>) { row.Some? ==> RowOk(events, row.value) }

  // Whatever faithful row was read, however old, and whichever event was delivered:
  // what is going to be written is the aggregate's row at that event's version.
  lemma PlanIsFaithful(events: seq<A.Event>, existing: Option<Summary>, v: nat)
    requires RowFits(events, existing) && 0 < v <= |events|
    ensures var plan := Planned(existing, v, events[v-1]);
            plan.Write? ==>
              && plan.row.version == v && RowOk(events, plan.row)
              && v == (if existing.Some? then existing.value.version else 0) + 1
  {
    assert events[..v] == events[..v-1] + [events[v-1]];
    A.FoldSnoc(events[..v-1], events[v-1]);
    if existing.Some? {
      if existing.value.version == v - 1 && !events[v-1].AccountCreated? {
        PlanFollowsWhen(A.Fold(events[..v-1]), events[v-1]);
      }
    } else if v == 1 {
      assert events[..v-1] == [];
    }
  }

  // The row one event on is the row of the aggregate one event on.
  lemma PlanFollowsWhen(st: A.State, e: A.Event)
    requires !e.AccountCreated?
    ensures Planned(Some(SummaryOf(st)), st.version + 1, e) == Write(SummaryOf(A.When(st, e)))
  {
  }

  // A stream that begins with AccountCreated has an owner and a currency throughout.
  lemma {:induction false} CreatedFirst(events: seq<A.Event>, n: nat)
    requires 0 < n <= |events| && events[0].AccountCreated?
    ensures A.Fold(events[..n]).ownerId.Some? && A.Fold(events[..n]).currency.Some?
  {
    assert events[..n][..n-1] == events[..n-1];
    if n == 1 {
      assert events[..n-1] == [];
    } else {
      CreatedFirst(events, n - 1);
    }
  }

  // ---- Projecting one event without interruption ----

  function Written(rows: Rows, e: Stored, row: Summary): Rows {
    Append(Upsert(rows, e.accountId, row), e.accountId, EntryOf(e.eventId, e.version, e.event))
  }

  function Projected(rows: Rows, e: Stored): Result<Rows, ProjectionError> {
    match Planned(rows.Summary(e.accountId), e.version, e.event)
    case Skip => Success(rows)
    case Fail(why) => Failure(why)
    case Write(row) => Success(Written(rows, e, row))
  }

  // The result and the rows that a plan leads to.
  predicate Follows(plan: Plan, before: Rows, e: Stored, r: Result<(), ProjectionError>, after: Rows) {
    match plan
    case Skip => r == Success(()) && after == before
    case Fail(why) => r == Failure(why) && after == before
    case Write(row) => r == Success(()) && after == Written(before, e, row)
  }

  // The next event in sequence changes the balance by its amount and only a freeze
  // changes the status.
  lemma NextPlan(row: Summary, e: A.Event, delta: int, status: Option<A.Status>)
    requires !e.AccountCreated? && delta == e.Delta() && status == (if e.AccountFrozen? then Some(A.Frozen) else None)
    ensures Planned(Some(row), row.version + 1, e) ==
              Write(row.(balance := row.balance + delta, status := status.GetOr(row.status),
                         version := row.version + 1))
  {
  }

  // ---- What an entry tells, and what a delivery does ----

  // The entry is of the event's kind, with its amount, currency, transaction id or reason.
  predicate Tells(x: Entry, eventId: string, version: nat, e: A.Event) {
    && x.eventId == eventId && x.version == version
    && (x.line.Opened? <==> e.AccountCreated?)
    && (x.line.Deposited? <==> e.MoneyDeposited?)
    && (x.line.Withdrawn? <==> e.MoneyWithdrawn?)
    && (x.line.Froze? <==> e.AccountFrozen?)
    && (e.MoneyDeposited? || e.MoneyWithdrawn? ==>
          x.line.amount == e.amount && x.line.currency == e.currency && x.line.transactionId == e.transactionId)
    && (e.AccountFrozen? ==> x.line.reason == e.reason)
  }

  lemma EntryTells(eventId: string, version: nat, e: A.Event)
    ensures forall x :: Tells(x, eventId, version, e) <==> x == EntryOf(eventId, version, e)
  {
  }

  // What the lines of a statement add up to.
  function PaidIn(xs: seq<Entry>): int {
    if xs == [] then 0
    else PaidIn(xs[..|xs|-1]) + (if xs[|xs|-1].line.Deposited? then xs[|xs|-1].line.amount else 0)
  }

  function PaidOut(xs: seq<Entry>): int {
    if xs == [] then 0
    else PaidOut(xs[..|xs|-1]) + (if xs[|xs|-1].line.Withdrawn? then xs[|xs|-1].line.amount else 0)
  }

  // Line k tells event k.
  predicate IsStatement(xs: seq<Entry>, ids: seq<string>, events: seq<A.Event>) {
    && |xs| <= |events| && |xs| <= |ids|
    && forall k :: 0 <= k < |xs| ==> Tells(xs[k], ids[k], k + 1, events[k])
  }

  // The amounts deposited less the amounts withdrawn in the first v lines are the balance
  // of the aggregate after v events.
  lemma {:induction false} StatementAddsUp(xs: seq<Entry>, ids: seq<string>, events: seq<A.Event>, v: nat)
    requires IsStatement(xs, ids, events) && v <= |xs|
    ensures PaidIn(xs[..v]) == A.Deposits(events[..v]) && PaidOut(xs[..v]) == A.Withdrawals(events[..v])
    ensures PaidIn(xs[..v]) - PaidOut(xs[..v]) == A.Fold(events[..v]).balance
  {
    if v > 0 {
      StatementAddsUp(xs, ids, events, v - 1);
      assert xs[..v][..v-1] == xs[..v-1] && events[..v][..v-1] == events[..v-1];
      assert Tells(xs[v-1], ids[v-1], v, events[v-1]);
    }
    A.BalanceIsNet(events[..v]);
  }

  // What a delivery does to the rows. An event the row has seen does nothing; one without
  // a row to change, or past the next version, is an error and does nothing; the next one
  // changes the row by what it says and adds the entry that tells it.
  ghost predicate Delivers(before: Rows, e: Stored, r: Result<(), ProjectionError>, after: Rows) {
    var row := before.Summary(e.accountId);
    if row.None? && !e.event.AccountCreated? then r == Failure(MissingSummary) && after == before
    else if row.None? && e.version != 1 then r == Failure(Gap(1, e.version)) && after == before
    else if row.Some? && e.version <= row.value.version then r == Success(()) && after == before
    else if row.Some? && (e.version > row.value.version + 1 || e.event.AccountCreated?) then
      r == Failure(Gap(row.value.version + 1, e.version)) && after == before
    else
      && r == Success(())
      && e.accountId in after.summaries && Next(row, e, after.summaries[e.accountId])
      && after.summaries - {e.accountId} == before.summaries - {e.accountId}
      && (exists x :: Tells(x, e.eventId, e.version, e.event)
                      && after.Statement(e.accountId) == Appended(before.Statement(e.accountId), x))
      && (forall id :: id != e.accountId ==> after.Statement(id) == before.Statement(id))
  }

  // The row after the next event.
  predicate Next(row: Option<Summary>, e: Stored, row': Summary) {
    && row'.version == e.version
    && (match e.event
        case AccountCreated(_, owner, currency) =>
          row' == Summary(owner, currency, A.Active, 0, 1)
        case MoneyDeposited(n, _, _) =>
          row.Some? && row'.balance == row.value.balance + n && row'.status == row.value.status
        case MoneyWithdrawn(n, _, _) =>
          row.Some? && row'.balance == row.value.balance - n && row'.status == row.value.status
        case AccountFrozen(_) =>
          row.Some? && row'.balance == row.value.balance && row'.status == A.Frozen)
    && (row.Some? ==> row'.owner == row.value.owner && row'.currency == row.value.currency)
  }

  lemma ProjectedDelivers(rows: Rows, e: Stored)
    ensures var projected := Projected(rows, e);
            if projected.Success? then Delivers(rows, e, Success(()), projected.value)
            else Delivers(rows, e, Failure(projected.error), rows)
  {
    if Planned(rows.Summary(e.accountId), e.version, e.event).Write? {
      WrittenDelivers(rows, e);
    }
  }

  lemma WrittenDelivers(rows: Rows, e: Stored)
    requires Planned(rows.Summary(e.accountId), e.version, e.event).Write?
    ensures Delivers(rows, e, Success(()), Written(rows, e, Planned(rows.Summary(e.accountId), e.version, e.event).row))
  {
    var row', x := Planned(rows.Summary(e.accountId), e.version, e.event).row,
                   EntryOf(e.eventId, e.version, e.event);
    var after := Written(rows, e, row');
    EntryTells(e.eventId, e.version, e.event);
    assert Next(rows.Summary(e.accountId), e, row') && after.summaries[e.accountId] == row';
    assert after.Statement(e.accountId) == Appended(rows.Statement(e.accountId), x);
  }

  class AccountProjector {
    const readModels: InMemoryAccountReadModel

    constructor (readModels: InMemoryAccountReadModel)
      ensures this.readModels == readModels
    {
      this.readModels := readModels;
    }

    method Project(e: Stored) returns (r: Result<(), ProjectionError>)
      modifies readModels
      ensures match Projected(old(readModels.Contents()), e)
              case Success(rows) => r == Success(()) && readModels.Contents() == rows
              case Failure(why) => r == Failure(why) && readModels.Contents() == old(readModels.Contents())
      ensures Delivers(old(readModels.Contents()), e, r, readModels.Contents())
    {
      ProjectedDelivers(readModels.Contents(), e);
      match e.event
      case AccountCreated(_, _, _) => r := ProjectAccountCreated(e);
      case MoneyDeposited(amount, _, _) => r := ProjectNextVersion(e, amount, None);
      case MoneyWithdrawn(amount, _, _) => r := ProjectNextVersion(e, -amount, None);
      case AccountFrozen(_) => r := ProjectNextVersion(e, 0, Some(A.Frozen));
    }

    method ProjectAccountCreated(e: Stored) returns (r: Result<(), ProjectionError>)
      requires e.event.AccountCreated?
      modifies readModels
      ensures Follows(Planned(old(readModels.Contents()).Summary(e.accountId), e.version, e.event),
                      old(readModels.Contents()), e, r, readModels.Contents())
    {
      var existing := readModels.GetAccountSummary(e.accountId);
      if existing.Some? && existing.value.version >= e.version {
        return Success(());
      }
      if existing.Some? {
        return Failure(Gap(existing.value.version + 1, e.version));
      }
      if e.version != 1 {
        return Failure(Gap(1, e.version));
      }
      Store(e, Summary(e.event.ownerId, e.event.currency, A.Active, 0, e.version));
      return Success(());
    }

    // The common shape of the deposit, withdrawal and freeze projections.
    method ProjectNextVersion(e: Stored, delta: int, status: Option<A.Status>) returns (r: Result<(), ProjectionError>)
      requires !e.event.AccountCreated?
      requires delta == e.event.Delta() && status == (if e.event.AccountFrozen? then Some(A.Frozen) else None)
      modifies readModels
      ensures Follows(Planned(old(readModels.Contents()).Summary(e.accountId), e.version, e.event),
                      old(readModels.Contents()), e, r, readModels.Contents())
    {
      var existing := readModels.GetAccountSummary(e.accountId);
      if existing.None? {
        return Failure(MissingSummary);
      }
      var row := existing.value;
      if row.version >= e.version {
        return Success(());
      }
      if row.version + 1 != e.version {
        return Failure(Gap(row.version + 1, e.version));
      }
      NextPlan(row, e.event, delta, status);
      row := row.(balance := row.balance + delta, status := status.GetOr(row.status), version := e.version);
      Store(e, row);
      return Success(());
    }

    // The two awaited writes.
    method Store(e: Stored, row: Summary)
      modifies readModels
      ensures readModels.Contents() == Written(old(readModels.Contents()), e, row)
    {
      readModels.UpsertAccountSummary(e.accountId, row);
      readModels.AppendAccountStatement(e.accountId, EntryOf(e.eventId, e.version, e.event));
    }
  }
}
