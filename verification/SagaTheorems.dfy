// What the invariants say about every run of the saga, in the terms of its callers.
module SagaTheorems {
  import opened Wrappers
  import opened Sums
  import opened Saga
  import opened SagaBase
  import opened SagaLegs
  import opened SagaInvariant
  import opened SagaTexts
  import A = Accounts
  import T = Transfers
  import R = Registry

  // The number of money events that carry the id of this leg.
  ghost function LegMoves(s: System, t: string, leg: Leg): int {
    Moves(s.store.accounts, LegId(t, leg))
  }

  function StateOf(s: System, t: string): T.State { T.Fold(s.store.Transfer(t)) }

  // What a status says about the numbers of money events of the three legs.
  predicate Says(st: T.State, d: int, c: int, k: int) {
    var status := st.status;
    && (status.None? || status == Some(T.Initiated) ==> d == c == k == 0)
    && (status == Some(T.DebitInProgress) ==> 0 <= d <= 1 && c == k == 0)
    && (status == Some(T.Debited) ==> d == 1 && c == k == 0)
    && (status == Some(T.CreditInProgress) ==> d == 1 && 0 <= c <= 1 && k == 0)
    && (status == Some(T.Completed) ==> d == c == 1 && k == 0)
    && (status == Some(T.Failed) ==> st.FailedAt(T.AtDebit) || st.FailedAt(T.AtCredit))
    && (status == Some(T.Failed) && st.FailedAt(T.AtDebit) ==> d == c == k == 0)
    && (status == Some(T.Failed) && st.FailedAt(T.AtCredit) ==> d == 1 && c == k == 0)
    && (status == Some(T.CompensationInProgress) ==> d == 1 && c == 0 && 0 <= k <= 1)
    && (status == Some(T.Compensated) ==> d == k == 1 && c == 0)
  }

  lemma TallySays(t: string, st: T.State, d: int, c: int, k: int, debitClosed: bool, creditClosed: bool)
    requires Tally(st, d, c, k, debitClosed, creditClosed) && (st.status.Some? ==> StateOk(t, st))
    ensures Says(st, d, c, k)
  {
  }

  ghost predicate StatusAgrees(s: System, t: string) {
    Says(StateOf(s, t), LegMoves(s, t, T.Debit), LegMoves(s, t, T.Credit), LegMoves(s, t, T.Compensation))
  }

  // What a caller can check: no client submits an id of t's legs, and neither t nor
  // an error of the infrastructure contains one of the four phrases.
  ghost predicate Orderly(schedule: seq<Action>, t: string) {
    LegIdsUnused(schedule, t) && NoPhrase(t) && PlainErrors(schedule)
  }

  // After every orderly schedule the status of a transfer says which of its legs have
  // moved money.
  lemma StatusAgreesWithMoney(cfg: Config, schedule: seq<Action>, t: string)
    requires AsCoded(cfg) && Orderly(schedule, t)
    ensures StatusAgrees(Exec(cfg, schedule), t)
  {
    TameIff(cfg, t);
    PlainErrorsAreCalm(cfg, schedule);
    AgreementReachable(cfg, schedule, t);
    Reachable(cfg, schedule);
    var s := Exec(cfg, schedule);
    assert StreamOk(s.store, t);
    TallySays(t, StateOf(s, t), LegMoves(s, t, T.Debit), LegMoves(s, t, T.Credit), LegMoves(s, t, T.Compensation),
              Open(s.store, LegId(t, T.Debit), R.FailedTerminal), Open(s.store, LegId(t, T.Credit), R.FailedTerminal));
  }

  lemma {:induction false} HitsAtLeast(es: seq<A.Event>, tx: string, i: nat, j: nat)
    requires i < |es| && j < |es| && Hit(es[i], tx) == 1 && Hit(es[j], tx) == 1
    ensures Hits(es, tx) >= if i == j then 1 else 2
    decreases |es|
  {
    var n := |es| - 1;
    HitsNonNegative(es[..n], tx);
    if i < n || j < n {
      var a := if i < n then i else j;
      HitsAtLeast(es[..n], tx, a, if i < n && j < n then j else a);
    }
  }

  lemma {:induction false} HitsNonNegative(es: seq<A.Event>, tx: string)
    ensures Hits(es, tx) >= 0
    decreases |es|
  {
    if es != [] {
      HitsNonNegative(es[..|es|-1], tx);
    }
  }

  lemma {:induction false} SumNonNegative(m: map<string, int>)
    requires forall k :: k in m ==> m[k] >= 0
    ensures Sum(m) >= 0
    decreases |m|
  {
    if m != map[] {
      var k :| k in m;
      SumRemove(m, k);
      SumNonNegative(m - {k});
    }
  }

  // Over all account streams, all workers and all crashes, two money events with
  // the same transaction id are the same event.
  lemma AtMostOneEvent(cfg: Config, schedule: seq<Action>, tx: string, a: string, i: nat, b: string, j: nat)
    requires var accounts := Exec(cfg, schedule).store.accounts;
             && a in accounts && i < |accounts[a]| && accounts[a][i].IsMoney() && accounts[a][i].transactionId == tx
             && b in accounts && j < |accounts[b]| && accounts[b][j].IsMoney() && accounts[b][j].transactionId == tx
    ensures a == b && i == j
  {
    var store := Exec(cfg, schedule).store;
    Reachable(cfg, schedule);
    assert RecordOk(store, tx);
    var m := HitMap(store.accounts, tx);
    forall id | id in m ensures m[id] >= 0 { HitsNonNegative(store.accounts[id], tx); }
    SumRemove(m, a);
    if a == b {
      HitsAtLeast(store.accounts[a], tx, i, j);
      SumNonNegative(m - {a});
    } else {
      HitsAtLeast(store.accounts[a], tx, i, i);
      HitsAtLeast(store.accounts[b], tx, j, j);
      SumRemove(m - {a}, b);
      SumNonNegative(m - {a} - {b});
    }
  }

  // After every schedule: a handler that the account rejected, or whose writes all
  // conflicted, has had no effect when it is marked; a completed record has moved its
  // money; no record is ever marked retryable and no leg is ever reopened.
  lemma RejectionMeansNoEffect(cfg: Config, schedule: seq<Action>, w: nat, tx: string)
    ensures var s := Exec(cfg, schedule);
            && (s.At(w).MarkingFailed? && Effectless(s.At(w).error) ==> Moves(s.store.accounts, s.At(w).job.Tx()) == 0)
            && !s.At(w).Reopening?
            && (tx in s.store.registry ==> s.store.registry[tx].status != R.FailedRetryable)
            && (Open(s.store, tx, R.Completed) ==> Moves(s.store.accounts, tx) == 1)
  {
    Reachable(cfg, schedule);
    var s := Exec(cfg, schedule);
    assert PcOk(cfg, s.store, s.At(w)) && RecordOk(s.store, tx);
  }

  // ---- Streams only grow, and only by accepted commands ----

  ghost predicate StreamsAccepted(store: Store) {
    forall t {:trigger store.Transfer(t)} :: T.Accepted(t, store.Transfer(t))
  }

  predicate Grown(store: Store, store': Store) {
    && (forall id {:trigger store'.Account(id)} :: id in store.accounts ==> store.Account(id) <= store'.Account(id))
    && (forall t {:trigger store'.Transfer(t)} :: t in store.transfers ==> store.Transfer(t) <= store'.Transfer(t))
  }

  lemma TransferAppendGrows(store: Store, t: string, cmd: T.Command, e: T.Event)
    requires StreamsAccepted(store) && T.AddressedTo(t, cmd)
    requires T.Decide(T.Fold(store.Transfer(t)), cmd) == Success(e)
    ensures StreamsAccepted(store.AppendTransfer(t, e)) && Grown(store, store.AppendTransfer(t, e))
  {
    var store' := store.AppendTransfer(t, e);
    assert T.Raised(t, T.Fold(store.Transfer(t)), e);
    T.AcceptedSnoc(t, store.Transfer(t), e);
    forall u ensures T.Accepted(u, store'.Transfer(u)) {
      assert u != t ==> store'.Transfer(u) == store.Transfer(u);
    }
  }

  lemma AdvanceGrows(cfg: Config, s: System, w: nat, o: Outcome)
    requires StreamsAccepted(s.store) && PcOk(cfg, s.store, s.At(w))
    ensures StreamsAccepted(Advance(cfg, s, w, o).store) && Grown(s.store, Advance(cfg, s, w, o).store)
  {
    var change := Effect(cfg, s.store, s.At(w), o).0;
    EffectMay(cfg, s.store, s.At(w), o);
    if change.Transferred? {
      TransferAppendGrows(s.store, change.t, TransferCommand(s.At(w)).value, change.event);
    } else {
      assert forall t :: Changed(s.store, change).Transfer(t) == s.store.Transfer(t);
    }
  }

  lemma NextGrows(cfg: Config, s: System, a: Action)
    requires Inv(cfg, s) && StreamsAccepted(s.store)
    ensures StreamsAccepted(Next(cfg, s, a).store) && Grown(s.store, Next(cfg, s, a).store)
  {
    if Enabled(s, a) {
      if a.Step? {
        assert PcOk(cfg, s.store, s.At(a.w));
        AdvanceGrows(cfg, s, a.w, a.o);
      } else if a.InitiateTransfer? {
        var decision := T.Decide(StateOf(s, a.t), Initiation(a));
        if decision.Success? {
          TransferAppendGrows(s.store, a.t, Initiation(a), decision.value);
        }
      } else {
        QuietForTransfers(cfg, s, a);
      }
    }
  }

  lemma QuietForTransfers(cfg: Config, s: System, a: Action)
    requires StreamsAccepted(s.store) && !a.InitiateTransfer? && !a.Step?
    ensures StreamsAccepted(Next(cfg, s, a).store) && Grown(s.store, Next(cfg, s, a).store)
  {
    var store' := Next(cfg, s, a).store;
    assert store'.transfers == s.store.transfers;
    assert forall t :: store'.Transfer(t) == s.store.Transfer(t);
  }

  lemma {:induction false} RunGrows(cfg: Config, schedule: seq<Action>, more: seq<Action>)
    ensures StreamsAccepted(Exec(cfg, schedule + more).store)
    ensures Grown(Exec(cfg, schedule).store, Exec(cfg, schedule + more).store)
    decreases |schedule| + |more|, |more|
  {
    var all := schedule + more;
    if all == [] {
    } else if more == [] {
      assert all == schedule;
      var n := |schedule| - 1;
      assert schedule[..n] + [] == schedule[..n];
      RunGrows(cfg, schedule[..n], []);
      Reachable(cfg, schedule[..n]);
      NextGrows(cfg, Exec(cfg, schedule[..n]), schedule[n]);
    } else {
      var n := |more| - 1;
      assert all[..|all|-1] == schedule + more[..n] && all[|all|-1] == more[n];
      RunGrows(cfg, schedule, more[..n]);
      Reachable(cfg, schedule + more[..n]);
      NextGrows(cfg, Exec(cfg, schedule + more[..n]), more[n]);
    }
  }

  // Every transfer stream of every run follows the life cycle.
  lemma StreamsFollowLifecycle(cfg: Config, schedule: seq<Action>, t: string)
    ensures var es := Exec(cfg, schedule).store.Transfer(t);
            T.Accepted(t, es) && (es != [] ==> t != "" && T.Described(t, es, T.Fold(es)))
  {
    assert schedule + [] == schedule;
    RunGrows(cfg, schedule, []);
    Reachable(cfg, schedule);
    assert StreamOk(Exec(cfg, schedule).store, t);
    var es := Exec(cfg, schedule).store.Transfer(t);
    if es != [] {
      T.AcceptedFollowsLifecycle(t, es);
    }
  }

  predicate Settled(st: T.State) {
    st.status == Some(T.Completed) || st.status == Some(T.Compensated)
    || (st.status == Some(T.Failed) && st.FailedAt(T.AtDebit))
  }

  // A settled status fixes the three numbers.
  lemma SettledIsExact(st: T.State, d: int, c: int, k: int, d': int, c': int, k': int)
    requires Settled(st) && Says(st, d, c, k) && Says(st, d', c', k')
    ensures d == d' && c == c' && k == k'
  {
  }

  // Nothing is lost: what a stream holds it holds for ever, and a settled transfer
  // keeps its stream ...
  lemma SettledStaysSettled(cfg: Config, schedule: seq<Action>, more: seq<Action>, t: string)
    ensures Grown(Exec(cfg, schedule).store, Exec(cfg, schedule + more).store)
    ensures Settled(StateOf(Exec(cfg, schedule), t)) ==>
              Exec(cfg, schedule + more).store.Transfer(t) == Exec(cfg, schedule).store.Transfer(t)
  {
    RunGrows(cfg, schedule, more);
    var es, es' := Exec(cfg, schedule).store.Transfer(t), Exec(cfg, schedule + more).store.Transfer(t);
    StreamsFollowLifecycle(cfg, schedule, t);
    assert es <= es' && T.Accepted(t, es');
    if Settled(T.Fold(es)) && |es| < |es'| {
      AcceptedPrefix(t, es', |es|);
      assert es'[..|es|] == es;
      T.TerminalStates(t, es);
    }
  }

  lemma OrderlyBefore(schedule: seq<Action>, more: seq<Action>, t: string)
    requires Orderly(schedule + more, t)
    ensures Orderly(schedule, t)
  {
    forall a | a in schedule ensures Foreign(a, t) && (a.Step? && !a.o.Done? ==> NoPhrase(a.o.text)) {
      assert a in schedule + more;
    }
  }

  // ... and none of its legs moves money again, whatever orderly actions follow.
  lemma OutcomeIsFinal(cfg: Config, schedule: seq<Action>, more: seq<Action>, t: string)
    requires AsCoded(cfg) && Orderly(schedule + more, t)
    ensures var s, s' := Exec(cfg, schedule), Exec(cfg, schedule + more);
            Settled(StateOf(s, t)) ==>
              && s'.store.Transfer(t) == s.store.Transfer(t)
              && (forall leg :: LegMoves(s', t, leg) == LegMoves(s, t, leg))
  {
    var s, s' := Exec(cfg, schedule), Exec(cfg, schedule + more);
    if Settled(StateOf(s, t)) {
      OrderlyBefore(schedule, more, t);
      SettledStaysSettled(cfg, schedule, more, t);
      StatusAgreesWithMoney(cfg, schedule, t);
      StatusAgreesWithMoney(cfg, schedule + more, t);
      SettledIsExact(StateOf(s, t),
        LegMoves(s, t, T.Debit), LegMoves(s, t, T.Credit), LegMoves(s, t, T.Compensation),
        LegMoves(s', t, T.Debit), LegMoves(s', t, T.Credit), LegMoves(s', t, T.Compensation));
      forall leg ensures LegMoves(s', t, leg) == LegMoves(s, t, leg) {
        match leg case Debit => case Credit => case Compensation =>
      }
    }
  }

  lemma {:induction false} AcceptedPrefix(t: string, es: seq<T.Event>, v: nat)
    requires T.Accepted(t, es) && v < |es|
    ensures T.Raised(t, T.Fold(es[..v]), es[v])
    decreases |es|
  {
    if v < |es| - 1 {
      AcceptedPrefix(t, es[..|es|-1], v);
      assert es[..|es|-1][..v] == es[..v];
    }
  }
}
