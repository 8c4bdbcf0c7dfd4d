// Which errors fail a transfer: every error that leaves the try block of a debit or a
// credit and whose message looks like a rejection, and no other.
module SagaErrors {
  import opened Wrappers
  import opened Saga
  import opened SagaBase
  import opened SagaTexts
  import opened SagaTheorems
  import opened SagaPasses
  import A = Accounts
  import T = Transfers
  import R = Registry

  // ---- What an await has done when it fails ----

  // An await that fails before its effect leaves the store as it was, one that fails after
  // it leaves what it would have left, and a failed await goes on to nothing that only
  // its success leads to: outside the try blocks the visit is over.
  lemma FailedAwait(cfg: Config, store: Store, pc: Pc, text: string)
    ensures Effect(cfg, store, pc, LostBefore(text)).0 == Nothing
    ensures Effect(cfg, store, pc, LostAfter(text)).0 == Effect(cfg, store, pc, Done).0
    ensures pc.Picked? || pc.Entering? || ((pc.Starting? || pc.Failing?) && pc.write.Read?) ==>
              forall o: Outcome :: !o.Done? ==> Effect(cfg, store, pc, o).1 == Idle
    ensures pc.Starting? && pc.write.Write? ==>
              var o, written := LostAfter(text), Effect(cfg, store, pc, Done).0 != Nothing;
              && (written ==> Effect(cfg, store, pc, o).1 == Idle)
              && !Effect(cfg, store, pc, o).1.Reserving?
  {
  }

  // The marks of a record change its status and nothing else: pending when it is reopened,
  // completed after a success, retryable exactly after a leg's retryable error, terminal
  // after any other.
  lemma MarkDoes(cfg: Config, store: Store, pc: Pc)
    requires (pc.Reopening? || pc.MarkingCompleted? || pc.MarkingFailed?) && pc.job.Tx() in store.registry
    ensures var status := if pc.Reopening? then R.Pending else if pc.MarkingCompleted? then R.Completed
                          else if pc.error == Retryable && pc.job.owner != Api then R.FailedRetryable
                          else R.FailedTerminal;
            Changed(store, Effect(cfg, store, pc, Done).0) ==
              Store(store.accounts, store.transfers,
                    store.registry[pc.job.Tx() := store.registry[pc.job.Tx()].(status := status)])
  {
  }

  // ---- Which errors are thrown, and where ----

  // A write of executeWithRetry ends with this error: the guards refuse, the stream has
  // changed for the third time, or the await itself fails.
  predicate WriteThrows<E, X>(stream: seq<E>, attempt: Attempt<E>, decision: Result<E, X>, o: Outcome,
      refused: Failure, conflict: Failure, f: Failure)
  {
    match attempt
    case Read(_) => !o.Done? && f == Infrastructure(o.text)
    case Write(n, seen) =>
      if decision.Failure? then f == refused
      else if o.LostBefore? then f == Infrastructure(o.text)
      else if |stream| != |seen| then n >= 3 && f == conflict
      else o.LostAfter? && f == Infrastructure(o.text)
  }

  // The handler of a worker ends with this error.
  predicate HandlerThrows(store: Store, pc: Pc, o: Outcome, f: Failure) {
    match pc
    case Moving(job, move) =>
      var decision := if move.Write? then A.Decide(A.Fold(move.seen), job.Command()) else Failure(A.NotActive);
      WriteThrows(store.Account(job.input.account), move, decision, o,
                  if decision.Failure? then Rejected(decision.error) else Retryable,
                  AccountConflict(job.input.account), f)
    case MarkingCompleted(_) => !o.Done? && f == Infrastructure(o.text)
    case _ => false
  }

  // It is caught and marked as the record's failure; and nothing else is.
  lemma HandlerErrorIsMarked(cfg: Config, store: Store, pc: Pc, o: Outcome, f: Failure)
    requires pc.Moving? || pc.MarkingCompleted?
    ensures HandlerThrows(store, pc, o, f) <==> Effect(cfg, store, pc, o).1 == MarkingFailed(pc.job, f)
  {
  }

  // The leg whose procedure the worker is in.
  function LegOf(pc: Pc): Option<(string, Leg)> {
    match pc
    case Finishing(t, leg, _) => Some((t, leg))
    case Reserving(job) => OwnerLeg(job.owner)
    case Reopening(job) => OwnerLeg(job.owner)
    case MarkingFailed(job, _) => OwnerLeg(job.owner)
    case _ => None
  }

  function OwnerLeg(owner: Owner): Option<(string, Leg)> {
    if owner.TransferLeg? then Some((owner.transferId, owner.leg)) else None
  }

  // A step ends the try block of the leg with this error.
  predicate LegThrows(store: Store, pc: Pc, o: Outcome, f: Failure) {
    match pc
    case Reserving(job) =>
      if !o.Done? then f == Infrastructure(o.text)
      else
        && f.Taken? && f.tx == job.Tx()
        && R.Admit(job.input, R.TryReserve(store.registry, job.input), job.owner.TransferLeg?) == R.Refuse(f.refusal)
    case Reopening(_) => !o.Done? && f == Infrastructure(o.text)
    case MarkingFailed(_, error) => f == if o.Done? then error else Infrastructure(o.text)
    case Finishing(t, leg, write) =>
      var st := if write.Write? then T.Fold(write.seen) else T.BLANK;
      WriteThrows(store.Transfer(t), write, T.Decide(st, FinishCommand(leg)), o,
                  WrongStatus(leg, st.status), TransferConflict(t), f)
    case _ => false
  }

  // A worker comes to fail a transfer exactly when the procedure of its debit or credit
  // throws an error whose message looks like a rejection; the message is the reason. After
  // any other error, and after every error of a compensation, it gives up the visit.
  lemma ErrorFailsTransferIff(cfg: Config, store: Store, pc: Pc, o: Outcome, t: string, leg: Leg, reason: string)
    requires !pc.Failing?
    ensures Effect(cfg, store, pc, o).1 == Failing(t, leg, reason, Read(1)) <==>
              && LegOf(pc) == Some((t, leg)) && leg != T.Compensation
              && exists f :: LegThrows(store, pc, o, f) && cfg.Terminal(f) && reason == cfg.text(f)
    ensures && LegOf(pc) == Some((t, leg))
            && (exists f :: LegThrows(store, pc, o, f) && (leg == T.Compensation || !cfg.Terminal(f))) ==>
              Effect(cfg, store, pc, o).1 == Idle
  {
  }

  // For instance: the closing command of a debit or credit in progress meets an error of
  // the infrastructure whose text contains a phrase. Undisturbed, the worker fails the
  // transfer at that stage, for that text, although the money has moved.
  lemma LostClosingFails(cfg: Config, schedule: seq<Action>, w: nat, text: string)
    requires AsCoded(cfg) && IsTerminal(text) && text != ""
    requires var pc := Exec(cfg, schedule).At(w);
             && pc.Finishing? && pc.leg != T.Compensation && pc.write == Read(1)
             && StateOf(Exec(cfg, schedule), pc.t).status ==
                  Some(if pc.leg.Debit? then T.DebitInProgress else T.CreditInProgress)
    ensures var pc, s' := Exec(cfg, schedule).At(w), Exec(cfg, schedule + [Step(w, LostBefore(text))] + Steps(w, 2));
            && StateOf(s', pc.t).status == Some(T.Failed)
            && StateOf(s', pc.t).failure == Some((text, if pc.leg.Debit? then T.AtDebit else T.AtCredit))
            && s'.store.accounts == Exec(cfg, schedule).store.accounts
  {
    var s, lost := Exec(cfg, schedule), schedule + [Step(w, LostBefore(text))];
    var pc := s.At(w);
    assert lost[..|schedule|] == schedule;
    var s1 := s.Go(w, Failing(pc.t, pc.leg, text, Read(1)));
    assert Exec(cfg, lost) == s1;
    StepsAfter(cfg, lost, w, 2);
    var e := T.TransferFailed(text, FailureStage(pc.leg));
    UpToEnd(cfg, s1, w, pc.t, T.Fail(text, FailureStage(pc.leg)), e, s1.At(w), 2);
    T.FoldSnoc(s.store.Transfer(pc.t), e);
  }

  // A visit whose leg may be started, or started again, records the start first; one whose
  // transfer has moved on since it was picked goes to the registry at once, with the leg's
  // own id, account, operation and currency and a hundred times the amount.
  lemma EntryDoes(cfg: Config, store: Store, t: string, leg: Leg, tx: string)
    requires T.Fold(store.Transfer(t)).info.Some?
    ensures var info, status := T.Fold(store.Transfer(t)).info.value, T.Fold(store.Transfer(t)).status;
            var job := Job(TransferLeg(info.transferId, leg),
                           R.Input(tx, if leg.Credit? then info.destination else info.source,
                                   if leg.Debit? then R.WithdrawOp else R.DepositOp,
                                   Some(100 * info.amount), info.currency),
                           cfg.legAmount(info.amount));
            Effect(cfg, store, Entering(t, leg, tx), Done) ==
              (Nothing, if status in T.From(T.Start(leg, tx)) then Starting(t, leg, tx, info, Read(1))
                        else Reserving(job))
  {
  }
}
