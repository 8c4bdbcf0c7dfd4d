// What one coordinator does to a transfer when nothing goes wrong around it: the
// passes over the three legs, end to end.
module SagaPasses {
  import opened Wrappers
  import opened Saga
  import opened SagaBase
  import opened SagaLegs
  import opened SagaInvariant
  import opened SagaTexts
  import opened SagaTheorems
  import A = Accounts
  import T = Transfers
  import R = Registry

  // The registry with one record written.
  function SetRecord(store: Store, tx: string, record: R.Record): Store { Changed(store, Recorded(tx, record)) }

  // A rejection that fails the transfer.
  predicate Fatal(cfg: Config, why: A.Error) { cfg.Terminal(Rejected(why)) && cfg.text(Rejected(why)) != "" }

  // n undisturbed steps of worker w.
  function Run(cfg: Config, s: System, w: nat, n: nat): System
    decreases n
  {
    if n == 0 then s else Run(cfg, Advance(cfg, s, w, Done), w, n - 1)
  }

  // The steps of a pass of processTransfer, from the listed transfer to the end of
  // its leg; afterwards the worker is idle and further steps change nothing.
  const PASS: nat := 10

  // The worker has taken the transfer and will work on this leg.
  predicate Listed(s: System, w: nat, t: string, leg: Leg) {
    var st := StateOf(s, t);
    && s.At(w) == Picked(t)
    && StateOk(t, st)
    && Dispatch(t, st) == Entering(t, leg, LegId(t, leg))
  }

  // The transfer is ready for a pass over this leg, which was never registered.
  predicate Ready(cfg: Config, s: System, w: nat, t: string, leg: Leg) {
    Listed(s, w, t, leg) && LegId(t, leg) !in s.store.registry
  }

  function JobOf(cfg: Config, s: System, t: string, leg: Leg): Job
    requires StateOf(s, t).info.Some?
  {
    LegJob(cfg, leg, LegId(t, leg), StateOf(s, t).info.value)
  }

  // What the account says to the leg's movement.
  function Answer(cfg: Config, s: System, t: string, leg: Leg): Result<A.Event, A.Error>
    requires StateOf(s, t).info.Some?
  {
    A.Decide(A.Fold(s.store.Account(JobOf(cfg, s, t, leg).input.account)), JobOf(cfg, s, t, leg).Command())
  }

  function StartEvent(s: System, t: string, leg: Leg): T.Event {
    T.TransferStarted(leg, LegId(t, leg), StateOf(s, t).Leg(leg).attempts + 1)
  }

  function FinishEvent(t: string, leg: Leg): T.Event {
    match leg
    case Debit => T.TransferDebited(Some(LegId(t, leg)))
    case Credit => T.TransferCompleted
    case Compensation => T.TransferCompensated(Some(LegId(t, leg)))
  }

  function RecordFor(job: Job, status: R.Status): R.Record
    requires job.input.amount.Some?
  {
    R.Record(job.input.account, job.input.operation, job.input.amount.value, job.input.currency, status)
  }

  // How a record is marked after the account's answer.
  function MarkOf(answer: Result<A.Event, A.Error>): R.Status {
    if answer.Success? then R.Completed else R.FailedTerminal
  }

  lemma Pass(cfg: Config, s: System, w: nat, n: nat, next: System)
    requires n > 0 && Advance(cfg, s, w, Done) == next
    ensures Run(cfg, s, w, n) == Run(cfg, next, w, n - 1)
  {
  }

  lemma {:induction false} IdleStays(cfg: Config, s: System, w: nat, n: nat)
    requires s.At(w).Idle?
    ensures Run(cfg, s, w, n) == s
  {
    if n > 0 {
      Pass(cfg, s, w, n, s);
      IdleStays(cfg, s, w, n - 1);
    }
  }

  // Up to the start of the leg.
  lemma UpToStart(cfg: Config, s: System, w: nat, t: string, leg: Leg, n: nat)
    requires Listed(s, w, t, leg) && n >= 2
    ensures Run(cfg, s, w, n) ==
              Run(cfg, s.Go(w, Starting(t, leg, LegId(t, leg), StateOf(s, t).info.value, Read(1))), w, n - 2)
  {
    var tx, info := LegId(t, leg), StateOf(s, t).info.value;
    var s1 := s.Go(w, Entering(t, leg, tx));
    Pass(cfg, s, w, n, s1);
    var s2 := s.Go(w, Starting(t, leg, tx, info, Read(1)));
    assert s1.Go(w, Starting(t, leg, tx, info, Read(1))) == s2;
    Pass(cfg, s1, w, n - 1, s2);
  }

  // The round that records the start.
  lemma StartRound(cfg: Config, s: System, w: nat, t: string, leg: Leg, info: T.Info, e: T.Event, n: nat)
    requires s.At(w) == Starting(t, leg, LegId(t, leg), info, Read(1)) && n >= 2
    requires T.Decide(StateOf(s, t), T.Start(leg, LegId(t, leg))) == Success(e)
    ensures Run(cfg, s, w, n) ==
              Run(cfg, System(s.store.AppendTransfer(t, e), s.workers)
                         .Go(w, Reserving(LegJob(cfg, leg, LegId(t, leg), info))), w, n - 2)
  {
    var stream, tx := s.store.Transfer(t), LegId(t, leg);
    var s1 := s.Go(w, Starting(t, leg, tx, info, Write(1, stream)));
    Pass(cfg, s, w, n, s1);
    var store := s.store.AppendTransfer(t, e);
    var s2 := System(store, s.workers).Go(w, Reserving(LegJob(cfg, leg, tx, info)));
    assert System(store, s1.workers).Go(w, Reserving(LegJob(cfg, leg, tx, info))) == s2;
    Pass(cfg, s1, w, n - 1, s2);
  }

  // Up to the reservation: the start of the leg is recorded.
  lemma UpToReservation(cfg: Config, s: System, w: nat, t: string, leg: Leg, n: nat)
    requires Listed(s, w, t, leg) && n >= 4
    ensures Run(cfg, s, w, n) ==
              Run(cfg, System(s.store.AppendTransfer(t, StartEvent(s, t, leg)), s.workers)
                         .Go(w, Reserving(JobOf(cfg, s, t, leg))), w, n - 4)
  {
    var info := StateOf(s, t).info.value;
    var s1 := s.Go(w, Starting(t, leg, LegId(t, leg), info, Read(1)));
    UpToStart(cfg, s, w, t, leg, n);
    StartAccepted(cfg, s, w, t, leg);
    StartRound(cfg, s1, w, t, leg, info, StartEvent(s, t, leg), n - 2);
    GoTwice(s, w, s1.At(w), s.store.AppendTransfer(t, StartEvent(s, t, leg)), Reserving(JobOf(cfg, s, t, leg)));
  }

  lemma StartAccepted(cfg: Config, s: System, w: nat, t: string, leg: Leg)
    requires Listed(s, w, t, leg)
    ensures T.Decide(StateOf(s, t), T.Start(leg, LegId(t, leg))) == Success(StartEvent(s, t, leg))
  {
  }

  // Only the last place of a worker counts.
  lemma GoTwice(s: System, w: nat, first: Pc, store: Store, second: Pc)
    ensures System(store, s.Go(w, first).workers).Go(w, second) == System(store, s.workers).Go(w, second)
  {
  }

  // From the reservation to the end of the handler.
  lemma UpToHandlerEnd(cfg: Config, s: System, w: nat, job: Job, n: nat)
    requires n >= 3 && s.At(w) == Reserving(job) && job.Tx() !in s.store.registry && job.input.amount.Some?
    ensures var store := SetRecord(s.store, job.Tx(), RecordFor(job, R.Pending));
            Run(cfg, s, w, n) == Run(cfg, HandlerEnd(System(store, s.workers), w, job), w, n - 3)
  {
    var store := SetRecord(s.store, job.Tx(), RecordFor(job, R.Pending));
    var s1 := System(store, s.workers).Go(w, Moving(job, Read(1)));
    assert Advance(cfg, s, w, Done) == s1;
    Pass(cfg, s, w, n, s1);
    HandlerRuns(cfg, System(store, s.workers), s1, w, job, n - 1);
  }

  // Where the handler leaves the worker, s being the system without it.
  function HandlerEnd(s: System, w: nat, job: Job): System {
    match A.Decide(A.Fold(s.store.Account(job.input.account)), job.Command())
    case Success(e) => System(s.store.AppendAccount(job.input.account, e), s.workers).Go(w, MarkingCompleted(job))
    case Failure(why) => s.Go(w, MarkingFailed(job, Rejected(why)))
  }

  lemma HandlerRuns(cfg: Config, s: System, s1: System, w: nat, job: Job, n: nat)
    requires n >= 2 && s1 == s.Go(w, Moving(job, Read(1)))
    ensures Run(cfg, s1, w, n) == Run(cfg, HandlerEnd(s, w, job), w, n - 2)
  {
    var s2 := s.Go(w, Moving(job, Write(1, s.store.Account(job.input.account))));
    assert s1.Go(w, s2.At(w)) == s2;
    Pass(cfg, s1, w, n, s2);
    HandlerWrites(cfg, s, s2, w, job);
    Pass(cfg, s2, w, n - 1, HandlerEnd(s, w, job));
  }

  lemma HandlerWrites(cfg: Config, s: System, s2: System, w: nat, job: Job)
    requires s2 == s.Go(w, Moving(job, Write(1, s.store.Account(job.input.account))))
    ensures Advance(cfg, s2, w, Done) == HandlerEnd(s, w, job)
  {
    var end := HandlerEnd(s, w, job);
    GoTwice(s, w, s2.At(w), end.store, end.At(w));
  }

  // What an accepted API call leaves behind.
  function ApiStore(store: Store, job: Job, e: A.Event): Store
    requires job.input.amount.Some?
  {
    SetRecord(store.AppendAccount(job.input.account, e), job.Tx(), RecordFor(job, R.Completed))
  }

  // An undisturbed API call that the account accepts.
  lemma ApiPass(cfg: Config, s: System, w: nat, job: Job, e: A.Event, n: nat)
    requires n >= 4 && s.At(w) == Reserving(job) && job.owner.Api? && job.input.amount.Some?
    requires job.Tx() !in s.store.registry
    requires A.Decide(A.Fold(s.store.Account(job.input.account)), job.Command()) == Success(e)
    ensures Run(cfg, s, w, n) == System(ApiStore(s.store, job, e), s.workers).Go(w, Idle)
  {
    var pending := SetRecord(s.store, job.Tx(), RecordFor(job, R.Pending));
    assert pending.Account(job.input.account) == s.store.Account(job.input.account);
    UpToHandlerEnd(cfg, s, w, job, n);
    var s1 := System(pending.AppendAccount(job.input.account, e), s.workers).Go(w, MarkingCompleted(job));
    var s2 := System(ApiStore(s.store, job, e), s.workers).Go(w, Idle);
    ApiMarked(cfg, s, w, job, e, s1, s2);
    Pass(cfg, s1, w, n - 3, s2);
    IdleStays(cfg, s2, w, n - 4);
  }

  lemma ApiMarked(cfg: Config, s: System, w: nat, job: Job, e: A.Event, s1: System, s2: System)
    requires job.owner.Api? && job.input.amount.Some?
    requires s1 == System(SetRecord(s.store, job.Tx(), RecordFor(job, R.Pending))
                            .AppendAccount(job.input.account, e), s.workers).Go(w, MarkingCompleted(job))
    requires s2 == System(ApiStore(s.store, job, e), s.workers).Go(w, Idle)
    ensures Advance(cfg, s1, w, Done) == s2
  {
    var registry := s.store.registry;
    assert registry[job.Tx() := RecordFor(job, R.Pending)][job.Tx() := RecordFor(job, R.Completed)]
        == registry[job.Tx() := RecordFor(job, R.Completed)];
    GoTwice(s, w, s1.At(w), s2.store, Idle);
  }

  // The closing command, after the record has been marked.
  lemma UpToEnd(cfg: Config, s: System, w: nat, t: string, cmd: T.Command, e: T.Event, pc: Pc, n: nat)
    requires n >= 2 && s.At(w) == pc && (pc.Finishing? || pc.Failing?) && pc.t == t && pc.write == Read(1)
    requires cmd == if pc.Finishing? then FinishCommand(pc.leg) else T.Fail(pc.reason, FailureStage(pc.leg))
    requires T.Decide(StateOf(s, t), cmd) == Success(e)
    ensures Run(cfg, s, w, n) == System(s.store.AppendTransfer(t, e), s.workers).Go(w, Idle)
  {
    var stream := s.store.Transfer(t);
    var pc1 := if pc.Finishing? then Finishing(t, pc.leg, Write(1, stream))
        else Failing(t, pc.leg, pc.reason, Write(1, stream));
    var s1 := s.Go(w, pc1);
    Pass(cfg, s, w, n, s1);
    var s2 := System(s.store.AppendTransfer(t, e), s.workers).Go(w, Idle);
    assert System(s.store.AppendTransfer(t, e), s1.workers).Go(w, Idle) == s2;
    Pass(cfg, s1, w, n - 1, s2);
    IdleStays(cfg, s2, w, n - 2);
  }

  // Marking the record, and the closing command that follows.
  lemma FromMarking(cfg: Config, s: System, w: nat, pc: Pc, closing: Pc, cmd: T.Command, e: T.Event,
      record: R.Record, n: nat)
    requires n >= 3 && s.At(w) == pc && (pc.MarkingCompleted? || pc.MarkingFailed?) && pc.job.owner.TransferLeg?
    requires pc.job.Tx() in s.store.registry
    requires pc.MarkingFailed? ==> pc.error.Rejected?
    requires record == s.store.registry[pc.job.Tx()].(
                         status := if pc.MarkingCompleted? then R.Completed else R.FailedTerminal)
    requires closing == if pc.MarkingCompleted? then AfterAccepted(pc.job) else AfterError(cfg, pc.job.owner, pc.error)
    requires closing.Finishing? || closing.Failing?
    requires cmd == if closing.Finishing? then FinishCommand(closing.leg)
        else T.Fail(closing.reason, FailureStage(closing.leg))
    requires T.Decide(StateOf(s, closing.t), cmd) == Success(e)
    ensures Run(cfg, s, w, n) ==
              System(SetRecord(s.store, pc.job.Tx(), record).AppendTransfer(closing.t, e), s.workers).Go(w, Idle)
  {
    var store := SetRecord(s.store, pc.job.Tx(), record);
    var s1 := System(store, s.workers).Go(w, closing);
    Pass(cfg, s, w, n, s1);
    assert s1.store.Transfer(closing.t) == s.store.Transfer(closing.t);
    UpToEnd(cfg, s1, w, closing.t, cmd, e, closing, n - 1);
    assert System(store.AppendTransfer(closing.t, e), s1.workers).Go(w, Idle)
        == System(store.AppendTransfer(closing.t, e), s.workers).Go(w, Idle);
  }

  // What a pass leaves behind when the account accepts the movement: the stream
  // gains the leg's start and its closing event, the account gains the one money
  // event, the record is completed. Nothing else changes.
  function AcceptedStore(cfg: Config, s: System, t: string, leg: Leg): Store
    requires StateOf(s, t).info.Some? && Answer(cfg, s, t, leg).Success?
  {
    var job := JobOf(cfg, s, t, leg);
    Store(s.store.accounts[job.input.account := s.store.Account(job.input.account) + [Answer(cfg, s, t, leg).value]],
          s.store.transfers[t := s.store.Transfer(t) + [StartEvent(s, t, leg), FinishEvent(t, leg)]],
          s.store.registry[LegId(t, leg) := RecordFor(job, R.Completed)])
  }

  // ... and when it rejects it for good: no account changes, the record is terminal
  // and the transfer fails at that stage.
  function RejectedStore(cfg: Config, s: System, t: string, leg: Leg): Store
    requires StateOf(s, t).info.Some? && Answer(cfg, s, t, leg).Failure?
  {
    var failed := T.TransferFailed(cfg.text(Rejected(Answer(cfg, s, t, leg).error)), FailureStage(leg));
    Store(s.store.accounts,
          s.store.transfers[t := s.store.Transfer(t) + [StartEvent(s, t, leg), failed]],
          s.store.registry[LegId(t, leg) := RecordFor(JobOf(cfg, s, t, leg), R.FailedTerminal)])
  }

  // The place and store of the worker when the handler has ended.
  function AtMarking(cfg: Config, s: System, w: nat, t: string, leg: Leg): System
    requires StateOf(s, t).info.Some?
  {
    var job := JobOf(cfg, s, t, leg);
    var store := SetRecord(s.store.AppendTransfer(t, StartEvent(s, t, leg)), job.Tx(), RecordFor(job, R.Pending));
    match Answer(cfg, s, t, leg)
    case Success(e) => System(store.AppendAccount(job.input.account, e), s.workers).Go(w, MarkingCompleted(job))
    case Failure(why) => System(store, s.workers).Go(w, MarkingFailed(job, Rejected(why)))
  }

  lemma UpToMarking(cfg: Config, s: System, w: nat, t: string, leg: Leg, n: nat)
    requires Ready(cfg, s, w, t, leg) && n >= 7
    ensures Run(cfg, s, w, n) == Run(cfg, AtMarking(cfg, s, w, t, leg), w, n - 7)
  {
    var job := JobOf(cfg, s, t, leg);
    UpToReservation(cfg, s, w, t, leg, n);
    var s1 := System(s.store.AppendTransfer(t, StartEvent(s, t, leg)), s.workers).Go(w, Reserving(job));
    assert s1.store.Account(job.input.account) == s.store.Account(job.input.account);
    UpToHandlerEnd(cfg, s1, w, job, n - 4);
    assert AtMarking(cfg, s, w, t, leg).workers == s1.workers[w := AtMarking(cfg, s, w, t, leg).At(w)];
  }

  // What the stream says once the handler has ended.
  lemma StateAtMarking(cfg: Config, s: System, w: nat, t: string, leg: Leg)
    requires Ready(cfg, s, w, t, leg)
    ensures StateOf(AtMarking(cfg, s, w, t, leg), t) == T.When(StateOf(s, t), StartEvent(s, t, leg))
  {
    T.FoldSnoc(s.store.Transfer(t), StartEvent(s, t, leg));
  }

  // The store once the record is marked and the closing event is written.
  lemma ClosedStore(cfg: Config, s: System, w: nat, t: string, leg: Leg, e: T.Event)
    requires Ready(cfg, s, w, t, leg)
    ensures var answer, job := Answer(cfg, s, t, leg), JobOf(cfg, s, t, leg);
            var record := RecordFor(job, MarkOf(answer));
            var closed := SetRecord(AtMarking(cfg, s, w, t, leg).store, LegId(t, leg), record).AppendTransfer(t, e);
            && (answer.Success? && e == FinishEvent(t, leg) ==> closed == AcceptedStore(cfg, s, t, leg))
            && ((answer.Failure? && e == T.TransferFailed(cfg.text(Rejected(answer.error)), FailureStage(leg)))
                ==> closed == RejectedStore(cfg, s, t, leg))
  {
    var start, stream := StartEvent(s, t, leg), s.store.Transfer(t);
    assert stream + [start] + [e] == stream + [start, e];
    var transfers := s.store.transfers;
    assert transfers[t := stream + [start]][t := stream + [start, e]] == transfers[t := stream + [start, e]];
    var pending := RecordFor(JobOf(cfg, s, t, leg), R.Pending);
    var registry := s.store.registry;
    forall status ensures registry[LegId(t, leg) := pending][LegId(t, leg) := RecordFor(JobOf(cfg, s, t, leg), status)]
                       == registry[LegId(t, leg) := RecordFor(JobOf(cfg, s, t, leg), status)] {}
  }

  // Where the pass goes after the account's answer, and the event that closes the leg.
  predicate Closes(cfg: Config, answer: Result<A.Event, A.Error>, t: string, leg: Leg, closing: Pc, e: T.Event) {
    if answer.Success? then closing == Finishing(t, leg, Read(1)) && e == FinishEvent(t, leg)
    else && leg != T.Compensation && Fatal(cfg, answer.error)
         && closing == Failing(t, leg, cfg.text(Rejected(answer.error)), Read(1))
         && e == T.TransferFailed(closing.reason, FailureStage(leg))
  }

  // The end of the pass, from the place and store m of the handler's end.
  function EndOf(m: System, s: System, w: nat, t: string, leg: Leg, record: R.Record, e: T.Event): System {
    System(SetRecord(m.store, LegId(t, leg), record).AppendTransfer(t, e), s.workers).Go(w, Idle)
  }

  lemma ClosePass(cfg: Config, m: System, s: System, w: nat, t: string, leg: Leg, closing: Pc, e: T.Event, n: nat)
    requires n >= 3 && Ready(cfg, s, w, t, leg) && m == AtMarking(cfg, s, w, t, leg)
    requires StateOf(m, t) == T.When(StateOf(s, t), StartEvent(s, t, leg))
    requires Closes(cfg, Answer(cfg, s, t, leg), t, leg, closing, e)
    ensures Run(cfg, m, w, n) ==
              EndOf(m, s, w, t, leg, RecordFor(JobOf(cfg, s, t, leg), MarkOf(Answer(cfg, s, t, leg))), e)
  {
    var record := RecordFor(JobOf(cfg, s, t, leg), MarkOf(Answer(cfg, s, t, leg)));
    var cmd := if closing.Finishing? then FinishCommand(leg) else T.Fail(closing.reason, FailureStage(leg));
    FromMarking(cfg, m, w, m.At(w), closing, cmd, e, record, n);
    GoTwice(s, w, m.At(w), SetRecord(m.store, LegId(t, leg), record).AppendTransfer(t, e), Idle);
  }

  // From the picked transfer to the end of its leg.
  lemma PassEnds(cfg: Config, s: System, m: System, w: nat, t: string, leg: Leg, closing: Pc, e: T.Event, n: nat)
    requires n >= PASS && Ready(cfg, s, w, t, leg) && m == AtMarking(cfg, s, w, t, leg)
    requires Closes(cfg, Answer(cfg, s, t, leg), t, leg, closing, e)
    ensures Run(cfg, s, w, n) ==
              EndOf(m, s, w, t, leg, RecordFor(JobOf(cfg, s, t, leg), MarkOf(Answer(cfg, s, t, leg))), e)
  {
    StateAtMarking(cfg, s, w, t, leg);
    ClosePass(cfg, m, s, w, t, leg, closing, e, n - 7);
    UpToMarking(cfg, s, w, t, leg, n);
  }

  lemma AcceptedPass(cfg: Config, s: System, w: nat, t: string, leg: Leg, n: nat)
    requires n >= PASS && Ready(cfg, s, w, t, leg) && Answer(cfg, s, t, leg).Success?
    ensures Run(cfg, s, w, n) == System(AcceptedStore(cfg, s, t, leg), s.workers).Go(w, Idle)
  {
    PassEnds(cfg, s, AtMarking(cfg, s, w, t, leg), w, t, leg, Finishing(t, leg, Read(1)), FinishEvent(t, leg), n);
    ClosedStore(cfg, s, w, t, leg, FinishEvent(t, leg));
  }

  lemma RejectedPass(cfg: Config, s: System, w: nat, t: string, leg: Leg, n: nat)
    requires n >= PASS && Ready(cfg, s, w, t, leg) && leg != T.Compensation
    requires Answer(cfg, s, t, leg).Failure? && Fatal(cfg, Answer(cfg, s, t, leg).error)
    ensures Run(cfg, s, w, n) == System(RejectedStore(cfg, s, t, leg), s.workers).Go(w, Idle)
  {
    var reason := cfg.text(Rejected(Answer(cfg, s, t, leg).error));
    var failed := T.TransferFailed(reason, FailureStage(leg));
    PassEnds(cfg, s, AtMarking(cfg, s, w, t, leg), w, t, leg, Failing(t, leg, reason, Read(1)), failed, n);
    ClosedStore(cfg, s, w, t, leg, failed);
  }

  // What a pass leaves behind when the same movement is already completed: the start
  // and the closing event of the leg, and nothing else.
  function CachedStore(s: System, t: string, leg: Leg): Store {
    s.store.(transfers := s.store.transfers[t := s.store.Transfer(t) + [StartEvent(s, t, leg), FinishEvent(t, leg)]])
  }

  lemma TwoAppends(store: Store, t: string, e: T.Event, e': T.Event)
    ensures store.AppendTransfer(t, e).AppendTransfer(t, e')
         == store.(transfers := store.transfers[t := store.Transfer(t) + [e, e']])
  {
    var es, transfers := store.Transfer(t), store.transfers;
    assert es + [e] + [e'] == es + [e, e'];
    assert transfers[t := es + [e]][t := es + [e, e']] == transfers[t := es + [e, e']];
  }

  lemma FinishAccepted(cfg: Config, s: System, w: nat, t: string, leg: Leg)
    requires Listed(s, w, t, leg)
    ensures T.Decide(T.Fold(s.store.AppendTransfer(t, StartEvent(s, t, leg)).Transfer(t)), FinishCommand(leg))
         == Success(FinishEvent(t, leg))
  {
    T.FoldSnoc(s.store.Transfer(t), StartEvent(s, t, leg));
  }

  lemma CachedPass(cfg: Config, s: System, w: nat, t: string, leg: Leg, n: nat)
    requires n >= 7 && Listed(s, w, t, leg) && Open(s.store, LegId(t, leg), R.Completed)
    requires R.SameIntent(JobOf(cfg, s, t, leg).input, s.store.registry[LegId(t, leg)])
    ensures Run(cfg, s, w, n) == System(CachedStore(s, t, leg), s.workers).Go(w, Idle)
  {
    var store := s.store.AppendTransfer(t, StartEvent(s, t, leg));
    UpToReservation(cfg, s, w, t, leg, n);
    FinishAccepted(cfg, s, w, t, leg);
    FromCached(cfg, store, s, w, t, leg, n - 4);
    TwoAppends(s.store, t, StartEvent(s, t, leg), FinishEvent(t, leg));
  }

  // From the reservation on.
  lemma FromCached(cfg: Config, store: Store, s: System, w: nat, t: string, leg: Leg, n: nat)
    requires n >= 3 && Listed(s, w, t, leg) && Open(store, LegId(t, leg), R.Completed)
    requires R.SameIntent(JobOf(cfg, s, t, leg).input, store.registry[LegId(t, leg)])
    requires T.Decide(T.Fold(store.Transfer(t)), FinishCommand(leg)) == Success(FinishEvent(t, leg))
    ensures Run(cfg, System(store, s.workers).Go(w, Reserving(JobOf(cfg, s, t, leg))), w, n) ==
              System(store.AppendTransfer(t, FinishEvent(t, leg)), s.workers).Go(w, Idle)
  {
    var s1 := System(store, s.workers).Go(w, Reserving(JobOf(cfg, s, t, leg)));
    var s2 := System(store, s.workers).Go(w, Finishing(t, leg, Read(1)));
    ReservingIsCached(cfg, s1, w, JobOf(cfg, s, t, leg), s2);
    Pass(cfg, s1, w, n, s2);
    UpToEnd(cfg, s2, w, t, FinishCommand(leg), FinishEvent(t, leg), s2.At(w), n - 1);
    GoTwice(s, w, s2.At(w), store.AppendTransfer(t, FinishEvent(t, leg)), Idle);
  }

  lemma ReservingIsCached(cfg: Config, s: System, w: nat, job: Job, next: System)
    requires s.At(w) == Reserving(job) && job.owner.TransferLeg? && job.input.amount.Some?
    requires Open(s.store, job.Tx(), R.Completed) && R.SameIntent(job.input, s.store.registry[job.Tx()])
    requires next == s.Go(w, Finishing(job.owner.transferId, job.owner.leg, Read(1)))
    ensures Advance(cfg, s, w, Done) == next
  {
  }

  // The coordinator's next visit to the same transfer, n steps later.
  function Visit(cfg: Config, s: System, w: nat, t: string, n: nat): System {
    Run(cfg, s, w, n).Go(w, Picked(t))
  }

  lemma FoldTwo(es: seq<T.Event>, a: T.Event, b: T.Event)
    ensures T.Fold(es + [a, b]) == T.When(T.When(T.Fold(es), a), b)
  {
    T.FoldSnoc(es, a);
    T.FoldSnoc(es + [a], b);
    assert es + [a] + [b] == es + [a, b];
  }

  function ClosingEvent(cfg: Config, s: System, t: string, leg: Leg): T.Event
    requires StateOf(s, t).info.Some?
  {
    match Answer(cfg, s, t, leg)
    case Success(_) => FinishEvent(t, leg)
    case Failure(why) => T.TransferFailed(cfg.text(Rejected(why)), FailureStage(leg))
  }

  lemma StateAfterVisit(cfg: Config, s: System, w: nat, t: string, leg: Leg, store: Store)
    requires Ready(cfg, s, w, t, leg)
    requires store.Transfer(t) == s.store.Transfer(t) + [StartEvent(s, t, leg), ClosingEvent(cfg, s, t, leg)]
    ensures var st := T.Fold(store.Transfer(t));
            && st == T.When(T.When(StateOf(s, t), StartEvent(s, t, leg)), ClosingEvent(cfg, s, t, leg))
            && StateOk(t, st) && st.info == StateOf(s, t).info
  {
    FoldTwo(s.store.Transfer(t), StartEvent(s, t, leg), ClosingEvent(cfg, s, t, leg));
  }

  // What the next visit finds.
  lemma AfterVisit(cfg: Config, s: System, w: nat, t: string, leg: Leg, n: nat)
    requires n >= PASS && Ready(cfg, s, w, t, leg)
    requires Answer(cfg, s, t, leg).Failure? ==>
               leg != T.Compensation && Fatal(cfg, Answer(cfg, s, t, leg).error)
    ensures var s', answer := Visit(cfg, s, w, t, n), Answer(cfg, s, t, leg);
            && s'.At(w) == Picked(t)
            && s'.store == (if answer.Success? then AcceptedStore(cfg, s, t, leg) else RejectedStore(cfg, s, t, leg))
            && StateOf(s', t) == T.When(T.When(StateOf(s, t), StartEvent(s, t, leg)), ClosingEvent(cfg, s, t, leg))
            && StateOk(t, StateOf(s', t)) && StateOf(s', t).info == StateOf(s, t).info
  {
    if Answer(cfg, s, t, leg).Success? {
      AcceptedPass(cfg, s, w, t, leg, n);
      StateAfterVisit(cfg, s, w, t, leg, AcceptedStore(cfg, s, t, leg));
    } else {
      RejectedPass(cfg, s, w, t, leg, n);
      StateAfterVisit(cfg, s, w, t, leg, RejectedStore(cfg, s, t, leg));
    }
  }

  // The account can take part in a movement of the transfer.
  predicate Willing(s: System, id: string, currency: string) {
    var st := A.Fold(s.store.Account(id));
    st.status == A.Active && st.currency == Some(currency)
  }

  function Balance(s: System, id: string): int { A.Fold(s.store.Account(id)).balance }

  // A listed transfer nobody has worked on yet, of a positive amount its source can pay.
  predicate Payable(cfg: Config, s: System, w: nat, t: string) {
    && Ready(cfg, s, w, t, T.Debit)
    && StateOf(s, t).status == Some(T.Initiated)
    && LegId(t, T.Credit) !in s.store.registry && LegId(t, T.Compensation) !in s.store.registry
    && (var info := StateOf(s, t).info.value;
        && info.source != info.destination
        && cfg.legAmount(info.amount).Some?
        && 0 < cfg.legAmount(info.amount).value <= Balance(s, info.source)
        && Willing(s, info.source, info.currency))
  }

  // The first visit debits the source and leaves the credit to be done.
  lemma FirstVisit(cfg: Config, s: System, w: nat, t: string, n: nat)
    requires n >= PASS && Payable(cfg, s, w, t)
    ensures var info := StateOf(s, t).info.value;
            var amount, s' := cfg.legAmount(info.amount).value, Visit(cfg, s, w, t, n);
            && StateOf(s', t).status == Some(T.Debited) && StateOf(s', t).info == Some(info)
            && Ready(cfg, s', w, t, T.Credit)
            && s'.store.registry.Keys == s.store.registry.Keys + {LegId(t, T.Debit)}
            && s'.store.accounts ==
                 s.store.accounts[info.source :=
                     s.store.Account(info.source) + [A.MoneyWithdrawn(amount, info.currency, LegId(t, T.Debit))]]
            && Balance(s', info.source) == Balance(s, info.source) - amount
            && Willing(s', info.source, info.currency)
  {
    var info := StateOf(s, t).info.value;
    AfterVisit(cfg, s, w, t, T.Debit, n);
    A.FoldSnoc(s.store.Account(info.source), Answer(cfg, s, t, T.Debit).value);
    assert LegId(t, T.Credit) != LegId(t, T.Debit) by { OtherLegs(t, T.Debit); }
    DebitedDispatch(t, StateOf(s, t), StartEvent(s, t, T.Debit), FinishEvent(t, T.Debit));
  }

  // A debited transfer is next credited.
  lemma DebitedDispatch(t: string, st: T.State, start: T.Event, finish: T.Event)
    requires start.TransferStarted? && start.leg.Debit? && finish.TransferDebited?
    requires StateOk(t, st)
    ensures Dispatch(t, T.When(T.When(st, start), finish)) == Entering(t, T.Credit, LegId(t, T.Credit))
  {
  }

  // The visit that credits the destination.
  lemma CreditVisit(cfg: Config, s: System, w: nat, t: string, n: nat)
    requires n >= PASS && Ready(cfg, s, w, t, T.Credit) && StateOf(s, t).status == Some(T.Debited)
    requires var info := StateOf(s, t).info.value;
             && Willing(s, info.destination, info.currency)
             && cfg.legAmount(info.amount).Some? && cfg.legAmount(info.amount).value > 0
    ensures var info, s' := StateOf(s, t).info.value, Visit(cfg, s, w, t, n);
            && StateOf(s', t).status == Some(T.Completed)
            && Balance(s', info.destination) == Balance(s, info.destination) + cfg.legAmount(info.amount).value
            && (forall id :: id != info.destination ==> s'.store.Account(id) == s.store.Account(id))
  {
    AfterVisit(cfg, s, w, t, T.Credit, n);
    A.FoldSnoc(s.store.Account(StateOf(s, t).info.value.destination), Answer(cfg, s, t, T.Credit).value);
  }

  // Two visits complete a payable transfer to a willing account: the amount leaves
  // the source, reaches the destination, and no other account changes.
  lemma TransferCompletes(cfg: Config, s: System, w: nat, t: string, n: nat)
    requires n >= PASS && Payable(cfg, s, w, t)
    requires Willing(s, StateOf(s, t).info.value.destination, StateOf(s, t).info.value.currency)
    ensures var info := StateOf(s, t).info.value;
            var amount, s' := cfg.legAmount(info.amount).value, Visit(cfg, Visit(cfg, s, w, t, n), w, t, n);
            && StateOf(s', t).status == Some(T.Completed)
            && Balance(s', info.source) == Balance(s, info.source) - amount
            && Balance(s', info.destination) == Balance(s, info.destination) + amount
            && (forall id :: id != info.source && id != info.destination ==>
                s'.store.Account(id) == s.store.Account(id))
  {
    FirstVisit(cfg, s, w, t, n);
    var s1 := Visit(cfg, s, w, t, n);
    var info := StateOf(s, t).info.value;
    assert forall id :: id != info.source ==> s1.store.Account(id) == s.store.Account(id);
    CreditVisit(cfg, s1, w, t, n);
  }

  // Three visits give the money back when the destination cannot take it: the
  // source ends with the balance it had and no other account changes.
  lemma TransferCompensates(cfg: Config, s: System, w: nat, t: string, n: nat)
    requires AsCoded(cfg) && n >= PASS && Payable(cfg, s, w, t)
    requires !Willing(s, StateOf(s, t).info.value.destination, StateOf(s, t).info.value.currency)
    ensures var info := StateOf(s, t).info.value;
            var s' := Visit(cfg, Visit(cfg, Visit(cfg, s, w, t, n), w, t, n), w, t, n);
            && StateOf(s', t).status == Some(T.Compensated)
            && Balance(s', info.source) == Balance(s, info.source)
            && |s'.store.Account(info.source)| == |s.store.Account(info.source)| + 2
            && (forall id :: id != info.source ==> s'.store.Account(id) == s.store.Account(id))
  {
    FirstVisit(cfg, s, w, t, n);
    var s1 := Visit(cfg, s, w, t, n);
    var info := StateOf(s, t).info.value;
    assert s1.store.Account(info.destination) == s.store.Account(info.destination);
    SecondVisitFails(cfg, s1, w, t, n);
    var s2 := Visit(cfg, s1, w, t, n);
    assert s2.store.Account(info.source) == s1.store.Account(info.source);
    ThirdVisit(cfg, s2, w, t, n);
  }

  lemma ThirdVisit(cfg: Config, s: System, w: nat, t: string, n: nat)
    requires n >= PASS && Ready(cfg, s, w, t, T.Compensation) && StateOf(s, t).FailedAt(T.AtCredit)
    requires var info := StateOf(s, t).info.value;
             && Willing(s, info.source, info.currency)
             && cfg.legAmount(info.amount).Some? && cfg.legAmount(info.amount).value > 0
    ensures var info, s' := StateOf(s, t).info.value, Visit(cfg, s, w, t, n);
            && StateOf(s', t).status == Some(T.Compensated)
            && Balance(s', info.source) == Balance(s, info.source) + cfg.legAmount(info.amount).value
            && |s'.store.Account(info.source)| == |s.store.Account(info.source)| + 1
            && (forall id :: id != info.source ==> s'.store.Account(id) == s.store.Account(id))
  {
    AfterVisit(cfg, s, w, t, T.Compensation, n);
    A.FoldSnoc(s.store.Account(StateOf(s, t).info.value.source), Answer(cfg, s, t, T.Compensation).value);
  }

  lemma UnwillingRefuses(cfg: Config, s: System, w: nat, t: string)
    requires AsCoded(cfg) && Ready(cfg, s, w, t, T.Credit)
    requires !Willing(s, StateOf(s, t).info.value.destination, StateOf(s, t).info.value.currency)
    ensures Answer(cfg, s, t, T.Credit).Failure? && Fatal(cfg, Answer(cfg, s, t, T.Credit).error)
  {
    RejectionTerminal(Answer(cfg, s, t, T.Credit).error);
  }

  lemma SecondVisitFails(cfg: Config, s: System, w: nat, t: string, n: nat)
    requires AsCoded(cfg) && n >= PASS
    requires Ready(cfg, s, w, t, T.Credit) && StateOf(s, t).status == Some(T.Debited)
    requires LegId(t, T.Compensation) !in s.store.registry
    requires !Willing(s, StateOf(s, t).info.value.destination, StateOf(s, t).info.value.currency)
    ensures var s' := Visit(cfg, s, w, t, n);
            && s'.store.accounts == s.store.accounts
            && StateOf(s', t).info == StateOf(s, t).info
            && StateOf(s', t).status == Some(T.Failed) && StateOf(s', t).FailedAt(T.AtCredit)
            && Ready(cfg, s', w, t, T.Compensation)
  {
    UnwillingRefuses(cfg, s, w, t);
    AfterVisit(cfg, s, w, t, T.Credit, n);
    assert LegId(t, T.Credit) != LegId(t, T.Compensation) by { OtherLegs(t, T.Compensation); }
    assert Dispatch(t, StateOf(Visit(cfg, s, w, t, n), t)) == Entering(t, T.Compensation, LegId(t, T.Compensation)) by {
      FailedDispatch(t, StateOf(s, t), StartEvent(s, t, T.Credit), ClosingEvent(cfg, s, t, T.Credit));
    }
  }

  // A transfer that failed at the credit stage is next compensated.
  lemma FailedDispatch(t: string, st: T.State, start: T.Event, failed: T.Event)
    requires start.TransferStarted? && start.leg.Credit? && failed.TransferFailed? && failed.stage == T.AtCredit
    requires StateOk(t, st)
    ensures Dispatch(t, T.When(T.When(st, start), failed)) == Entering(t, T.Compensation, LegId(t, T.Compensation))
  {
  }

  // ---- Passes are schedules ----

  // A pass is the schedule that picks the transfer and lets the worker step alone.
  lemma {:induction false} PassIsASchedule(cfg: Config, schedule: seq<Action>, w: nat, t: string, n: nat)
    requires Exec(cfg, schedule).At(w).Idle?
    ensures Exec(cfg, schedule + [Pick(w, t)] + Steps(w, n)) == Run(cfg, Exec(cfg, schedule).Go(w, Picked(t)), w, n)
  {
    var picked := schedule + [Pick(w, t)];
    var all := picked + Steps(w, n);
    if n == 0 {
      assert all == picked;
      assert picked[..|picked|-1] == schedule;
    } else {
      PassIsASchedule(cfg, schedule, w, t, n - 1);
      assert all[..|all|-1] == picked + Steps(w, n - 1) && all[|all|-1] == Step(w, Done);
      RunSnoc(cfg, Exec(cfg, schedule).Go(w, Picked(t)), w, n);
    }
  }

  lemma {:induction false} RunSnoc(cfg: Config, s: System, w: nat, n: nat)
    requires n > 0
    ensures Run(cfg, s, w, n) == Advance(cfg, Run(cfg, s, w, n - 1), w, Done)
    decreases n
  {
    if n > 1 {
      RunSnoc(cfg, Advance(cfg, s, w, Done), w, n - 1);
    }
  }

  // Undisturbed steps are a schedule.
  lemma {:induction false} StepsAfter(cfg: Config, h: seq<Action>, w: nat, n: nat)
    ensures Exec(cfg, h + Steps(w, n)) == Run(cfg, Exec(cfg, h), w, n)
  {
    var all := h + Steps(w, n);
    if n == 0 {
      assert all == h;
    } else {
      StepsAfter(cfg, h, w, n - 1);
      assert all[..|all|-1] == h + Steps(w, n - 1) && all[|all|-1] == Step(w, Done);
      RunSnoc(cfg, Exec(cfg, h), w, n);
    }
  }
}
