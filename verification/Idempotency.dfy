// Idempotent requests: one record per key, reserved before the handler runs and
// marked after it. Any number of calls interleave at every await and can die there.
module Idempotency {
  import opened Wrappers

  datatype Status = InProgress | Completed | Failed

  // A request is its operation and payload; the stored hash stands for both.
  datatype Request = Request(operation: string, payload: string)

  datatype Record = Record(request: Request, status: Status, response: Option<string>)

  type Records = map<string, Record>

  datatype Refusal = KeyRequired | OtherRequest | AlreadyInProgress | PreviouslyFailed

  datatype Verdict = Run | Cached(response: string) | Refuse(why: Refusal)

  // What a call may do once it has tried to reserve its key.
  function Admit(records: Records, key: string, request: Request): Verdict {
    if key == "" then Refuse(KeyRequired)
    else if key !in records then Run
    else
      var record := records[key];
      if record.request != request then Refuse(OtherRequest)
      else if record.status == Completed && record.response.Some? then Cached(record.response.value)
      else if record.status == InProgress then Refuse(AlreadyInProgress)
      else Refuse(PreviouslyFailed)
  }

  function Reserved(records: Records, key: string, request: Request): Records {
    if key in records then records else records[key := Record(request, InProgress, None)]
  }

  function MarkedCompleted(records: Records, key: string, response: string): Records {
    if key in records then records[key := records[key].(status := Completed, response := Some(response))] else records
  }

  // The response, if one was stored, stays.
  function MarkedFailed(records: Records, key: string): Records {
    if key in records then records[key := records[key].(status := Failed)] else records
  }

  // ---- One undisturbed call ----

  class IdempotencyRecordRepository {
    var records: Records

    constructor ()
      ensures records == map[]
    {
      records := map[];
    }

    method Reserve(key: string, request: Request) returns (created: bool, record: Record)
      modifies this
      ensures records == Reserved(old(records), key, request)
      ensures records == if key in old(records) then old(records)
                         else old(records)[key := Record(request, InProgress, None)]
      ensures record == records[key]
      ensures created <==> key !in old(records)
    {
      if key in records {
        return false, records[key];
      }
      record := Record(request, InProgress, None);
      records := records[key := record];
      created := true;
    }

    method MarkCompleted(key: string, response: string)
      modifies this
      ensures records == MarkedCompleted(old(records), key, response)
      ensures records == if key in old(records)
                         then old(records)[key := Record(old(records)[key].request, Completed, Some(response))]
                         else old(records)
    {
      if key in records {
        records := records[key := records[key].(status := Completed, response := Some(response))];
      }
    }

    method MarkFailed(key: string)
      modifies this
      ensures records == MarkedFailed(old(records), key)
      ensures records == if key in old(records)
                         then old(records)[key := Record(old(records)[key].request, Failed, old(records)[key].response)]
                         else old(records)
    {
      if key in records {
        records := records[key := records[key].(status := Failed)];
      }
    }
  }

  // One call of execute that nothing else interleaves with; the handler gives None when
  // it throws.
  datatype Execution = Execution(records: Records, ran: bool, response: Option<string>)

  function Executed(records: Records, key: string, request: Request, handler: Option<string>): Execution {
    match Admit(records, key, request)
    case Cached(response) => Execution(records, false, Some(response))
    case Refuse(_) => Execution(records, false, None)
    case Run =>
      var reserved := Reserved(records, key, request);
      Execution(if handler.Some? then MarkedCompleted(reserved, key, handler.value) else MarkedFailed(reserved, key),
                true, handler)
  }

  // The handler runs exactly when the key was never used. A call that does not run it
  // returns exactly when the key is known for the same request, completed and with a
  // stored response, and then returns that response.
  method Execute(repository: IdempotencyRecordRepository, key: string, request: Request, handler: Option<string>)
    returns (ran: bool, response: Option<string>)
    modifies repository
    ensures Execution(repository.records, ran, response) == Executed(old(repository.records), key, request, handler)
    ensures ran <==> key != "" && key !in old(repository.records)
    ensures !ran ==> repository.records == old(repository.records)
    ensures ran ==>
              && response == handler
              && repository.records == old(repository.records)[key :=
                   if handler.Some? then Record(request, Completed, handler) else Record(request, Failed, None)]
    ensures !ran ==>
              (response.Some? <==>
                 && key != "" && key in old(repository.records)
                 && (var record := old(repository.records)[key];
                     record.request == request && record.status == Completed && record.response.Some?))
    ensures !ran && response.Some? ==> response == old(repository.records)[key].response
  {
    if key == "" {
      return false, None;
    }
    var created, record := repository.Reserve(key, request);
    if !created {
      if record.request != request {
        return false, None;
      }
      if record.status == Completed && record.response.Some? {
        return false, record.response;
      }
      return false, None;
    }
    ran := true;
    if handler.Some? {
      repository.MarkCompleted(key, handler.value);
    } else {
      repository.MarkFailed(key);
    }
    response := handler;
  }

  // ---- One call after another ----

  datatype Asked = Asked(key: string, request: Request, handler: Option<string>)

  function AfterCalls(records: Records, calls: seq<Asked>): Records {
    if calls == [] then records
    else
      var last := calls[|calls|-1];
      Executed(AfterCalls(records, calls[..|calls|-1]), last.key, last.request, last.handler).records
  }

  // A record stays as it is, whatever calls follow.
  lemma {:induction false} RecordStays(records: Records, calls: seq<Asked>, key: string)
    requires key in records
    ensures key in AfterCalls(records, calls) && AfterCalls(records, calls)[key] == records[key]
    decreases |calls|
  {
    if calls != [] {
      RecordStays(records, calls[..|calls|-1], key);
    }
  }

  // The law of two calls with one key, whatever comes between them. Once a handler has
  // run, no other runs. If it succeeded, a later call for the same request returns its
  // response; if it threw, or the request is another one, a later call is refused.
  lemma TwoCalls(records: Records, first: Asked, between: seq<Asked>, second: Asked)
    requires first.key == second.key && Executed(records, first.key, first.request, first.handler).ran
    ensures var after := Executed(records, first.key, first.request, first.handler);
            var r := Executed(AfterCalls(after.records, between), second.key, second.request, second.handler);
            && after.response == first.handler && !r.ran
            && r.response == if second.request == first.request then first.handler else None
  {
    var after := Executed(records, first.key, first.request, first.handler).records;
    RecordStays(after, between, first.key);
  }

  // Why a call is refused, reason by reason.
  lemma RefusedIff(records: Records, key: string, request: Request, why: Refusal)
    ensures Admit(records, key, request) == Refuse(why) <==>
              match why
              case KeyRequired => key == ""
              case OtherRequest => key != "" && key in records && records[key].request != request
              case AlreadyInProgress =>
                key != "" && key in records && records[key].request == request && records[key].status == InProgress
              case PreviouslyFailed =>
                && key != "" && key in records && records[key].request == request
                && (records[key].status == Failed
                    || (records[key].status == Completed && records[key].response.None?))
  {
  }

  // ---- Many calls at once ----

  datatype Phase =
    | Reserving
    | Running
    | Handled(response: string)
    | Failing
    | Returned(response: string)
    | Thrown
    | Gone

  datatype Call = Call(key: string, request: Request, phase: Phase)

  // One run of a handler; the response is None when it threw.
  datatype HandlerRun = HandlerRun(key: string, call: nat, response: Option<string>)

  // owners: which call created the record of a key. runs: all handler runs so far.
  datatype State = State(records: Records, calls: map<nat, Call>, owners: map<string, nat>, runs: seq<HandlerRun>)

  const EMPTY := State(map[], map[], map[], [])

  // How an awaited write of a mark ended.
  datatype Write = Done | LostBefore | LostAfter

  datatype Action =
    | Begin(c: nat, key: string, request: Request)
    | Reserve(c: nat)
    | Handle(c: nat, handler: Option<string>)
    | Complete(c: nat, write: Write)
    | Fail(c: nat, write: Write)
    | Die(c: nat)

  function Go(s: State, c: nat, phase: Phase): State
    requires c in s.calls
  {
    s.(calls := s.calls[c := s.calls[c].(phase := phase)])
  }

  function Next(s: State, a: Action): State {
    match a
    case Begin(c, key, request) =>
      if c in s.calls then s else s.(calls := s.calls[c := Call(key, request, Reserving)])
    case Reserve(c) =>
      if c in s.calls && s.calls[c].phase.Reserving? then
        var call := s.calls[c];
        (match Admit(s.records, call.key, call.request)
         case Run =>
           Go(s.(records := Reserved(s.records, call.key, call.request), owners := s.owners[call.key := c]), c, Running)
         case Cached(response) => Go(s, c, Returned(response))
         case Refuse(_) => Go(s, c, Thrown))
      else s
    case Handle(c, handler) =>
      if c in s.calls && s.calls[c].phase.Running? then
        Go(s.(runs := s.runs + [HandlerRun(s.calls[c].key, c, handler)]), c,
           if handler.Some? then Handled(handler.value) else Failing)
      else s
    case Complete(c, write) =>
      if c in s.calls && s.calls[c].phase.Handled? then
        var response := s.calls[c].phase.response;
        var s' := if write.LostBefore? then s else s.(records := MarkedCompleted(s.records, s.calls[c].key, response));
        // An error while marking lands in the catch block, although the handler succeeded.
        Go(s', c, if write.Done? then Returned(response) else Failing)
      else s
    case Fail(c, write) =>
      if c in s.calls && s.calls[c].phase.Failing? then
        Go(if write.LostBefore? then s else s.(records := MarkedFailed(s.records, s.calls[c].key)), c, Thrown)
      else s
    case Die(c) => if c in s.calls then Go(s, c, Gone) else s
  }

  function Exec(schedule: seq<Action>): State {
    if schedule == [] then EMPTY else Next(Exec(schedule[..|schedule|-1]), schedule[|schedule|-1])
  }

  // ---- The invariant ----

  predicate Ran(s: State, key: string, response: string) {
    exists i :: 0 <= i < |s.runs| && s.runs[i].key == key && s.runs[i].response == Some(response)
  }

  predicate Owns(s: State, c: nat, key: string) { key in s.owners && s.owners[key] == c }

  predicate CallOk(s: State, c: nat)
    requires c in s.calls
  {
    var call := s.calls[c];
    && (call.phase.Reserving? ==> c !in s.owners.Values)
    && (call.phase.Running? || call.phase.Handled? || call.phase.Failing? ==>
          Owns(s, c, call.key) && call.key in s.records)
    && (call.phase.Running? ==> forall i :: 0 <= i < |s.runs| ==> s.runs[i].key != call.key)
    && (call.phase.Handled? ==> Ran(s, call.key, call.phase.response))
    && (call.phase.Returned? ==>
          && Ran(s, call.key, call.phase.response)
          && call.key in s.records && s.records[call.key].request == call.request)
  }

  predicate KeyOk(s: State, key: string) {
    && (key in s.owners <==> key in s.records)
    && (key in s.owners ==>
          && s.owners[key] in s.calls && s.calls[s.owners[key]].key == key
          && s.records[key].request == s.calls[s.owners[key]].request
          && (s.records[key].response.Some? ==> Ran(s, key, s.records[key].response.value)))
  }

  predicate RunsOk(s: State) {
    && (forall i :: 0 <= i < |s.runs| ==> Owns(s, s.runs[i].call, s.runs[i].key))
    && (forall i, j :: 0 <= i < j < |s.runs| ==> s.runs[i].key != s.runs[j].key)
  }

  ghost predicate Inv(s: State) {
    && (forall c :: c in s.calls ==> CallOk(s, c))
    && (forall key :: KeyOk(s, key))
    && RunsOk(s)
  }

  lemma ReserveKeeps(s: State, c: nat)
    requires Inv(s)
    ensures Inv(Next(s, Reserve(c)))
  {
    if c in s.calls && s.calls[c].phase.Reserving? {
      var s' := Next(s, Reserve(c));
      var call := s.calls[c];
      assert CallOk(s, c) && KeyOk(s, call.key);
      forall d | d in s'.calls ensures CallOk(s', d) {
        assert CallOk(s, d);
      }
      forall key ensures KeyOk(s', key) {
        assert KeyOk(s, key);
      }
    }
  }

  lemma RanGrows(s: State, run: HandlerRun, key: string, response: string)
    ensures Ran(s, key, response) ==> Ran(s.(runs := s.runs + [run]), key, response)
    ensures run.key == key && run.response == Some(response) ==> Ran(s.(runs := s.runs + [run]), key, response)
  {
    var runs := s.runs + [run];
    assert runs[|s.runs|] == run;
    if Ran(s, key, response) {
      var i :| 0 <= i < |s.runs| && s.runs[i].key == key && s.runs[i].response == Some(response);
      assert runs[i] == s.runs[i];
    }
  }

  lemma HandleKeeps(s: State, c: nat, handler: Option<string>)
    requires Inv(s)
    ensures Inv(Next(s, Handle(c, handler)))
  {
    if c in s.calls && s.calls[c].phase.Running? {
      var s' := Next(s, Handle(c, handler));
      var run := HandlerRun(s.calls[c].key, c, handler);
      assert CallOk(s, c);
      forall d | d in s'.calls ensures CallOk(s', d) {
        assert CallOk(s, d);
        var p := s'.calls[d].phase;
        if p.Handled? || p.Returned? {
          RanGrows(s, run, s.calls[d].key, p.response);
        }
      }
      forall key ensures KeyOk(s', key) {
        assert KeyOk(s, key);
        if key in s.records && s.records[key].response.Some? {
          RanGrows(s, run, key, s.records[key].response.value);
        }
      }
    }
  }

  // The marks change only the status and response of a record.
  lemma MarkKeeps(s: State, a: Action)
    requires Inv(s) && (a.Complete? || a.Fail? || a.Die?)
    ensures Inv(Next(s, a))
  {
    if a.c in s.calls {
      var s' := Next(s, a);
      assert CallOk(s, a.c) && KeyOk(s, s.calls[a.c].key);
      assert s'.runs == s.runs && s'.owners == s.owners;
      forall d | d in s'.calls ensures CallOk(s', d) {
        assert CallOk(s, d);
        var p := s'.calls[d].phase;
        assert (p.Handled? || p.Returned?) && Ran(s, s.calls[d].key, p.response) ==>
            Ran(s', s.calls[d].key, p.response);
      }
      forall key ensures KeyOk(s', key) {
        assert KeyOk(s, key);
        assert key in s'.records && s'.records[key].response.Some? && Ran(s, key, s'.records[key].response.value) ==>
            Ran(s', key, s'.records[key].response.value);
      }
    }
  }

  lemma BeginKeeps(s: State, c: nat, key: string, request: Request)
    requires Inv(s)
    ensures Inv(Next(s, Begin(c, key, request)))
  {
    if c !in s.calls {
      var s' := Next(s, Begin(c, key, request));
      forall k ensures KeyOk(s', k) && (k in s.owners ==> s.owners[k] != c) {
        assert KeyOk(s, k);
      }
      forall d | d in s'.calls ensures CallOk(s', d) {
        assert d != c ==> CallOk(s, d);
      }
    }
  }

  lemma {:induction false} Reachable(schedule: seq<Action>)
    ensures Inv(Exec(schedule))
    decreases |schedule|
  {
    if schedule != [] {
      var s := Exec(schedule[..|schedule|-1]);
      Reachable(schedule[..|schedule|-1]);
      match schedule[|schedule|-1]
      case Begin(c, key, request) => BeginKeeps(s, c, key, request);
      case Reserve(c) => ReserveKeeps(s, c);
      case Handle(c, handler) => HandleKeeps(s, c, handler);
      case _ => MarkKeeps(s, schedule[|schedule|-1]);
    }
  }

  // ---- What every schedule gives ----

  // For one key the handler runs at most once, in the call that created the record.
  lemma HandlerRunsAtMostOnce(schedule: seq<Action>, i: nat, j: nat)
    ensures var runs := Exec(schedule).runs;
            i < |runs| && j < |runs| && runs[i].key == runs[j].key ==> i == j
  {
    Reachable(schedule);
  }

  // Every call that returns gets the response of the one handler run of its key,
  // and its request is the one the key was reserved for.
  lemma ReturnsTheFirstResponse(schedule: seq<Action>, c: nat)
    requires c in Exec(schedule).calls && Exec(schedule).calls[c].phase.Returned?
    ensures var s := Exec(schedule);
            var call := s.calls[c];
            && Ran(s, call.key, call.phase.response)
            && call.key in s.owners && s.owners[call.key] in s.calls
            && s.calls[s.owners[call.key]].request == call.request
  {
    Reachable(schedule);
    var s := Exec(schedule);
    assert CallOk(s, c) && KeyOk(s, s.calls[c].key);
  }

  lemma ReturnsAgree(schedule: seq<Action>, c: nat, d: nat)
    requires c in Exec(schedule).calls && Exec(schedule).calls[c].phase.Returned?
    requires d in Exec(schedule).calls && Exec(schedule).calls[d].phase.Returned?
    requires Exec(schedule).calls[c].key == Exec(schedule).calls[d].key
    ensures Exec(schedule).calls[c].phase.response == Exec(schedule).calls[d].phase.response
    ensures Exec(schedule).calls[c].request == Exec(schedule).calls[d].request
  {
    Reachable(schedule);
    var s := Exec(schedule);
    ReturnsTheFirstResponse(schedule, c);
    ReturnsTheFirstResponse(schedule, d);
    assert RunsOk(s);
  }

  // ---- A failed record whose handler returned ----

  // Some run of the key's handler has returned a response.
  ghost predicate HasReturned(s: State, key: string) { exists response :: Ran(s, key, response) }

  // Marking the success of the key's run does not end well.
  predicate SlipsAt(s: State, a: Action, key: string) {
    a.Complete? && a.c in s.calls && s.calls[a.c].phase.Handled? && s.calls[a.c].key == key && !a.write.Done?
  }

  predicate Slipped(schedule: seq<Action>, key: string) {
    schedule != [] &&
    (Slipped(schedule[..|schedule|-1], key) || SlipsAt(Exec(schedule[..|schedule|-1]), schedule[|schedule|-1], key))
  }

  predicate IsFailed(s: State, key: string) { key in s.records && s.records[key].status == Failed }

  // What the owner of a key knows of it.
  ghost predicate OwnerOk(s: State, key: string, slipped: bool)
    requires key in s.owners && s.owners[key] in s.calls
  {
    match s.calls[s.owners[key]].phase
    case Running => !slipped && !HasReturned(s, key) && !IsFailed(s, key)
    case Handled(_) => !slipped && !IsFailed(s, key)
    case Failing => (HasReturned(s, key) <==> slipped) && !IsFailed(s, key)
    case _ => true
  }

  ghost predicate SlipInv(s: State, key: string, slipped: bool) {
    && (slipped ==> HasReturned(s, key))
    && (IsFailed(s, key) ==> (HasReturned(s, key) <==> slipped))
    && (key in s.owners && s.owners[key] in s.calls ==> OwnerOk(s, key, slipped))
  }

  // Only the owner of the key can change what is known of it.
  lemma SlipStep(s: State, a: Action, key: string, slipped: bool)
    requires Inv(s) && SlipInv(s, key, slipped)
    ensures SlipInv(Next(s, a), key, slipped || SlipsAt(s, a, key))
  {
    assert KeyOk(s, key);
    match a
    case Begin(c, k, request) => SlipBegin(s, c, k, request, key, slipped);
    case Reserve(c) => SlipReserve(s, c, key, slipped);
    case Handle(c, handler) => SlipHandle(s, c, handler, key, slipped);
    case _ => SlipMark(s, a, key, slipped);
  }

  lemma SameRuns(s: State, s': State, key: string)
    requires s'.runs == s.runs
    ensures HasReturned(s', key) <==> HasReturned(s, key)
  {
    forall response ensures Ran(s', key, response) <==> Ran(s, key, response) {}
  }

  lemma SlipBegin(s: State, c: nat, k: string, request: Request, key: string, slipped: bool)
    requires KeyOk(s, key) && SlipInv(s, key, slipped)
    ensures SlipInv(Next(s, Begin(c, k, request)), key, slipped)
  {
    SameRuns(s, Next(s, Begin(c, k, request)), key);
  }

  // A key without a record has no run.
  lemma NoRecordNoRun(s: State, key: string)
    requires RunsOk(s) && KeyOk(s, key) && key !in s.records
    ensures !HasReturned(s, key)
  {
    forall response ensures !Ran(s, key, response) {}
  }

  lemma SlipReserve(s: State, c: nat, key: string, slipped: bool)
    requires Inv(s) && SlipInv(s, key, slipped)
    ensures SlipInv(Next(s, Reserve(c)), key, slipped)
  {
    assert KeyOk(s, key);
    SameRuns(s, Next(s, Reserve(c)), key);
    if key !in s.records {
      NoRecordNoRun(s, key);
    }
    if c in s.calls {
      assert CallOk(s, c);
    }
  }

  lemma SlipHandle(s: State, c: nat, handler: Option<string>, key: string, slipped: bool)
    requires Inv(s) && SlipInv(s, key, slipped)
    ensures SlipInv(Next(s, Handle(c, handler)), key, slipped)
  {
    assert KeyOk(s, key);
    if c in s.calls && s.calls[c].phase.Running? {
      assert CallOk(s, c);
      var run := HandlerRun(s.calls[c].key, c, handler);
      ReturnedGrows(s, run, key);
      SameRuns(s.(runs := s.runs + [run]), Next(s, Handle(c, handler)), key);
    }
  }

  lemma ReturnedGrows(s: State, run: HandlerRun, key: string)
    ensures HasReturned(s.(runs := s.runs + [run]), key) <==>
              HasReturned(s, key) || (run.key == key && run.response.Some?)
  {
    var s' := s.(runs := s.runs + [run]);
    forall response ensures Ran(s', key, response) <==>
        Ran(s, key, response) || (run.key == key && run.response == Some(response))
    {
      RanGrows(s, run, key, response);
    }
    assert run.key == key && run.response.Some? ==> Ran(s', key, run.response.value);
  }

  lemma SlipMark(s: State, a: Action, key: string, slipped: bool)
    requires Inv(s) && SlipInv(s, key, slipped) && (a.Complete? || a.Fail? || a.Die?)
    ensures SlipInv(Next(s, a), key, slipped || SlipsAt(s, a, key))
  {
    assert KeyOk(s, key);
    SameRuns(s, Next(s, a), key);
    if a.c in s.calls {
      assert CallOk(s, a.c);
      if s.calls[a.c].phase.Handled? {
        assert Ran(s, s.calls[a.c].key, s.calls[a.c].phase.response);
      }
    }
  }

  lemma {:induction false} SlipReachable(schedule: seq<Action>, key: string)
    ensures SlipInv(Exec(schedule), key, Slipped(schedule, key))
    decreases |schedule|
  {
    if schedule == [] {
      NoRecordNoRun(EMPTY, key);
    } else {
      var n := |schedule| - 1;
      Reachable(schedule[..n]);
      SlipReachable(schedule[..n], key);
      SlipStep(Exec(schedule[..n]), schedule[n], key, Slipped(schedule[..n], key));
    }
  }

  // After every schedule, the handler of a key whose record says failed has returned a
  // response if and only if marking that success did not end well: markCompleted is in
  // the same try block as the handler.
  lemma FailedRecordRanIff(schedule: seq<Action>, key: string)
    ensures IsFailed(Exec(schedule), key) ==> (HasReturned(Exec(schedule), key) <==> Slipped(schedule, key))
  {
    SlipReachable(schedule, key);
  }

  // When marking a success never fails, a failed record means that nothing was returned.
  lemma FailedMeansNoResponse(schedule: seq<Action>, key: string)
    requires forall a :: a in schedule && a.Complete? ==> a.write.Done?
    ensures IsFailed(Exec(schedule), key) ==> !HasReturned(Exec(schedule), key)
  {
    NothingSlips(schedule, key);
    FailedRecordRanIff(schedule, key);
  }

  lemma {:induction false} NothingSlips(schedule: seq<Action>, key: string)
    requires forall a :: a in schedule && a.Complete? ==> a.write.Done?
    ensures !Slipped(schedule, key)
    decreases |schedule|
  {
    if schedule != [] {
      NothingSlips(schedule[..|schedule|-1], key);
    }
  }

  // ... and it stays failed, so every later call of the key is refused for ever.
  lemma {:induction false} FailedIsFinal(schedule: seq<Action>, more: seq<Action>, key: string, request: Request)
    requires IsFailed(Exec(schedule), key)
    ensures var s, s' := Exec(schedule), Exec(schedule + more);
            && key in s'.records && s'.records[key] == s.records[key]
            && Admit(s'.records, key, request).Refuse?
    decreases |more|
  {
    var all := schedule + more;
    if more == [] {
      assert all == schedule;
    } else {
      var n := |more| - 1;
      assert all[..|all|-1] == schedule + more[..n] && all[|all|-1] == more[n];
      FailedIsFinal(schedule, more[..n], key, request);
      Reachable(schedule + more[..n]);
      SlipReachable(schedule + more[..n], key);
      FailedStep(Exec(schedule + more[..n]), more[n], key, Slipped(schedule + more[..n], key));
    }
  }

  lemma FailedStep(s: State, a: Action, key: string, slipped: bool)
    requires Inv(s) && SlipInv(s, key, slipped) && IsFailed(s, key)
    ensures key in Next(s, a).records && Next(s, a).records[key] == s.records[key]
  {
    assert KeyOk(s, key);
    if (a.Complete? || a.Fail?) && a.c in s.calls {
      assert CallOk(s, a.c);
    }
  }

  // Such a run: the handler returns, marking its success fails, marking the failure
  // succeeds.
  lemma FailedRunExists(key: string, request: Request, response: string)
    requires key != ""
    ensures var s := Exec([Begin(0, key, request), Reserve(0), Handle(0, Some(response)),
                           Complete(0, LostBefore), Fail(0, Done)]);
            IsFailed(s, key) && Ran(s, key, response)
  {
    var a, b, c := Begin(0, key, request), Reserve(0), Handle(0, Some(response));
    var d, e := Complete(0, LostBefore), Fail(0, Done);
    assert [a, b, c, d, e][..4] == [a, b, c, d] && [a, b, c, d][..3] == [a, b, c];
    assert [a, b, c][..2] == [a, b] && [a, b][..1] == [a] && [a][..0] == [];
    var s1 := Next(EMPTY, a);
    assert Exec([a]) == s1;
    var s2 := Next(s1, b);
    assert Exec([a, b]) == s2;
    var s3 := Next(s2, c);
    assert Exec([a, b, c]) == s3 && s3.runs == [HandlerRun(key, 0, Some(response))];
    assert Exec([a, b, c, d]) == Next(s3, d);
    assert s3.runs[0].response == Some(response);
  }

  // ---- A completed record that goes on answering ----

  predicate Answers(s: State, key: string, request: Request, response: string) {
    key in s.records && s.records[key] == Record(request, Completed, Some(response))
  }

  // The call that ran the handler is about to mark it failed: the marking of its success
  // took effect, but ended with an error.
  predicate OwnerFailing(s: State, key: string) {
    key in s.owners && s.owners[key] in s.calls && s.calls[s.owners[key]].phase.Failing?
  }

  // The success of a completed record has been marked.
  predicate MarkedOnce(s: State, key: string) {
    key in s.records && s.records[key].status == Completed ==>
      && s.records[key].response.Some?
      && key in s.owners && s.owners[key] in s.calls && !s.calls[s.owners[key]].phase.Handled?
  }

  lemma MarkedOnceStays(s: State, a: Action, key: string)
    requires Inv(s) && MarkedOnce(s, key)
    ensures MarkedOnce(Next(s, a), key)
  {
    assert KeyOk(s, key);
    if !a.Begin? && a.c in s.calls {
      assert CallOk(s, a.c);
    }
  }

  lemma {:induction false} MarkedOnceReachable(schedule: seq<Action>, key: string)
    ensures MarkedOnce(Exec(schedule), key)
    decreases |schedule|
  {
    if schedule != [] {
      Reachable(schedule[..|schedule|-1]);
      MarkedOnceReachable(schedule[..|schedule|-1], key);
      MarkedOnceStays(Exec(schedule[..|schedule|-1]), schedule[|schedule|-1], key);
    }
  }

  lemma AnswerStays(s: State, a: Action, key: string, request: Request, response: string)
    requires Inv(s) && MarkedOnce(s, key) && Answers(s, key, request, response) && !OwnerFailing(s, key)
    ensures Answers(Next(s, a), key, request, response) && !OwnerFailing(Next(s, a), key)
  {
    assert KeyOk(s, key);
    if !a.Begin? && a.c in s.calls {
      assert CallOk(s, a.c);
      NobodyRuns(s, a.c, key, request, response);
    }
  }

  lemma NobodyRuns(s: State, c: nat, key: string, request: Request, response: string)
    requires Inv(s) && Answers(s, key, request, response) && c in s.calls
    ensures !(s.calls[c].phase.Running? && s.calls[c].key == key)
  {
    assert KeyOk(s, key) && CallOk(s, c);
  }

  lemma {:induction false} AnswersOn(schedule: seq<Action>, more: seq<Action>, key: string, request: Request,
      response: string)
    requires Answers(Exec(schedule), key, request, response) && !OwnerFailing(Exec(schedule), key)
    ensures Answers(Exec(schedule + more), key, request, response) && !OwnerFailing(Exec(schedule + more), key)
    decreases |more|
  {
    var all := schedule + more;
    if more == [] {
      assert all == schedule;
    } else {
      var n := |more| - 1;
      assert all[..|all|-1] == schedule + more[..n] && all[|all|-1] == more[n];
      AnswersOn(schedule, more[..n], key, request, response);
      Reachable(schedule + more[..n]);
      MarkedOnceReachable(schedule + more[..n], key);
      AnswerStays(Exec(schedule + more[..n]), more[n], key, request, response);
    }
  }

  // A completed record answers with its response in every continuation if and only if
  // the call that ran the handler is not about to mark it failed.
  lemma AnswersForGoodIff(schedule: seq<Action>, key: string, request: Request, response: string)
    requires Answers(Exec(schedule), key, request, response)
    ensures (forall more :: Answers(Exec(schedule + more), key, request, response))
            <==> !OwnerFailing(Exec(schedule), key)
  {
    var s := Exec(schedule);
    if OwnerFailing(s, key) {
      var more := [Fail(s.owners[key], Done)];
      assert (schedule + more)[..|schedule|] == schedule;
      Reachable(schedule);
      assert KeyOk(s, key);
      assert !Answers(Exec(schedule + more), key, request, response);
    } else {
      forall more ensures Answers(Exec(schedule + more), key, request, response) {
        AnswersOn(schedule, more, key, request, response);
      }
    }
  }

  // What a new call gets from a record in any state, as soon as it has tried to reserve.
  lemma NewCall(schedule: seq<Action>, d: nat, key: string, request: Request)
    requires key != "" && d !in Exec(schedule).calls
    ensures var s, s' := Exec(schedule), Exec(schedule + [Begin(d, key, request)] + [Reserve(d)]);
            && d in s'.calls
            && (key !in s.records <==> s'.calls[d].phase == Running)
            && (forall response ::
                  s'.calls[d].phase == Returned(response) <==> Answers(s, key, request, response))
            && (key in s.records && !(exists response :: Answers(s, key, request, response)) ==>
                  s'.calls[d].phase == Thrown)
  {
    var begun := schedule + [Begin(d, key, request)];
    assert begun[..|begun|-1] == schedule;
    assert (begun + [Reserve(d)])[..|begun|] == begun;
    var s := Exec(schedule);
    if key in s.records && s.records[key].response.Some? {
      assert s.records[key] == Record(request, Completed, s.records[key].response) ==>
          Answers(s, key, request, s.records[key].response.value);
    }
  }

  // The handler of call 0 has succeeded and its record is completed, but the marking
  // ended with an error.
  function HalfMarked(key: string, request: Request, response: string): seq<Action> {
    [] + [Begin(0, key, request)] + [Reserve(0)] + [Handle(0, Some(response))] + [Complete(0, LostAfter)]
  }

  lemma HalfMarkedState(key: string, request: Request, response: string)
    requires key != ""
    ensures Exec(HalfMarked(key, request, response)) ==
              State(map[key := Record(request, Completed, Some(response))], map[0 := Call(key, request, Failing)],
                    map[key := 0], [HandlerRun(key, 0, Some(response))])
  {
    var h1 := [] + [Begin(0, key, request)];
    ExecMore([], Begin(0, key, request));
    ExecMore(h1, Reserve(0));
    ExecMore(h1 + [Reserve(0)], Handle(0, Some(response)));
    ExecMore(h1 + [Reserve(0)] + [Handle(0, Some(response))], Complete(0, LostAfter));
  }

  // A response that has been returned can be taken back: marking the success takes effect
  // and ends with an error, another call is answered, the record is marked failed, and
  // the next call of the same request is refused.
  lemma AnswerTakenBack(key: string, request: Request, response: string)
    requires key != ""
    ensures var answered := HalfMarked(key, request, response) + [Begin(1, key, request)] + [Reserve(1)];
            var s, s' := Exec(answered), Exec(answered + [Fail(0, Done)] + [Begin(2, key, request)] + [Reserve(2)]);
            && 1 in s.calls && s.calls[1].phase == Returned(response)
            && 2 in s'.calls && s'.calls[2].phase == Thrown
  {
    var marked := HalfMarked(key, request, response);
    HalfMarkedState(key, request, response);
    NewCall(marked, 1, key, request);
    assert Answers(Exec(marked), key, request, response);
    ExecMore(marked, Begin(1, key, request));
    ExecMore(marked + [Begin(1, key, request)], Reserve(1));
    var answered := marked + [Begin(1, key, request)] + [Reserve(1)];
    ExecMore(answered, Fail(0, Done));
    NewCall(answered + [Fail(0, Done)], 2, key, request);
  }

  lemma ExecMore(schedule: seq<Action>, a: Action)
    ensures Exec(schedule + [a]) == Next(Exec(schedule), a)
  {
    assert (schedule + [a])[..|schedule|] == schedule;
  }
}
