// The messages of the errors and isTerminalDomainError, which searches them for four
// phrases. A message quotes ids that clients choose, so a transfer id can make an
// error of the registry look like a rejection by the domain.
module SagaTexts {
  import opened Wrappers
  import opened Saga
  import opened SagaInvariant
  import A = Accounts
  import T = Transfers
  import R = Registry

  const FUNDS := "Insufficient funds"
  const INACTIVE := "Account is not active"
  const CURRENCY := "Currency mismatch"
  const MISSING := "not found"

  const PHRASES: set<string> := {FUNDS, INACTIVE, CURRENCY, MISSING}

  // p stands in s at position i.
  predicate StandsAt(s: string, p: string, i: nat) { i + |p| <= |s| && s[i..i+|p|] == p }

  ghost predicate Contains(s: string, p: string) { exists i: nat :: StandsAt(s, p, i) }

  ghost predicate IsTerminal(message: string) { exists p :: p in PHRASES && Contains(message, p) }

  // The caller's condition on an id or a text.
  ghost predicate NoPhrase(s: string) { forall p :: p in PHRASES ==> !Contains(s, p) }

  // The message of a rejection, up to the values it may quote at its end.
  function Rejection(why: A.Error): string {
    match why
    case AlreadyExists => "Account already exists"
    case NotActive => INACTIVE
    case CurrencyMismatch => CURRENCY
    case InvalidMoney => "Invalid money amount"
    case NotPositive => "amount must be positive"
    case InsufficientFunds => FUNDS
    case ReasonRequired => "Freeze reason is required"
    case AlreadyFrozen => "Account already frozen"
  }

  function Refused(refusal: R.Refusal): string {
    match refusal
    case UnreadableAmount => ""
    case OtherMovement => " has already been used" + " for a different money movement"
    case AlreadyInProgress => " is already in progress"
    case PreviouslyFailed => " previously failed." + " Retry with a new transactionId."
  }

  function StatusText(status: Option<T.Status>): string {
    match status
    case None => "UNKNOWN"
    case Some(Initiated) => "INITIATED"
    case Some(DebitInProgress) => "DEBIT_IN_PROGRESS"
    case Some(Debited) => "DEBITED"
    case Some(CreditInProgress) => "CREDIT_IN_PROGRESS"
    case Some(Completed) => "COMPLETED"
    case Some(Failed) => "FAILED"
    case Some(CompensationInProgress) => "COMPENSATION_IN_PROGRESS"
    case Some(Compensated) => "COMPENSATED"
  }

  function Closing(leg: Leg): string {
    match leg
    case Debit => "Cannot mark transfer" + " debited"
    case Credit => "Cannot complete transfer"
    case Compensation => "Cannot mark transfer" + " compensated"
  }

  const CONFLICT := "Concurrent modification" + " detected for "
  const EXHAUSTED := ". All 3 write" + " attempts failed."

  // The message of each error.
  function Text(f: Failure): string {
    match f
    case Rejected(why) => Rejection(why)
    case AccountConflict(account) => CONFLICT + "account " + account + EXHAUSTED
    case TransferConflict(t) => CONFLICT + "transfer " + t + EXHAUSTED
    case WrongStatus(leg, status) => Closing(leg) + " from status " + StatusText(status)
    case Taken(tx, refusal) =>
      if refusal.UnreadableAmount? then Rejection(A.InvalidMoney) else "Transaction " + tx + Refused(refusal)
    case Infrastructure(text) => text
    case Retryable => ""
  }

  // The configuration has the messages and the search of the code.
  ghost predicate AsCoded(cfg: Config) {
    && (forall f :: cfg.text(f) == Text(f))
    && (forall message :: cfg.terminal(message) <==> IsTerminal(message))
  }

  // ---- Phrases and pairs of characters ----

  // The two characters never stand side by side in s.
  predicate Apart(s: string, a: char, b: char) { forall i :: 0 <= i < |s| - 1 ==> s[i] == a ==> s[i+1] != b }

  lemma ApartJoined(x: string, y: string, a: char, b: char)
    requires Apart(x, a, b) && Apart(y, a, b)
    requires x == "" || y == "" || x[|x|-1] != a || y[0] != b
    ensures Apart(x + y, a, b)
  {
  }

  // Where p stands, its pairs stand.
  lemma StandsByPairs(s: string, p: string, k: nat)
    requires k + 1 < |p|
    ensures forall i: nat :: StandsAt(s, p, i) ==> i + k + 1 < |s| && s[i+k] == p[k] && s[i+k+1] == p[k+1]
  {
    forall i: nat | StandsAt(s, p, i) ensures i + k + 1 < |s| && s[i+k] == p[k] && s[i+k+1] == p[k+1] {
      assert s[i..i+|p|][k] == s[i+k] && s[i..i+|p|][k+1] == s[i+k+1];
    }
  }

  lemma NotContained(s: string, p: string, k: nat)
    requires k + 1 < |p| && Apart(s, p[k], p[k+1])
    ensures !Contains(s, p)
  {
    StandsByPairs(s, p, k);
  }

  // No phrase can begin inside s.
  predicate Clean(s: string) {
    Apart(s, 'I', 'n') && Apart(s, 'A', 'c') && Apart(s, 'C', 'u') && Apart(s, 'n', 'o')
  }

  lemma CleanJoined(x: string, y: string)
    requires Clean(x) && Clean(y) && (y != "" ==> y[0] !in "ncuo")
    ensures Clean(x + y)
  {
    ApartJoined(x, y, 'I', 'n');
    ApartJoined(x, y, 'A', 'c');
    ApartJoined(x, y, 'C', 'u');
    ApartJoined(x, y, 'n', 'o');
  }

  lemma PhraseHead(p: string)
    requires p in PHRASES
    ensures |p| > 2 && p[0] in "IACn" && ':' !in p && '.' !in p
    ensures forall s :: Clean(s) ==> Apart(s, p[0], p[1])
  {
  }

  lemma CleanHasNone(s: string)
    requires Clean(s)
    ensures NoPhrase(s) && !IsTerminal(s)
  {
    forall p | p in PHRASES ensures !Contains(s, p) {
      PhraseHead(p);
      NotContained(s, p, 0);
    }
  }

  lemma StandsInFront(front: string, rest: string, p: string, i: nat)
    requires StandsAt(front + rest, p, i) && i < |front| && |p| >= 2
    ensures front[i] == p[0] && (i + 1 < |front| ==> front[i+1] == p[1])
  {
    assert (front + rest)[i..i+|p|][0] == front[i];
    assert i + 1 < |front| ==> (front + rest)[i..i+|p|][1] == front[i+1];
  }

  lemma StandsBehind(front: string, rest: string, p: string, i: nat)
    requires StandsAt(front + rest, p, i) && |front| <= i && |p| >= 2
    ensures rest[i-|front|] == p[0] && rest[i-|front|+1] == p[1]
  {
    assert (front + rest)[i..i+|p|][0] == rest[i-|front|];
    assert (front + rest)[i..i+|p|][1] == rest[i-|front|+1];
  }

  lemma StandsAcross(front: string, rest: string, p: string, i: nat)
    requires StandsAt(front + rest, p, i) && i < |front| < i + |p| && rest != ""
    ensures rest[0] in p
  {
    assert (front + rest)[i..i+|p|][|front|-i] == rest[0];
  }

  // A text around an id contains a phrase exactly when the id does.
  lemma Framed(before: string, id: string, after: string, p: string)
    requires p in PHRASES && Clean(before) && before != "" && before[|before|-1] == ' '
    requires Clean(after) && after != "" && (after[0] == ':' || after[0] == '.')
    ensures Contains(before + id + after, p) <==> Contains(id, p)
  {
    var s := before + id + after;
    PhraseHead(p);
    if i: nat :| StandsAt(id, p, i) {
      assert s[|before|+i..|before|+i+|p|] == p;
      assert StandsAt(s, p, |before| + i);
    }
    if i: nat :| StandsAt(s, p, i) {
      assert s == before + (id + after);
      if i < |before| {
        StandsInFront(before, id + after, p, i);
        assert false;
      } else if |before| + |id| <= i {
        StandsBehind(before + id, after, p, i);
        assert false;
      } else if |before| + |id| < i + |p| {
        StandsAcross(before + id, after, p, i);
        assert false;
      } else {
        assert id[i-|before|..i-|before|+|p|] == s[i..i+|p|];
        assert StandsAt(id, p, i - |before|);
      }
    }
  }

  lemma FramedTerminal(before: string, id: string, after: string)
    requires Clean(before) && before != "" && before[|before|-1] == ' '
    requires Clean(after) && after != "" && (after[0] == ':' || after[0] == '.')
    ensures IsTerminal(before + id + after) <==> !NoPhrase(id)
  {
    forall p | p in PHRASES ensures Contains(before + id + after, p) <==> Contains(id, p) {
      Framed(before, id, after, p);
    }
  }

  // ---- The literals ----

  lemma CleanTransaction()
    ensures Clean("Transaction ")
  {
  }

  lemma CleanProgress()
    ensures Clean(" is already in progress")
  {
  }

  lemma CleanMovement()
    ensures Clean(" has already been used" + " for a different money movement")
  {
    assert Clean(" has already been used");
    assert Clean(" for a different money movement");
    CleanJoined(" has already been used", " for a different money movement");
  }

  lemma CleanFailed()
    ensures Clean(" previously failed." + " Retry with a new transactionId.")
  {
    assert Clean(" previously failed.");
    assert Clean(" Retry with a new transactionId.");
    CleanJoined(" previously failed.", " Retry with a new transactionId.");
  }

  lemma CleanSuffix(leg: Leg)
    ensures Clean(Suffix(leg)) && Suffix(leg)[0] == ':'
  {
  }

  lemma CleanConflict()
    ensures Clean(CONFLICT + "transfer ")
  {
    CleanConcurrent();
    CleanDetected();
    CleanJoined("Concurrent modification", " detected for ");
    CleanJoined(CONFLICT, "transfer ");
  }

  lemma CleanConcurrent()
    ensures Clean("Concurrent modification")
  {
  }

  lemma CleanDetected()
    ensures Clean(" detected for ") && Clean("transfer ")
  {
  }

  lemma CleanExhausted()
    ensures Clean(EXHAUSTED)
  {
    assert Clean(". All 3 write");
    assert Clean(" attempts failed.");
    CleanJoined(". All 3 write", " attempts failed.");
  }

  lemma CleanRefused(leg: Leg, refusal: R.Refusal)
    requires !refusal.UnreadableAmount?
    ensures Clean(Suffix(leg) + Refused(refusal))
  {
    CleanSuffix(leg);
    CleanProgress();
    CleanMovement();
    CleanFailed();
    CleanJoined(Suffix(leg), Refused(refusal));
  }

  // "un" stands in "not found" and in none of these; the other phrases begin with a
  // pair that does not occur in them.
  predicate Plain(s: string) { Apart(s, 'I', 'n') && Apart(s, 'A', 'c') && Apart(s, 'C', 'u') && Apart(s, 'u', 'n') }

  lemma PlainHasNone(s: string)
    requires Plain(s)
    ensures !IsTerminal(s)
  {
    forall p | p in PHRASES ensures !Contains(s, p) {
      NotContained(s, p, if p == MISSING then 6 else 0);
    }
  }

  lemma PlainJoined(x: string, y: string)
    requires Plain(x) && Plain(y) && (y != "" ==> y[0] !in "ncu")
    ensures Plain(x + y)
  {
    ApartJoined(x, y, 'I', 'n');
    ApartJoined(x, y, 'A', 'c');
    ApartJoined(x, y, 'C', 'u');
    ApartJoined(x, y, 'u', 'n');
  }

  lemma PlainMark()
    ensures Plain("Cannot mark transfer")
  {
  }

  lemma PlainDebit()
    ensures Plain("Cannot mark transfer" + " debited")
  {
    PlainMark();
    assert Plain(" debited");
    PlainJoined("Cannot mark transfer", " debited");
  }

  lemma PlainCredit()
    ensures Plain("Cannot complete transfer")
  {
  }

  lemma PlainFrom()
    ensures Plain(" from status ")
  {
  }

  lemma PlainCompensation()
    ensures Plain("Cannot mark transfer" + " compensated")
  {
    PlainMark();
    assert Plain(" compensated");
    PlainJoined("Cannot mark transfer", " compensated");
  }

  // A status is printed without lower-case letters.
  lemma PlainStatus(status: Option<T.Status>)
    ensures Plain(StatusText(status)) && StatusText(status)[0] !in "ncu"
  {
    StatusIsUpperCase(status);
  }

  lemma StatusIsUpperCase(status: Option<T.Status>)
    ensures StatusText(status) != "" && forall i :: 0 <= i < |StatusText(status)| ==> StatusText(status)[i] < 'a'
  {
  }

  lemma WrongStatusIsPlain(leg: Leg, status: Option<T.Status>)
    ensures !IsTerminal(Text(WrongStatus(leg, status)))
  {
    PlainDebit();
    PlainCredit();
    PlainFrom();
    PlainCompensation();
    PlainStatus(status);
    PlainJoined(Closing(leg), " from status ");
    PlainJoined(Closing(leg) + " from status ", StatusText(status));
    PlainHasNone(Text(WrongStatus(leg, status)));
  }

  // ---- Which errors look terminal ----

  lemma Regrouped(a: string, b: string, c: string, d: string)
    ensures a + (b + c) + d == a + b + (c + d)
  {
  }

  // An error of the registry about a leg, when the transfer id contains a phrase.
  lemma TakenTerminal(t: string, leg: Leg, refusal: R.Refusal)
    ensures IsTerminal(Text(Taken(LegId(t, leg), refusal))) <==> (!refusal.UnreadableAmount? && !NoPhrase(t))
  {
    if refusal.UnreadableAmount? {
      InvalidMoneyIsPlain();
    } else {
      CleanTransaction();
      CleanRefused(leg, refusal);
      FramedTerminal("Transaction ", t, Suffix(leg) + Refused(refusal));
      Regrouped("Transaction ", t, Suffix(leg), Refused(refusal));
    }
  }

  lemma ConflictTerminal(t: string)
    ensures IsTerminal(Text(TransferConflict(t))) <==> !NoPhrase(t)
  {
    CleanConflict();
    CleanExhausted();
    FramedTerminal(CONFLICT + "transfer ", t, EXHAUSTED);
  }

  lemma InvalidMoneyIsPlain()
    ensures !IsTerminal(Rejection(A.InvalidMoney))
  {
    var s := "Invalid money amount";
    forall p | p in PHRASES ensures !Contains(s, p) {
      NotContained(s, p, if p == FUNDS then 3 else 0);
    }
  }

  // Every phrase begins with "In" or "Cu" or contains "no".
  predicate Dull(s: string) { Apart(s, 'I', 'n') && Apart(s, 'n', 'o') && Apart(s, 'C', 'u') }

  lemma DullHasNone(s: string)
    requires Dull(s)
    ensures !IsTerminal(s)
  {
    forall p | p in PHRASES ensures !Contains(s, p) {
      NotContained(s, p, if p == INACTIVE then 11 else 0);
    }
  }

  lemma DullExists()
    ensures Dull("Account already exists")
  {
  }

  lemma DullPositive()
    ensures Dull("amount must be positive")
  {
  }

  lemma DullReason()
    ensures Dull("Freeze reason is required")
  {
  }

  lemma DullFrozen()
    ensures Dull("Account already frozen")
  {
  }

  lemma OtherRejectionsArePlain(why: A.Error)
    requires why.AlreadyExists? || why.NotPositive? || why.ReasonRequired? || why.AlreadyFrozen?
    ensures !IsTerminal(Rejection(why))
  {
    DullExists();
    DullPositive();
    DullReason();
    DullFrozen();
    DullHasNone(Rejection(why));
  }

  // The search finds exactly the three rejections it was written for.
  lemma RejectionTerminal(why: A.Error)
    ensures IsTerminal(Rejection(why)) <==> why.InsufficientFunds? || why.NotActive? || why.CurrencyMismatch?
  {
    match why
    case InvalidMoney => InvalidMoneyIsPlain();
    case NotActive => assert StandsAt(INACTIVE, INACTIVE, 0);
    case CurrencyMismatch => assert StandsAt(CURRENCY, CURRENCY, 0);
    case InsufficientFunds => assert StandsAt(FUNDS, FUNDS, 0);
    case _ => OtherRejectionsArePlain(why);
  }

  // The errors that quote a transfer's id look terminal exactly when the id contains
  // one of the four phrases.
  lemma TameIff(cfg: Config, t: string)
    requires AsCoded(cfg)
    ensures Tame(cfg, t) <==> NoPhrase(t)
  {
    forall leg, why ensures cfg.Terminal(Taken(LegId(t, leg), why)) <==> (!why.UnreadableAmount? && !NoPhrase(t)) {
      TakenTerminal(t, leg, why);
    }
    ConflictTerminal(t);
    forall leg, status ensures !cfg.Terminal(WrongStatus(leg, status)) { WrongStatusIsPlain(leg, status); }
  }

  // The infrastructure's errors contain none of the four phrases.
  ghost predicate PlainErrors(schedule: seq<Action>) {
    forall a :: a in schedule && a.Step? && !a.o.Done? ==> NoPhrase(a.o.text)
  }

  lemma PlainErrorsAreCalm(cfg: Config, schedule: seq<Action>)
    requires AsCoded(cfg)
    ensures Calm(cfg, schedule) <==> PlainErrors(schedule)
  {
    forall a | a in schedule && a.Step? && !a.o.Done?
      ensures cfg.Terminal(Infrastructure(a.o.text)) <==> !NoPhrase(a.o.text)
    {
    }
    if PlainErrors(schedule) {
      forall a | a in schedule ensures CalmAction(cfg, a) {}
    }
    if Calm(cfg, schedule) {
      forall a | a in schedule && a.Step? && !a.o.Done? ensures NoPhrase(a.o.text) { assert CalmAction(cfg, a); }
    }
  }

  // An error that looks terminal says something.
  lemma TerminalHasText(cfg: Config, f: Failure)
    requires AsCoded(cfg) && cfg.Terminal(f)
    ensures cfg.text(f) != ""
  {
    var p :| p in PHRASES && Contains(cfg.text(f), p);
  }
}
