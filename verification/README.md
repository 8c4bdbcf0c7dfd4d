# Verification of the account and transfer service

A Dafny model of the service's event-sourced money movements: what the code does
at each step, and proofs that money is never moved twice, lost or misreported. Check
it with `dafny verify dfyconfig.toml`.

## What is modelled

**Money and aggregates.** `Money` is the parser and printer of money text, character
by character. `Accounts` and `Transfers` hold the events, the guards of every command
(in the order in which they run) and the state that replaying a stream gives;
`AccountAggregates` and `TransferAggregates` are the mutable aggregates, proved to do
exactly that.

**The transfer saga.** `Saga` is a transition system. Any number of workers -
transfer coordinators and API requests - share the transfer streams, the account
streams and the transaction registry. A step is what one worker does between two
awaits; steps interleave freely, any awaited call can fail with any text before or
after it took effect, and a worker can die anywhere. `SagaTexts` has the messages of
the errors and the search for four phrases that decides whether an error fails a
transfer.

What every step keeps comes in three layers. `SagaBase` assumes nothing: clients may
submit any ids, and errors may carry any texts. `SagaLegs` follows one transfer whose
leg ids no client uses. `SagaInvariant` ties its status to the money events, when
also no error about it looks like a rejection. `SagaTheorems`, `Conservation` and
`SagaFailures` are what follows for every run, `SagaPasses` is what one undisturbed
coordinator does, end to end, `SagaClients` is what each request of a client does,
`SagaErrors` says exactly which errors fail a transfer, `SagaBlocked` and `SagaEndings`
which legs can still come to an end, and `SagaRuns` and `SharedIdRun` have concrete runs that
show each assumption to be needed. `Registry` is the transaction registry on its own.

**The event store under concurrency.** `AccountRepositories` is the repository class:
load from snapshot and tail, save with the snapshot boundaries, retry on conflict.
`AccountStore` is one stream written by any number of calls whose snapshot read, tail
read, append and snapshot save interleave, over the in-memory snapshot store or the
one of Postgres; `SnapshotRuns` has a run of the former without the account's lock.
`AccountLocks` is the promise-chain mutex and `LockedAccountStore` the two together.
`EventStores`, `Outboxes` and
`OutboxPublishers` are the in-memory stores and the publishers that drain the outbox,
and `EventFlow` runs them together.

**Projections.** `AccountReadModel` and `AccountProjectors` are the version-guarded
read model and its projector; `ProjectorInterleaving` lets any number of projectors
work on one account in three separate steps, with redelivery, reordering, crashes
and resets. `TransferProjectors` is the timestamp-guarded transfer row, one event at a
time, and `TransferInterleaving` the same row with any number of projectors at once,
which read it and upsert it in two separate steps.
`ProjectionReplay` and `ProjectionRunners` are the paged replay of the global log and
the rebuild of one account.

**Once-only execution and coordination.** `Idempotency` is the idempotency service
under concurrent calls and crashes; `Coordination` is the shared/exclusive gate of
the projection tasks.

## Where the code falls short of what one would expect

Each of these is proved, with the exact condition where there is one.

- Whether an error fails a transfer is decided by searching its message for four
  phrases, and the messages of the registry quote the transfer id. A transfer whose
  id contains one, such as `not found`, can fail at the debit although its debit has
  moved, as soon as a second coordinator finds the debit in progress
  (`SagaRuns.PhraseBreaksAgreement`). An infrastructure error whose text contains one
  does the same to any transfer (`SagaRuns.ErrorTextBreaksAgreement`), and so does a
  client that uses the id of a leg as its own (`SagaRuns.LegIdBreaksAgreement`).
  These three are all: `SagaRuns.AgreementIff` proves that status and money agree for
  a transfer in all schedules if and only if none of them is possible.
- A registry record, and an idempotency record, can end up failed although its
  handler succeeded, because marking it completed is in the same `try`. It happens
  exactly when the acknowledgement of the append or the marking does not end well
  (`SagaFailures.FailedRecordMovedIff`, `Idempotency.FailedRecordRanIff`), and it is
  for good (`SagaFailures.FailedStaysFailed`, `Idempotency.FailedIsFinal`).
  What does hold is that a rejection by the account has had no effect
  (`SagaTheorems.RejectionMeansNoEffect`).
- docs/spec/spec-004.md:100-102 promises that a transient failure does not block a leg
  for good, and line 150 that a leg whose process died can be retried. Neither holds
  in general. One failed read of the account is enough to leave a debit in progress in
  every continuation although nothing has moved (`SagaRuns.LostReadRun`), one failed
  marking does it after the money has moved (`SagaRuns.StrandedRun`), and so does a
  crash before or after the movement, which leaves the record pending
  (`SagaRuns.CrashRun`, `SagaBlocked.CrashBlocks`). A leg whose record nobody completes any more is blocked
  in every continuation if and only if no worker is past the registry with an end of
  the leg that it can still write (`SagaBlocked.BlockedForGoodIff`).
- Any leg in progress of a transfer for which nothing in the first item is possible
  stays in progress in every such continuation if and only if no worker can still come
  to an end of it and a new visit would be refused, by the registry or, for a reversal,
  by the source account (`SagaEndings.StaysInProgressIff`). So a reversal whose source
  account is frozen before the money is given back is never compensated
  (`SagaEndings.RefusedForGood`).
- A client may use the id of a leg as its own. One that withdraws under the id of a
  later transfer's debit makes the transfer take that withdrawal for its own: it
  completes, its destination is credited and its source has paid nothing for it
  (`SharedIdRun.LegIdCreatesMoney`).
- The service's README.md:463 promises that a retry of a request returns the original
  success response. A response that has been returned can be taken back: marking a success can
  take effect and still end with an error, and the record is then marked failed
  (`Idempotency.AnswerTakenBack`). A completed record answers for good if and only if
  its own call is not about to do that (`Idempotency.AnswersForGoodIff`).
- The registry is given minor units as if they were major units, so a leg's record
  holds a hundred times the amount that moves (`SagaLegs.RecordsDescribeLegs`,
  `Money.ParsePlainNumber`).
- `freeze` does not ask whether the account exists; a stream may begin with
  `AccountFrozen` and be created and active afterwards (`Accounts.FrozenIsFinal`).
- A projector that dies between the summary and the statement, with nobody else
  bound to the same event, loses the statement entry
  (`ProjectorInterleaving.CrashLosesEntry`), and so does a reset while a projector is
  about to upsert a later version (`ProjectorInterleaving.ResetLosesEntry`). No
  redelivery brings the entry back. `ProjectorInterleaving.HarmlessIff` says exactly
  which crashes and resets lose nothing.
- Two projectors of one transfer whose reads overlap can lose a field of its row
  (`TransferInterleaving.OverlapLosesField`). What a step must meet is exactly that it
  reads either a row that differs from the one before the event at most in what the
  event writes, or one newer than the event, and that a reset finds only the
  aggregate's own rows about to be upserted (`TransferInterleaving.SoundIff`,
  `AlwaysSoundIff`, `SoundMeans`). With increasing times it is enough that deliveries
  and resets wait until no projector is at work, and that no event is delivered before
  the row has reached the one before it (`TransferInterleaving.InTurnShowsTheFold`).
- Transfer rows follow the aggregate exactly when `occurredAt` never decreases along
  the stream (`TransferProjectors.InOrderIffNonDecreasing`); a replay can show older
  states on the way when times are equal (`TransferProjectors.EqualTimesRegress`).
- A replay of the log stops with an error exactly when some account stream does not
  begin with `AccountCreated` (`ProjectionRunners.ReplaySucceedsIff`).
- A shared projection task can overlap with an exclusive one, because the test and
  the flag are separated by a turn of the event loop; it can happen exactly when a
  shared task has passed its test and not finished when the exclusive one passes its
  own (`Coordination.OverlapIff`).

## Model

| member | source | states |
|---|---|---|
| Money.ParseText | src/common/money/money.ts:4-12 | a sign, digits and at most two digits of fraction are read as 100 times the whole part plus the hundredths, with the sign |
| Money.ParseAccepts | src/common/money/money.ts:31-38 | a text is accepted if and only if, up to surrounding space, it is a sign, digits and at most two digits of fraction |
| Money.ParseFormat | src/common/money/money.ts:14-21 | every integer number of minor units, of any size and sign, is read back from its printed text |
| Money.CanonicalIsPrinted | src/common/money/money.ts:14-21 | the printed texts are exactly the canonical ones (no leading zero, two digits of fraction, no negative zero), and a canonical text is printed again as it was |
| Money.FormatParse | src/common/money/money.ts:4-21 | printing what was read gives a canonical text with the same value |
| Money.ParsePlainNumber | src/common/money/money.ts:4-12 | the text of a whole number is read as a hundred times that number, which is what the coordinator registers for a leg |
| Accounts.AcceptedAt | src/modules/accounts/domain/account.aggregate.ts:25-82 | every event of a history built by accepted commands was raised by a command on exactly the fold of the events before it |
| Accounts.BalanceIsNet | src/modules/accounts/domain/account.aggregate.ts:105-127 | the replayed balance of any stream is its deposits less its withdrawals |
| Accounts.LedgerNeverOverdrawn | src/modules/accounts/domain/account.aggregate.ts:39-70 | at every prefix of an accepted history the balance is deposits less withdrawals and not negative, every amount is positive, and no withdrawal exceeds the balance before it |
| Accounts.IdentityIsFixed | src/modules/accounts/domain/account.aggregate.ts:25-37 | identity, owner and currency never change once set |
| Accounts.MoneyInOwnCurrency | src/modules/accounts/domain/account.aggregate.ts:133-137 | money moves only in the account's own currency |
| Accounts.FrozenIsFinal | src/modules/accounts/domain/account.aggregate.ts:72-82 | a frozen account accepts nothing more if and only if it had been created; otherwise creating it makes it active |
| Accounts.FreezeBeforeCreate | src/modules/accounts/domain/account.aggregate.ts:72-82 | a stream may begin with AccountFrozen and then be created |
| Accounts.ReplaySplit | src/common/domain/aggregate-root.ts:27-29 | replaying a prefix and then the rest is replaying everything |
| Accounts.StreamSays | src/modules/accounts/domain/account.aggregate.ts:105-127 | identity, owner and currency are those of the stream's last AccountCreated, and the account is frozen if and only if an AccountFrozen has none after it |
| Accounts.OpenedIff | src/modules/accounts/domain/account.aggregate.ts:25-37 | an account of an accepted history exists in a currency if and only if the history holds its AccountCreated in that currency |
| Accounts.RefusedIff | src/modules/accounts/domain/account.aggregate.ts:25-82 | each command is refused for each reason exactly when the events before it give that reason and none tested earlier, and otherwise raises its own event with its own amount, currency and id |
| AccountAggregates.AccountAggregate.LoadFromHistory | src/common/domain/aggregate-root.ts:27-29 | loading a history gives the replay of its events and raises nothing |
| AccountAggregates.AccountAggregate.When | src/modules/accounts/domain/account.aggregate.ts:105-127 | one event takes every field to the next state and adopts the event's version |
| AccountAggregates.AccountAggregate.Create | src/modules/accounts/domain/account.aggregate.ts:25-37 | an account that exists refuses with AlreadyExists and changes nothing; otherwise exactly one AccountCreated is raised and applied |
| AccountAggregates.AccountAggregate.Deposit | src/modules/accounts/domain/account.aggregate.ts:39-53 | refuses, in this order, a frozen account, another currency, an unreadable amount and a non-positive one, changing nothing; otherwise raises and applies exactly one MoneyDeposited |
| AccountAggregates.AccountAggregate.Withdraw | src/modules/accounts/domain/account.aggregate.ts:55-70 | as for deposits, and refuses last an amount above the balance; otherwise raises and applies exactly one MoneyWithdrawn |
| AccountAggregates.AccountAggregate.Freeze | src/modules/accounts/domain/account.aggregate.ts:72-82 | refuses an empty reason and then a frozen account, changing nothing; otherwise raises and applies exactly one AccountFrozen |
| AccountAggregates.AccountAggregate.GetSnapshotState | src/modules/accounts/domain/account.aggregate.ts:85-93 | restoring what it returns at the same version gives the current state back |
| AccountAggregates.AccountAggregate.RestoreSnapshot | src/modules/accounts/domain/account.aggregate.ts:95-102 | the state afterwards is the restored one, whatever it was before |
| AccountAggregates.AccountAggregate.PullUncommittedEvents | src/common/domain/aggregate-root.ts:31-38 | hands over the raised events in order and keeps none |
| Transfers.AcceptedFollowsLifecycle | src/modules/transfers/domain/transfer.aggregate.ts:29-244 | every accepted transfer stream is Initiated, debit starts, then failed or debited, credit starts, then completed or failed, and compensation only after a failure at the credit stage; the counters number the starts |
| Transfers.LifecycleIsAccepted | src/modules/transfers/domain/transfer.aggregate.ts:29-190 | conversely every stream of that form is one the commands can produce, and replaying it reports its status and counts |
| Transfers.TerminalStates | src/modules/transfers/domain/transfer.aggregate.ts:29-190 | a stream accepts nothing more if and only if it is completed, compensated or failed at the debit stage |
| Transfers.StreamSaysOfLeg | src/modules/transfers/domain/transfer.aggregate.ts:192-244 | each leg has the transaction id and the attempt number of its last start, whatever became of it |
| Transfers.RefusedIff | src/modules/transfers/domain/transfer.aggregate.ts:29-190 | each command is refused for each reason exactly when it applies, and otherwise raises its own event: an initiation of its own accounts and amount, a start with the next attempt number, a mark with the id of the leg's last start |
| TransferAggregates.TransferAggregate.When | src/modules/transfers/domain/transfer.aggregate.ts:192-244 | one event takes every field to the next state |
| TransferAggregates.TransferAggregate.Initiate | src/modules/transfers/domain/transfer.aggregate.ts:29-62 | refuses, in this order, an existing transfer, equal accounts, an unreadable amount and a non-positive one, changing nothing; otherwise raises and applies exactly one TransferInitiated |
| TransferAggregates.TransferAggregate.StartDebit | src/modules/transfers/domain/transfer.aggregate.ts:64-80 | only from Initiated or DebitInProgress; raises and applies the start with the next debit attempt number, and changes nothing otherwise |
| TransferAggregates.TransferAggregate.MarkDebited | src/modules/transfers/domain/transfer.aggregate.ts:82-97 | only from DebitInProgress; raises and applies TransferDebited with the debit transaction id, and changes nothing otherwise |
| TransferAggregates.TransferAggregate.StartCredit | src/modules/transfers/domain/transfer.aggregate.ts:99-115 | only from Debited or CreditInProgress; raises and applies the start with the next credit attempt number, and changes nothing otherwise |
| TransferAggregates.TransferAggregate.Complete | src/modules/transfers/domain/transfer.aggregate.ts:117-131 | only from CreditInProgress; raises and applies TransferCompleted, and changes nothing otherwise |
| TransferAggregates.TransferAggregate.Fail | src/modules/transfers/domain/transfer.aggregate.ts:133-152 | from either leg in progress, with any stage and a non-empty reason; raises and applies TransferFailed, and changes nothing otherwise |
| TransferAggregates.TransferAggregate.StartCompensation | src/modules/transfers/domain/transfer.aggregate.ts:154-173 | only from Failed or CompensationInProgress and only after a failure at the credit stage; raises and applies the start with the next attempt number, and changes nothing otherwise |
| TransferAggregates.TransferAggregate.MarkCompensated | src/modules/transfers/domain/transfer.aggregate.ts:175-190 | only from CompensationInProgress; raises and applies TransferCompensated with the compensation transaction id, and changes nothing otherwise |
| Registry.TransactionRecordRepository.Reserve | src/infrastructure/transactions/in-memory-transaction-record.repository.ts:13-36 | creates a pending record for a new id with a readable amount, returns the existing one otherwise |
| Registry.TransactionRecordRepository.SetStatus | src/infrastructure/transactions/in-memory-transaction-record.repository.ts:38-81 | changes the status of a known id and nothing else |
| Registry.Execute | src/infrastructure/transactions/transaction-registry.service.ts:17-75 | the handler runs exactly for a new id or a retryable failure of the same movement that may be retried; a call that does not run it changes no record; a run leaves a record of its own movement, completed exactly when the handler succeeded and could be marked, retryable exactly when the error that ended it is retryable, terminal otherwise; accepted means that it ran and was completed, or that the same movement is completed |
| Registry.RefusedIff | src/infrastructure/transactions/transaction-registry.service.ts:27-63 | a call is refused exactly for an unreadable amount, another movement under the id, a pending record, or a failed one that it may not retry |
| Registry.RecordIsFinal | src/infrastructure/transactions/transaction-registry.service.ts:30-63 | over any number of calls: a record that is not retryable stays as it is, no call of its id runs a handler, and one is accepted exactly when the record is completed and of its movement |
| Registry.TwoCalls | src/infrastructure/transactions/transaction-registry.service.ts:17-75 | after an error that is not retryable no later call of the id runs or is accepted, whatever it asks; after a retryable one the same movement runs again exactly if it asks to; after a success it is accepted without running |
| Saga.LegIdInjective | src/modules/transfers/application/services/transfer-coordinator.service.ts:92-107 | different legs or transfers have different transaction ids |
| SagaBase.Reachable | src/modules/transfers/application/services/transfer-coordinator.service.ts:119-311 | after every schedule, whatever ids clients submit and whatever errors say: every transaction id has at most one money event and none without a record, a completed record has moved, one worker at a time runs an id's handler, transfer states are well formed, and every worker may rely on what it holds |
| SagaLegs.RecordsDescribeLegs | src/modules/transfers/application/services/transfer-coordinator.service.ts:127-135 | after every schedule in which no client uses the leg's id, a record of the leg holds a hundred times the amount that moves, and the account, operation and currency of the leg |
| SagaInvariant.AgreementReachable | src/modules/transfers/application/services/transfer-coordinator.service.ts:119-311 | the invariant that ties a transfer's status and every worker's place to its legs' money events and records holds after every schedule that uses none of its leg ids and whose errors about it look like no rejection |
| SagaTexts.TameIff | src/modules/transfers/application/services/transfer-coordinator.service.ts:313-324 | the errors that quote a transfer's id or status look like a rejection if and only if the id contains one of the four phrases |
| SagaTexts.RejectionTerminal | src/modules/transfers/application/services/transfer-coordinator.service.ts:313-324 | of the account's rejections, insufficient funds, a frozen account and another currency are found, and no other |
| SagaTheorems.StatusAgreesWithMoney | src/modules/transfers/application/services/transfer-coordinator.service.ts:119-311 | after every schedule in which no client uses an id of the transfer's legs and neither its id nor an infrastructure error contains one of the four phrases, its status says how many money events each of the three legs has: none when failed at debit, the debit alone when failed at credit, debit and credit when completed, debit and compensation when compensated |
| SagaTheorems.AtMostOneEvent | src/infrastructure/transactions/transaction-registry.service.ts:25-74 | over all account streams and all schedules, with any client ids and any errors, two money events with the same transaction id are the same event |
| SagaTheorems.RejectionMeansNoEffect | src/infrastructure/transactions/transaction-registry.service.ts:69-73 | after every schedule, a handler that the account rejected or whose writes all conflicted has moved nothing when it is marked; no record is ever retryable and no leg reopened; a completed record has moved exactly once |
| SagaTheorems.StreamsFollowLifecycle | src/modules/transfers/domain/transfer.repository.ts:21-58 | every transfer stream of every run consists of accepted commands and follows the life cycle |
| SagaTheorems.RunGrows | src/modules/transfers/domain/transfer.repository.ts:50-58 | no schedule takes an event out of any stream |
| SagaTheorems.OutcomeIsFinal | src/modules/transfers/application/services/transfer-coordinator.service.ts:88-111 | under the assumptions of StatusAgreesWithMoney a settled transfer keeps its stream and none of its legs moves money again, whatever follows |
| SagaClients.TransfersHaveTheirAccounts | src/modules/transfers/application/handlers/transfer-command.handlers.ts:21-43 | after every schedule each transfer is of a positive amount, between two different accounts that both exist and both hold its currency |
| SagaClients.InitiateDoes | src/modules/transfers/application/handlers/transfer-command.handlers.ts:21-43 | after every schedule, initiating a transfer appends exactly the TransferInitiated of its own arguments if the id is not empty and unused, the accounts differ and were both created in the currency and the amount is positive; otherwise it does nothing |
| SagaClients.CreateDoes | src/modules/accounts/application/handlers/account-command.handlers.ts:8-17 | creating an account appends exactly its own AccountCreated if the account was never created, and does nothing otherwise |
| SagaClients.FreezeDoes | src/modules/accounts/application/handlers/account-command.handlers.ts:41-50 | freezing appends exactly its own AccountFrozen if the reason is not empty and the account is not frozen, and does nothing otherwise |
| SagaClients.RequestDoes | src/modules/accounts/accounts.controller.ts:55-121 | an undisturbed deposit or withdrawal with a new id moves exactly what was asked if the account is active, in the currency and, for a withdrawal, holds enough, and leaves a completed record; otherwise it moves nothing and leaves a failed one; with a known id it does nothing |
| SagaErrors.HandlerErrorIsMarked | src/infrastructure/transactions/transaction-registry.service.ts:65-74 | the handler's run ends with an error exactly when the account refuses, the third write conflicts, or an await fails, the marking of the success among them, and that error is the one marked |
| SagaErrors.ErrorFailsTransferIff | src/modules/transfers/application/services/transfer-coordinator.service.ts:119-324 | a worker comes to fail a transfer exactly when the try block of a debit or credit throws an error whose message looks like a rejection, with that message as the reason; after any other error it gives up the visit |
| SagaErrors.LostClosingFails | src/modules/transfers/application/services/transfer-coordinator.service.ts:145-176 | if the closing command of a leg in progress fails with an infrastructure error whose text contains a phrase, the transfer fails at that stage for that text, although no account changes |
| SagaErrors.EntryDoes | src/modules/transfers/application/services/transfer-coordinator.service.ts:119-144 | a visit records the start of its leg if the status allows it and otherwise goes to the registry at once, with the leg's id, account, operation, currency and a hundred times the amount |
| SagaErrors.FailedAwait | src/modules/transfers/application/services/transfer-coordinator.service.ts:73-185 | an await that fails before its effect changes nothing, one that fails after it leaves what its success would, and outside the try blocks a failed await ends the visit |
| SagaErrors.MarkDoes | src/infrastructure/transactions/in-memory-transaction-record.repository.ts:38-81 | the marks of a record change its status and nothing else: retryable exactly after a leg's retryable error, terminal after any other error |
| Conservation.BooksBalance | src/modules/transfers/application/services/transfer-coordinator.service.ts:119-311 | after every schedule in which no client submits a leg id, whatever errors say, in every currency: all balances plus each transfer's amount times its debits less its credits and reversals equal the external deposits less the external withdrawals |
| Conservation.MoneyIsConserved | src/modules/transfers/application/services/transfer-coordinator.service.ts:119-311 | if also no transfer id and no infrastructure error contains a phrase, that sum is the transfers debited but neither credited nor compensated |
| SagaFailures.FailedRecordMovedIff | src/infrastructure/transactions/transaction-registry.service.ts:65-74 | after every schedule a record that says failed has moved its money if and only if the handler's append took effect and its acknowledgement or the marking of the success did not end well |
| SagaFailures.FailedMeansNoEffect | src/infrastructure/transactions/transaction-registry.service.ts:65-74 | when every await ends well, whatever crashes and in whatever order, a record that says failed has moved nothing |
| SagaFailures.UnheldStays | src/infrastructure/transactions/transaction-registry.service.ts:25-74 | in every continuation a record whose handler nobody runs stays as it is, nobody runs its handler again, and the number of its money events stays |
| SagaFailures.FailedStaysFailed | src/infrastructure/transactions/transaction-registry.service.ts:55-61 | in every continuation a failed record stays as it is and so does the number of its money events |
| SagaBlocked.BlockedForGoodIff | src/modules/transfers/application/services/transfer-coordinator.service.ts:119-311 | under the assumptions of AgreementReachable a leg in progress whose record is not completed and whose handler nobody runs - it failed, moved or not, or its worker died - stays in progress in every continuation if and only if no worker is past the registry with a closing or failing write that can still succeed |
| SagaBlocked.CrashBlocks | src/infrastructure/transactions/transaction-registry.service.ts:37-74 | a worker that dies while it runs a leg's handler blocks the leg, if nobody else can close it: in every continuation the leg stays in progress, its record as it was and its money where it was |
| SagaEndings.StaysInProgressIff | src/modules/transfers/application/services/transfer-coordinator.service.ts:119-311 | under the assumptions of StatusAgreesWithMoney any leg in progress stays in progress in every continuation if and only if no worker can write its end or come to that from its handler, and a new visit is refused by the registry or, for a reversal, by the account |
| SagaEndings.RefusedForGood | src/modules/transfers/application/services/transfer-coordinator.service.ts:260-311 | a reversal that has not moved and that the source account refuses, because it is frozen or the amount not positive, is never compensated |
| SagaRuns.AgreementIff | src/modules/transfers/application/services/transfer-coordinator.service.ts:313-324 | for any set of ids clients may use and of texts infrastructure errors may have, status and money agree for a transfer in all schedules if and only if no client id is one of its leg ids and neither its id nor any of the texts contains one of the four phrases |
| SagaRuns.PhraseBreaksAgreement | src/infrastructure/transactions/transaction-registry.service.ts:37-44 | from the empty system: two coordinators, no failing await and no crash leave a transfer whose id contains a phrase failed at the debit with its debit moved, and so it stays in every continuation |
| SagaRuns.ErrorTextBreaksAgreement | src/infrastructure/transactions/transaction-registry.service.ts:65-74 | from the empty system: one failed marking whose error contains a phrase does the same to any transfer |
| SagaRuns.LegIdBreaksAgreement | src/modules/accounts/application/dto/account-commands.dto.ts:30-32 | from the empty system: a deposit under the id of a leg leaves an initiated transfer with a money event of that leg |
| SagaRuns.LegIdBreaksBooks | src/modules/accounts/application/dto/account-commands.dto.ts:30-32 | the same deposit makes the equation of BooksBalance false, because it is counted as the leg's; no money is moved wrongly by it |
| SharedIdRun.LegIdCreatesMoney | src/infrastructure/transactions/transaction-registry.service.ts:25-63 | from the empty system, with no failing await and no crash: a client deposits and withdraws the same amount, the withdrawal under the id of a later transfer's debit; the transfer completes, its destination is credited and its source has paid nothing |
| SagaRuns.StrandedRun | src/infrastructure/transactions/transaction-registry.service.ts:65-74 | from the empty system: one failed marking of a debit leaves a failed record, moved money and a debit in progress, and so it stays in every continuation |
| SagaRuns.LostReadRun | src/infrastructure/transactions/transaction-registry.service.ts:65-74 | from the empty system: one failed read of the account during the debit leaves a failed record, nothing moved and a debit in progress, and so it stays in every continuation |
| SagaRuns.CrashRun | src/infrastructure/transactions/transaction-registry.service.ts:37-44 | from the empty system: a crash just before or just after the debit moves leaves a pending record and a debit in progress, moved or not, and so it stays in every continuation |
| SagaPasses.AcceptedPass | src/modules/transfers/application/services/transfer-coordinator.service.ts:119-158 | an undisturbed pass whose movement the account accepts leaves exactly the start and closing events, one money event and a completed record |
| SagaPasses.RejectedPass | src/modules/transfers/application/services/transfer-coordinator.service.ts:159-176 | one that the account rejects for good changes no account, and leaves a terminal record and a failed transfer at that stage |
| SagaPasses.TransferCompletes | src/modules/transfers/application/services/transfer-coordinator.service.ts:73-258 | two visits of at least ten undisturbed steps each complete a payable transfer to a willing account: the amount leaves the source and reaches the destination, and no other account changes |
| SagaPasses.TransferCompensates | src/modules/transfers/application/services/transfer-coordinator.service.ts:73-311 | when the destination cannot take it, three visits give the source its balance back and no other account changes |
| SagaPasses.PassIsASchedule | src/modules/transfers/application/services/transfer-coordinator.service.ts:54-59 | such a pass is one of the schedules the other theorems speak about |
| AccountRepositories.LoadIsFold | src/modules/accounts/domain/account.repository.ts:34-47 | restoring a faithful snapshot and replaying the tail is replaying everything |
| AccountRepositories.SaveKeepsSnapshot | src/modules/accounts/domain/account.repository.ts:129-142 | a save keeps the snapshot faithful for batches of any size; it keeps it no older than the last multiple of 50, and makes it so again at the next multiple after a crash has lost one |
| AccountRepositories.RetryDecidesOnTheWhole | src/modules/accounts/domain/account.repository.ts:64-93 | a committed command's event was decided on exactly the stream before it, and a rejection on exactly the final stream, whatever others commit between the attempts |
| AccountRepositories.RetryLosesNothing | src/modules/accounts/domain/account.repository.ts:64-93 | all commits of others stay, in order; the command adds one event if it committed and none otherwise; a conflict means all three writes met one |
| AccountRepositories.ThreeAttempts | src/modules/accounts/domain/account.repository.ts:64-93 | after two conflicting commits the command still commits on what they left, and it ends in a conflict if and only if three writes in a row meet a commit |
| AccountRepositories.RequestLaw | src/modules/accounts/application/handlers/account-command.handlers.ts:8-50 | for each kind of request: a committed deposit ends the stream with MoneyDeposited of its parsed amount, currency and id and raises the balance by it; a withdrawal lowers it and did not exceed it; a creation sets this id, owner and currency; a freeze leaves the account frozen; a rejected one has the reason that holds on the final stream |
| AccountRepositories.RequestAlone | src/modules/accounts/application/handlers/account-command.handlers.ts:8-50 | with nobody else writing a request is rejected for a reason exactly when that reason holds, leaving the stream as it was, and otherwise adds one event |
| AccountRepositories.AccountRepository.GetById | src/modules/accounts/domain/account.repository.ts:34-47 | the loaded aggregate is the fold of the whole stream, however old the snapshot; fewer than 50 events are replayed if it is no older than the last multiple of 50 |
| AccountRepositories.AccountRepository.Save | src/modules/accounts/domain/account.repository.ts:122-143 | appends the batch if and only if nobody has written since the load, keeps the snapshot faithful, takes one exactly when a multiple of 50 lies in the append, and keeps it recent or makes it so then |
| AccountRepositories.AccountRepository.ExecuteWithRetry | src/modules/accounts/domain/account.repository.ts:64-93 | the stream and outcome are those of the retried command; a committed request has added its own event, with its own effect on the account, to all that others wrote; a rejected one has its reason; no other stream changes |
| AccountStore.LoadSeesEverything | src/modules/accounts/domain/account.repository.ts:38-46 | however old the snapshot a call has read, what it loads is the fold of the stream at its tail read |
| AccountStore.DecisionsAreValid | src/modules/accounts/domain/account.repository.ts:64-93 | in every schedule of any number of processes every event was accepted on exactly the fold of the events before it, and any stored snapshot is the fold at its version |
| AccountStore.CallsAreServedOnce | src/modules/accounts/domain/account.repository.ts:64-93 | an acknowledged call has written exactly its own event; a refused or conflicted one has written none |
| AccountStore.ConflictAfterThree | src/modules/accounts/domain/account.repository.ts:71-86 | in every schedule a call is in its first, second or third attempt after no, one or two late writes, and reports a conflict exactly after three |
| AccountStore.NothingIsLost | src/infrastructure/event-store/in-memory-event-store.ts:14-31 | the stream and its authors only ever grow |
| AccountStore.PostgresNeverGoesBack | src/infrastructure/snapshots/postgres-snapshot-store.ts:18-46 | with Postgres the latest snapshot never goes back, in any schedule |
| AccountStore.InMemoryNeverGoesBack | src/infrastructure/snapshots/in-memory-snapshot-store.ts:14-26 | in memory the latest snapshot never goes back in any schedule in which no two calls are between their check and their write |
| AccountStore.OverlapGoesBackIff | src/infrastructure/snapshots/in-memory-snapshot-store.ts:14-26 | in memory the next steps of two calls can set the latest snapshot back if and only if two calls are between their check and their write |
| SnapshotRuns.GoesBackWithoutLock | src/modules/accounts/domain/account.repository.ts:68-72 | without the lock a run of a hundred calls sets the latest snapshot back from version 100 to 50 |
| AccountStore.AloneIsServed | src/modules/accounts/domain/account.repository.ts:64-93 | an undisturbed accepted call appends its event, is acknowledged, and leaves a snapshot at least as new as its event exactly when the event crosses a boundary |
| AccountStore.AloneIsRefused | src/modules/accounts/domain/account.repository.ts:64-93 | an undisturbed refused call says why and changes nothing |
| AccountLocks.MutualExclusion | src/modules/accounts/domain/account.repository.ts:102-120 | in every schedule at most one operation of an account is inside |
| AccountLocks.EntryIsInOrder | src/modules/accounts/domain/account.repository.ts:102-120 | operations of an account get inside in the order in which they registered, each after the one before it is done |
| AccountLocks.KeyMeansUnfinished | src/modules/accounts/domain/account.repository.ts:114-119 | the map has a key if and only if some operation registered on the account is unfinished, and it is the last one's promise |
| AccountLocks.FirstMayProceed | src/modules/transfers/domain/transfer.repository.ts:60-78 | the first unfinished operation of a key is inside or may enter |
| AccountLocks.NoConflictInOneProcess | src/modules/accounts/domain/account.repository.ts:58-60 | where one process is the only writer no append meets a version conflict |
| LockedAccountStore.LockGivesNoOverlap | src/modules/accounts/domain/account.repository.ts:68-72 | when calls run only inside withAccountLock, in no state of any schedule are two calls of an account between their check and their write |
| LockedAccountStore.LockedNeverGoesBack | src/infrastructure/snapshots/in-memory-snapshot-store.ts:14-26 | so in one process the latest in-memory snapshot of an account never goes back, in any schedule with failing awaits and calls on other accounts |
| AccountLocks.KeyedMutex.Register | src/modules/accounts/domain/account.repository.ts:103-109 | the synchronous part before the first await is the registration step |
| AccountLocks.KeyedMutex.Enter | src/modules/accounts/domain/account.repository.ts:112-113 | returning from the awaited promise is the entry step |
| AccountLocks.KeyedMutex.Release | src/modules/accounts/domain/account.repository.ts:114-119 | the finally block is the leaving step |
| EventStores.AppendKeepsConsistent | src/infrastructure/event-store/in-memory-event-store.ts:14-37 | every append keeps streams numbered 1..n, the log 1..N, and each stream equal to the log restricted to its appends |
| EventStores.AppendAdds | src/infrastructure/event-store/in-memory-event-store.ts:14-52 | an append at the current version adds exactly the batch, in order, to its stream and to the log, with the next versions and positions, and one untried message for each event, to the topic and with the key of the stream; at any other version it adds nothing |
| EventStores.TopicOfPrefixed | src/infrastructure/event-store/in-memory-event-store.ts:65-67 | all streams of one kind have one topic, whatever their ids contain |
| EventStores.InMemoryEventStore.Append | src/infrastructure/event-store/in-memory-event-store.ts:14-52 | appends, numbers, logs and stages the batch if and only if the expected version is the current one, and changes nothing otherwise |
| EventStores.InMemoryEventStore.ReadStream | src/infrastructure/event-store/in-memory-event-store.ts:54-57 | filtering by version is the suffix of the stream |
| EventStores.InMemoryEventStore.ReadAll | src/infrastructure/event-store/in-memory-event-store.ts:59-63 | filtering by position and cutting is the page of the log |
| Outboxes.QueueIsPending | src/infrastructure/outbox/in-memory-outbox-store.ts:23-35 | the queue holds exactly the unpublished, unclaimed messages, each as often as it was staged, ordered by position and creation |
| Outboxes.BatchIsTheFront | src/infrastructure/outbox/in-memory-outbox-store.ts:23-38 | a claim takes pending messages only, at most the limit, and leaves none that comes before one it takes |
| Outboxes.ClaimIsInOrder | src/infrastructure/outbox/in-memory-outbox-store.ts:23-35 | a claim is ordered by event position, with Number.MAX_SAFE_INTEGER for none, and then by time of creation, takes nothing after what it leaves, and takes everything if it takes fewer than the limit |
| Outboxes.StagedAddsEachIdOnce | src/infrastructure/outbox/in-memory-outbox-store.ts:9-21 | staging keeps what is there, keeps ids unique and adds exactly the new ids |
| Outboxes.InMemoryOutboxStore.Stage | src/infrastructure/outbox/in-memory-outbox-store.ts:9-21 | the messages afterwards are the staged ones |
| Outboxes.InMemoryOutboxStore.ClaimPending | src/infrastructure/outbox/in-memory-outbox-store.ts:23-39 | returns the front of the queue and claims it |
| Outboxes.InMemoryOutboxStore.MarkPublished | src/infrastructure/outbox/in-memory-outbox-store.ts:41-53 | publishes the message and ends its claim; an unknown id changes nothing |
| Outboxes.InMemoryOutboxStore.MarkFailed | src/infrastructure/outbox/in-memory-outbox-store.ts:55-67 | counts the attempt, keeps the error and ends the claim; an unknown id changes nothing |
| OutboxPublishers.ClaimsAreExclusive | src/infrastructure/outbox/outbox-publisher.service.ts:37-65 | in every schedule of any number of publishers no message is in two outstanding claims or twice in one, and what is claimed is staged and unpublished |
| OutboxPublishers.EveryMessageIsAccountedFor | src/infrastructure/outbox/outbox-publisher.service.ts:37-65 | every staged message is published, held, pending or orphaned by a dead publisher, and only one of these |
| OutboxPublishers.PublishedOnce | src/infrastructure/outbox/in-memory-outbox-store.ts:41-53 | once published a message stays published, the broker has received it, and no publisher ever claims it again |
| OutboxPublishers.TurnSettlesItsBatch | src/infrastructure/outbox/outbox-publisher.service.ts:47-58 | a turn of the loop publishes exactly what was sent, gives up exactly its own claims, and one failure holds up no other message |
| OutboxPublishers.TurnMarksEach | src/infrastructure/outbox/outbox-publisher.service.ts:47-58 | a turn publishes each message it sent, gives each one whose sending failed one more attempt and the error, and changes no other |
| OutboxPublishers.RunOnce | src/infrastructure/outbox/outbox-publisher.service.ts:38-58 | the turn claims at most 100 messages and settles them by their outcomes |
| EventFlow.StoreAndOutboxAgree | src/infrastructure/event-store/in-memory-event-store.ts:14-52 | after any appends, claims, publishes, failures and deaths the log is consistent and the outbox ids are the log's |
| EventFlow.EveryEventHasItsMessage | src/infrastructure/event-store/in-memory-event-store.ts:40-51 | with distinct event ids every log entry has its own message, in log order, carrying it to the topic and key of its stream |
| AccountReadModel.AppendInserts | src/modules/accounts/query/in-memory-account-read-model.repository.ts:37-45 | appending to a sorted statement puts the entry where its version belongs and moves nothing else |
| AccountReadModel.InMemoryAccountReadModel.UpsertAccountSummary | src/modules/accounts/query/in-memory-account-read-model.repository.ts:28-35 | the row is replaced unless the stored one is at least as new |
| AccountReadModel.InMemoryAccountReadModel.AppendAccountStatement | src/modules/accounts/query/in-memory-account-read-model.repository.ts:37-45 | a known event id changes nothing; otherwise the entry is added and the statement stably sorted |
| AccountReadModel.InMemoryAccountReadModel.ResetAccount | src/modules/accounts/query/in-memory-account-read-model.repository.ts:47-50 | removes the account's rows and no other |
| AccountProjectors.PlanIsFaithful | src/modules/accounts/query/account-projector.service.ts:53-193 | whatever faithful row was read, however old, and whichever event was delivered, what is going to be written is the aggregate's row at that version |
| AccountProjectors.EntryTells | src/modules/accounts/query/account-projector.service.ts:102-185 | a statement entry has the kind, the amount, the currency, the transaction id or the reason of its event, and these determine it |
| AccountProjectors.StatementAddsUp | src/modules/accounts/query/account-projector.service.ts:102-185 | where each line tells the event of its version, the amounts deposited less the amounts withdrawn in the first v lines are the folded balance after v events |
| AccountProjectors.ProjectedDelivers | src/modules/accounts/query/account-projector.service.ts:53-205 | an event the row has seen does nothing; one without a row, past the next version or a second creation is the stated error and does nothing; the next one changes the row by what it says, adds the entry that tells it, and touches no other account |
| AccountProjectors.AccountProjector.Project | src/modules/accounts/query/account-projector.service.ts:34-51 | does exactly what ProjectedDelivers says of a delivery |
| ProjectorInterleaving.SummaryIsTheFold | src/modules/accounts/query/account-projector.service.ts:90-128 | under every interleaving, order of delivery, repetition, crash and reset the summary has the owner, currency, status and balance of the aggregate after its first summary.version events, and the statement is sorted, with at most one entry per version, which tells that version's event |
| ProjectorInterleaving.HarmlessIff | src/modules/accounts/query/account-projector.service.ts:90-128 | a step keeps every entry the statement needs in place or under way if and only if it is not a crash of the last projector bound to a needed, unlisted entry and not a reset below whose pending upserts some version is not under way |
| ProjectorInterleaving.StatementIsWhole | src/modules/accounts/query/in-memory-account-read-model.repository.ts:37-50 | after every schedule whose crashes and resets are harmless in that sense, whenever no projector is mid-event the statement begins with lines that tell exactly the events 1..summary.version in order, and holds no more unless a reset came between an upsert and its append |
| ProjectorInterleaving.StatementIsTheLedger | src/modules/accounts/query/account-projector.service.ts:110-119 | then the amounts deposited less the amounts withdrawn in its first v lines are the balance of the aggregate after v events, and all lines add up to the balance of the summary |
| ProjectorInterleaving.LossIff | src/modules/accounts/query/account-projector.service.ts:90-128 | deliveries and steps alone can come to a summary past an entry that is neither listed nor under way if and only if some needed entry is neither now |
| ProjectorInterleaving.CrashLosesEntry | src/modules/accounts/query/account-projector.service.ts:102-110 | a crash between the two writes, with nobody else bound to the event, loses the entry: no later delivery brings it back without a reset |
| ProjectorInterleaving.ResetLosesEntry | src/modules/accounts/query/in-memory-account-read-model.repository.ts:47-50 | a reset before an upsert of a later version loses every earlier entry nobody is bound to, in the same sense |
| ProjectorInterleaving.CrashRunExists | src/modules/accounts/query/account-projector.service.ts:69-87 | a run comes to such a crash |
| ProjectorInterleaving.ResetRunExists | src/modules/accounts/query/account-projector.service.ts:98-108 | a run comes to such a reset |
| TransferProjectors.CandidateFollows | src/modules/transfers/query/transfer-projector.service.ts:35-127 | the row computed for the next event of a stream is the aggregate's next row, field by field |
| TransferProjectors.InOrderIffNonDecreasing | src/modules/transfers/query/in-memory-transfer-read-model.repository.ts:17-24 | projecting an accepted stream in order shows the aggregate after every event if and only if occurredAt never decreases |
| TransferProjectors.RedeliveryCatchesUp | src/modules/transfers/query/transfer-projector.service.ts:35-127 | redelivering a stream from any position already projected, in particular from the start, ends exactly at the full row when occurredAt never decreases |
| TransferProjectors.EqualTimesRegress | src/modules/transfers/query/in-memory-transfer-read-model.repository.ts:17-24 | redelivering the first event sets the row back exactly when it is as late as the last one projected |
| TransferInterleaving.CandidateIsFoldIff | src/modules/transfers/query/transfer-projector.service.ts:35-127 | what a projector upserts for version v is the aggregate's row at v if and only if the row it read differs from the one at v - 1 at most in what v writes |
| TransferInterleaving.SoundIff | src/modules/transfers/query/transfer-projector.service.ts:35-127 | a step keeps the row, and every pending upsert that would not be discarded, at a version of the aggregate if and only if a row it reads differs from the one before the event at most in what the event writes, or is newer than the event, and a reset finds only the aggregate's rows pending |
| TransferInterleaving.AlwaysSoundIff | src/modules/transfers/query/transfer-projector.service.ts:35-127 | under every interleaving, order of delivery, repetition, crash and reset all states are sound in that sense if and only if all steps are of that kind |
| TransferInterleaving.SoundMeans | src/modules/transfers/query/in-memory-transfer-read-model.repository.ts:17-24 | with increasing times a state whose row shows the aggregate is sound if and only if the row goes on to show it whichever pending upsert comes next |
| TransferInterleaving.InTurnShowsTheFold | src/modules/transfers/query/transfer-projector.service.ts:35-127 | with increasing times, if events are delivered and the row reset only while no projector is at work, and no event before the row has reached the one before it, the row shows the aggregate at one of its versions, whatever is redelivered and whoever crashes |
| TransferInterleaving.TurnProjects | src/modules/transfers/query/transfer-projector.service.ts:35-127 | delivering one event, reading the row and upserting it with nobody else at work is the projection of that event |
| TransferInterleaving.RedeliveryInTurns | src/modules/transfers/query/transfer-projector.service.ts:35-127 | redelivering a stream from any position already projected ends exactly at the full row, with the read and the upsert of each event as separate steps |
| TransferInterleaving.BadReadShowsIff | src/modules/transfers/query/transfer-projector.service.ts:35-127 | with increasing times one other read is enough: the projector's next two steps show the aggregate at a version if and only if the read was good or of a row newer than the event |
| TransferInterleaving.OverlapLosesField | src/modules/transfers/query/transfer-projector.service.ts:35-127 | a run in which every event is delivered once and in order ends debited and without its debit transaction |
| TransferProjectors.InMemoryTransferReadModel.UpsertTransferSummary | src/modules/transfers/query/in-memory-transfer-read-model.repository.ts:17-24 | the row is replaced unless the stored one is strictly newer |
| TransferProjectors.InMemoryTransferReadModel.Project | src/modules/transfers/query/transfer-projector.service.ts:35-127 | upserts the candidate row or reports the missing summary, and changes no other row |
| TransferProjectors.InMemoryTransferReadModel.Rebuild | src/infrastructure/projections/projection-runner.service.ts:96-108 | the row becomes what the transfer's stream gives from nothing, and no other row changes |
| ProjectionReplay.OwnStreamCatchesUp | src/infrastructure/projections/projection-runner.service.ts:72-84 | delivering a stream from its start to an account projected up to any point ends with its whole summary and statement |
| ProjectionReplay.OwnStreamSucceedsIff | src/modules/accounts/query/account-projector.service.ts:195-202 | an empty read model takes an accepted stream if and only if it begins with AccountCreated |
| ProjectionReplay.EachGetsItsOwn | src/infrastructure/projections/projection-runner.service.ts:51-70 | a replay of the interleaved log gives each account and each transfer exactly what its own stream gives |
| ProjectionReplay.InterleavingSucceeds | src/infrastructure/projections/projection-runner.service.ts:51-70 | if no stream alone raises an error, neither does their interleaving |
| ProjectionReplay.FirstErrorStops | src/infrastructure/projections/projection-runner.service.ts:51-70 | a replay stops at the first entry that cannot be projected, with that entry's error and everything before it projected |
| ProjectionReplay.VisitFailsIff | src/modules/accounts/query/account-projector.service.ts:195-214 | an entry cannot be projected exactly when an account event has no summary to change, leaves a gap or is a second creation, or a transfer event has no summary |
| ProjectionRunners.ReplaySucceedsIff | src/infrastructure/projections/projection-runner.service.ts:51-70 | replaying a log onto empty read models raises no error if and only if every account stream begins with AccountCreated |
| ProjectionRunners.ReplayGivesTheFolds | src/infrastructure/projections/projection-runner.service.ts:87-94 | then every account shows its aggregate and a whole statement, and every transfer with non-decreasing times its aggregate |
| ProjectionRunners.ReplayShowsTheLedger | src/infrastructure/projections/projection-runner.service.ts:51-70 | the statement tells the account's events line by line and adds up to the aggregate's balance after each, and the summary is the aggregate's |
| ProjectionRunners.StreamTopics | src/infrastructure/event-store/in-memory-event-store.ts:65-67 | whatever an id contains, the messages of its stream go to account-events or transfer-events |
| ProjectionRunners.ProjectionRunner.ReplayFrom | src/infrastructure/projections/projection-runner.service.ts:51-70 | the paged loop terminates and visits every entry past the position once, in order, until the end or the first error |
| ProjectionRunners.ProjectionRunner.RebuildAll | src/infrastructure/projections/projection-runner.service.ts:87-94 | from any contents, the result is the replay of the whole log onto empty read models |
| ProjectionRunners.ProjectionRunner.RebuildAccount | src/infrastructure/projections/projection-runner.service.ts:72-84 | from any contents, succeeds if and only if the stream is empty or begins with AccountCreated, then shows the account's own stream, and touches no other account |
| Idempotency.Execute | src/infrastructure/idempotency/idempotency.service.ts:16-75 | the handler runs exactly when the key was never used, leaving its response or a failure; a call that does not run it returns exactly when the key is known for the same request, completed and with a response, and returns that response |
| Idempotency.TwoCalls | src/infrastructure/idempotency/idempotency.service.ts:33-74 | whatever comes between two calls with one key, the second never runs; it returns the first one's response if that succeeded and the request is the same, and is refused otherwise |
| Idempotency.RefusedIff | src/infrastructure/idempotency/idempotency.service.ts:23-63 | a call is refused exactly for a missing key, another request under the key, one in progress, or one without a response to return |
| Idempotency.HandlerRunsAtMostOnce | src/infrastructure/idempotency/idempotency.service.ts:16-75 | over all concurrent calls and crashes the handler runs at most once per key |
| Idempotency.ReturnsTheFirstResponse | src/infrastructure/idempotency/idempotency.service.ts:33-48 | every call that returns a response returns that of the key's one handler run, for the request the key was reserved for |
| Idempotency.ReturnsAgree | src/infrastructure/idempotency/idempotency.service.ts:33-48 | any two calls with one key that return have the same request and the same response |
| Idempotency.NewCall | src/infrastructure/idempotency/idempotency.service.ts:29-63 | after every schedule of concurrent calls a new call runs exactly if its key is unused, returns exactly what a completed record of its request holds, and is refused otherwise |
| Idempotency.AnswersForGoodIff | src/infrastructure/idempotency/idempotency.service.ts:43-74 | a completed record goes on answering with its response in every continuation if and only if the call that ran the handler is not about to mark it failed |
| Idempotency.AnswerTakenBack | src/infrastructure/idempotency/idempotency.service.ts:65-74 | from the empty state: a run in which a response is returned to one call and the next call of the same request is refused |
| Idempotency.FailedRecordRanIff | src/infrastructure/idempotency/idempotency.service.ts:66-74 | after every schedule the handler of a key whose record says failed has returned if and only if marking that success did not end well |
| Idempotency.FailedMeansNoResponse | src/infrastructure/idempotency/idempotency.service.ts:66-74 | when marking a success never fails, a failed record means that the handler did not return |
| Idempotency.FailedIsFinal | src/infrastructure/idempotency/idempotency.service.ts:50-63 | in every continuation a failed record stays as it is and every call of its key is refused |
| Idempotency.FailedRunExists | src/infrastructure/idempotency/idempotency.service.ts:66-74 | from the empty state: a run whose handler returned leaves a failed record |
| Idempotency.IdempotencyRecordRepository.Reserve | src/infrastructure/idempotency/in-memory-idempotency-record.repository.ts:12-31 | creates an in-progress record for a new key, returns the existing one otherwise |
| Coordination.ExclusiveTasksTakeTurns | src/infrastructure/projections/projection-coordination.service.ts:24-48 | exclusive tasks run one at a time in call order, and the counter and flags tell the truth about them |
| Coordination.OverlapIff | src/infrastructure/projections/projection-coordination.service.ts:12-22 | an exclusive task that passed its test may come to overlap with a shared one if and only if a shared one has passed its own test and not finished |
| Coordination.OverlapHappens | src/infrastructure/projections/projection-coordination.service.ts:37-38 | calling an exclusive and then a shared task in one go makes them overlap |
| Coordination.NobodyStaysParked | src/infrastructure/projections/projection-coordination.service.ts:50-63 | when a task finishes, and when an exclusive one has its turn, every other parked task is woken and no other task changes |
| Coordination.SharedComesToWork | src/infrastructure/projections/projection-coordination.service.ts:12-22 | after every schedule, a shared task parked behind an exclusive one at work works once that is done and it has tested and entered |
| Coordination.ExclusiveComesToWork | src/infrastructure/projections/projection-coordination.service.ts:34-41 | and an exclusive task parked behind the last shared one at work does, too |
| Coordination.ProjectionCoordination.BeginShared | src/infrastructure/projections/projection-coordination.service.ts:12-14 | the synchronous part of runShared is the call step |
| Coordination.ProjectionCoordination.BeginExclusive | src/infrastructure/projections/projection-coordination.service.ts:24-31 | the synchronous part of runExclusive is the call step |
| Coordination.ProjectionCoordination.TakeTurn | src/infrastructure/projections/projection-coordination.service.ts:32-37 | the turn raises the request, wakes every parked task and tests |
| Coordination.ProjectionCoordination.Begin | src/infrastructure/projections/projection-coordination.service.ts:14-38 | the turn after a passed test raises the counter or the flag |
| Coordination.ProjectionCoordination.End | src/infrastructure/projections/projection-coordination.service.ts:41-47 | the finally block lowers them again, wakes every parked task and releases the queue |
| Coordination.AtomicExcludes | src/infrastructure/projections/projection-coordination.service.ts:50-56 | if testing and entering were one step, a shared task would never work beside an exclusive one |

## Left out

- Saga is a state machine on values, because what matters in it is how the segments
  between awaits interleave; the coordinator's polling loop and the updates in place of
  its local variables are not shown.
- Creating and freezing an account and initiating a transfer are single steps in the
  saga; AccountStore shows the account commands step by step. The in-process locks do
  not appear there: the saga allows more interleavings than they do.
- SagaTheorems.StatusAgreesWithMoney: assumes what the code does not check: that no
  client uses a leg id and that the transfer id and infrastructure errors contain no
  phrase. SagaRuns.AgreementIff shows that each of these is needed.
- SagaEndings.StaysInProgressIff: shows what can still come, which a fair scheduler
  would have to choose; no claim is made that transfers do finish, that the outbox
  drains or that projections catch up.
- SagaBlocked.BlockedForGoodIff: its continuations are those in which no client uses a
  leg id of the transfer and no error about it looks like a rejection.
- SagaTexts: the values quoted at the end of the messages about money text and
  currency are left out, as they cannot change what the search finds for a leg.
- Conservation.MoneyIsConserved: leaves open which amount a leg moves for given minor
  units, because the code passes it through a JavaScript number; all three legs use
  the same one. Money is modelled on texts only.
- Amounts in stored events are integers; Money.ParseFormat makes that lossless.
- AccountRepositories.AccountRepository.GetById: the bound of 49 replayed events needs
  a recent snapshot, because a crash between the append and the snapshot loses one.
- AccountStore: one stream at a time; the random pauses between attempts are left out.
  Its calls take no lock, so it allows more interleavings than one process does;
  LockedAccountStore runs the two together, in one process and in memory; an awaited
  call that fails is modelled as the end of its operation.
- AccountLocks.NoConflictInOneProcess: is about a process that is the only writer.
- AccountRepositories.AccountRepository.ExecuteWithRetry: takes what other instances
  commit between a read and its write as a parameter, because a method runs alone.
- ProjectorInterleaving: one account at a time, as accounts share no rows; the
  transfer labels of statement entries and all timestamps there are left out.
- TransferProjectors.RedeliveryCatchesUp: reading and upserting the row of one event is
  one step there; TransferInterleaving.RedeliveryInTurns separates them.
- TransferProjectors.InMemoryTransferReadModel.Project: nobody else works on the row
  between its read and its upsert; TransferInterleaving.TurnProjects ties the two steps
  to it, and the other theorems of that module say what others can do in between.
- TransferProjectors: timestamps are integers in milliseconds; `createdAt` is left out,
  and so are the lists of pending and stuck transfers.
- An event of a never created account carries no account id in its data; it is
  modelled with the id of its stream, which leads to the same missing-summary error.
- ProjectionRunners: the rebuilds are shown without the gate of Coordination, and the
  live loop is the replay without an end. Checkpoints in the read model, which no
  code reads back, are left out.
- EventStores and Outboxes are the in-memory stores; Postgres, its migrations and
  its locks are not modelled. Event ids are distinct where a statement says so.
- OutboxPublishers.RunOnce: takes the outcome of each send as a parameter; marking a
  message published does not itself fail in the in-memory store.
- Idempotency: a request hash stands for operation and payload.
- HTTP controllers, request validation beyond non-empty ids, consumers, metrics,
  logging, configuration and the unused saga class are left out.
