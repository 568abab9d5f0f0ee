# Wager engine: a verified model

This project models a wager engine and its storage, and proves what the engine promises about money,
idempotency, references between operations, events and concurrency.

The engine accepts operations of betting providers (BET, WIN, LOSS, REFUND, ROLLBACK) by request or by
message, each under an idempotency key and an external identity. An operation locks its wallet, moves the
balance, writes one immutable ledger entry and publishes events through a transactional outbox. An
operation that refers to one that has not arrived yet waits, and a worker retries it a bounded number of
times. Wallets, operations, ledger, inbox and outbox are committed together or not at all.

## How it is built

- **Values and rules.** `Core`, `Finance`, `Delays` and `Domain` hold the values of the domain and their
  rules: 64-bit money with explicit overflow, retry delays, wagers with their status changes, wallets,
  ledger entries and events.
- **The engine as a function.** `Engine` says what each use case answers and leaves in the database, as
  one function of the database it starts from. `Invariant` says what every commit keeps. `Decisions`,
  `Preservation`, `Steps`, `UseCases`, `Opening` and `Runs` prove that every step, and so every run, keeps it.
- **What each use case does, column by column.** `Engine` is what the methods below are compared with, so
  its content is pinned on its own: `Construction` and `Admission` (what is made and what is let in),
  `Answers` and `Failures` (what is answered, what is left, and the error of every cause), `Effects` (the
  writes of a step), `Statuses` (the outcome by its causes), `Retries` (the next attempt) and
  `Opening.OpensExactly` say it on requests, rows and fields alone, in both directions.
- **What follows over runs.** `NetEffect` (a balance is what its effective operations add up to),
  `EventStream` and `EventPaths` (the events rebuild the wallet and follow the path of each operation),
  `Idempotency` (exactly-once effect, redelivery, bounded retries), `Confluence` (late references) and
  `Guarantees` (the same from the empty database).
- **The program itself.** `Entities` has the two mutable entities as classes, `Schema` the check
  constraints, keys and triggers of the storage, `Storage` the private view of a transaction with its
  repositories, `Guards` and `Tables` what the storage protects whatever is sent to it and which writes it
  accepts, and `Processing` and `Services` the use cases statement by statement. Each method is
  proved to answer and to leave exactly what `Engine` says, so all of the above holds of it; on the way
  `Writes` proves that no constructor fails and that the storage refuses no write. `Consumer` is the
  message consumer.
- **Concurrency.** `Interleaving` runs any number of workers statement by statement: wallet locks held to
  the end, inserted keys and messages that make others wait, reads of the latest committed data, crashes
  and clock ticks at any point. `Serialization`, `Commits`, `Linearization` and `Concurrency` prove that
  every interleaving is safe and when it is serial, `Crossing` and `MissedReferences` that this condition is
  exact, and `Progress` that no wait can close a cycle.
- **Side protocols.** `Outbox` and `OutboxLease` (publishing under a lease), `Pagination` (keyset pages and
  reconciliation).

`dafny verify dfyconfig.toml` checks the whole project.

## Choices of the model

- Digests are injective: a digest is its canonical content. Identities are fresh values, named by the
  execution that draws them; the identity of an opening is an injective function of its wallet.
- The unique indexes are maps in the database value (`byOwner`, `byKey`, `byExternal`, `reversals`), proved
  to agree with scans of the rows.
- Money is a 64-bit integer with a currency. Attempts, instants and sums are unbounded integers, except
  where the program bounds them.
- The clock is shared and never goes back. One execution reads it once for its decision; all instants that
  it writes are that reading. The creation of a request is an earlier reading of its own.
- A tracing without a correlation identity is completed before the engine is called, so the model takes a
  tracing that is not blank.
- Errors that the program returns are values of one type `Error`; a refusal by a constraint or a trigger of
  the storage is `ErrConstraint`.

## Two results that limit the program

- **References across wallets.** A reference to an operation of another wallet is read without that wallet's
  lock, so the operation may be stored between the read and the decision's commit. The one that refers to it
  then waits, where every serial order in which it comes second rejects it. `SerialExactly` proves that two
  submissions always commit serially exactly when neither refers to the other across wallets;
  `CrossedRefundsBothWait` gives statements that leave two such refunds waiting for each other, which no serial
  run of any steps does. `EveryInterleavingIsSafe` proves that even then all data stay consistent and that
  nothing but such a wait (or giving it up) differs; `WaitsAreBounded` bounds it on any consistent data.
- **Leases below a microsecond.** The configuration asks for a lease longer than the attempt timeout, but the
  storage cuts the lease down to whole microseconds. `OverlapExactly` gives the exact condition under which
  two sends of one event cannot overlap, `TheCheckIsNotEnough` a configuration that passes and lets them, and
  `WholeMicrosecondsAreSafe` shows that whole microseconds suffice.

## Model

| member | source | states |
|---|---|---|
| `Finance.Add` | internal/domain/money.go:111-127 | fails exactly for an unknown currency, for two currencies or for an exact sum outside 64 bits, each with its own error; the exact sum otherwise |
| `Finance.Sub` | internal/domain/money.go:129-144 | fails exactly for an unknown currency, for two currencies or for an exact difference outside 64 bits, each with its own error; the exact difference otherwise |
| `Finance.Negate` | internal/domain/money.go:171-179 | fails exactly for the least amount; otherwise the sum with the result is zero |
| `Finance.SubUndoesAdd` | internal/domain/money.go:111-144 | a subtraction takes back an addition, with no overflow on the way |
| `Finance.NewMoneyIsExact` | internal/domain/money.go:24-67 | accepts exactly the texts of digits with an optional dot and one or two decimals, whose cents, read independently as one scaled number, fit 64 bits, and gives those cents; each other text gets its own error |
| `Finance.MoneyTextIsCorrect` | internal/domain/money.go:162-169 | the text of every 64-bit amount, the least one included, denotes that amount |
| `Finance.ParseUndoesText` | internal/domain/money.go:24-169 | parsing what was written gives the amount back, for every amount that is not negative |
| `Finance.MoneyTextIsInjective` | internal/domain/money.go:162-169 | distinct amounts have distinct texts |
| `Delays.ReferenceDelay` | internal/application/retry_references.go:28-37 | the loop returns min(initial * 2^(n-1), max) for every attempt n >= 1, with every intermediate value in 64 bits |
| `Delays.OutboxDelay` | internal/application/publish_outbox.go:24-33 | the loop returns min(initial * 2^(n-1), max), with every intermediate value in 64 bits |
| `Delays.MessageRetryDelay` | internal/infrastructure/messaging/sqs_consumer.go:248-257 | the loop returns min(2^(n-1), 60) seconds |
| `Delays.BackoffIsMonotone` | internal/application/retry_references.go:28-37 | delays never shrink from one attempt to a later one and stay between the two limits |
| `Domain.WaitingIsSound` | internal/domain/wager_transaction.go:254-267 | starting to wait turns a valid open wager into a valid one with the same business fields |
| `Domain.ResolvingIsSound` | internal/domain/wager_transaction.go:269-281 | resolving a reference turns a valid open wager into a valid one with the same business fields |
| `Domain.ProcessingIsSound` | internal/domain/wager_transaction.go:283-306 | processing turns a valid open wager into a valid one with the same business fields; a terminal one is refused |
| `Domain.RejectingIsSound` | internal/domain/wager_transaction.go:308-322 | rejecting turns a valid open wager into a valid one, also when its reference is already resolved |
| `Domain.MovementsCancel` | internal/domain/wallet.go:72-119 | a credit and the debit of the same amount cancel exactly, in either order, and count two versions |
| `Entities.Wallet.Credit` | internal/domain/wallet.go:72-90 | adds exactly the amount, counts one version and takes the instant, or returns the error of its cause (a wallet that cannot move, the money, the currency, the 64-bit limit) and changes nothing; stated on the fields |
| `Entities.Wallet.Debit` | internal/domain/wallet.go:92-119 | takes exactly the amount, counts one version and takes the instant, or returns the error of its cause (a wallet that cannot move, the money, the currency, the balance) and changes nothing; stated on the fields |
| `Entities.WagerTransaction.MarkPendingReference` | internal/domain/wager_transaction.go:254-267 | the object becomes the waiting value, or keeps its value with the error of the first failed check |
| `Entities.WagerTransaction.ResolveReference` | internal/domain/wager_transaction.go:269-281 | the object gets the resolved link, or keeps its value with the error of the first failed check |
| `Entities.WagerTransaction.MarkProcessed` | internal/domain/wager_transaction.go:283-306 | the object becomes the processed value, or keeps its value with the error of the first failed check |
| `Entities.WagerTransaction.Reject` | internal/domain/wager_transaction.go:308-322 | the object becomes the rejected value, or keeps its value with the error of the first failed check |
| `Decisions.DecisionExactly` | internal/application/process_wager.go:202-263 | each of waiting, settling and the six rejection codes happens exactly for its own cause, stated on the wager, the wallet and the operation found; a settled one moves exactly its amount |
| `Decisions.ReferenceExactly` | internal/domain/wager_transaction.go:367-403 | a reference is accepted exactly when it matches in identity, owner and round, is processed, and its kind and amount fit |
| `Decisions.MoveExactly` | internal/application/process_wager.go:239-270 | direction, balance and rejection of a movement, in exact arithmetic |
| `Decisions.OnlyExhaustedWalletsAbort` | internal/domain/wallet.go:151-168 | on stored data the only error of a step is a wallet at the greatest version |
| `Decisions.AcceptedIsLinked` | internal/domain/wager_transaction.go:367-403 | an accepted reference is a stored processed operation to which the wager may be linked |
| `Decisions.AbortsExactly` | internal/application/process_wager.go:239-266 | a step stops exactly at a wallet with no version left, for a movement whose reference is cleared, and with ErrInvalidWallet |
| `Decisions.ResolvedExactly` | internal/application/process_wager.go:217-237 | a step links its operation exactly to the one found, and exactly when nothing but an earlier reversal stands against it |
| `Construction.EntryExactly` | internal/domain/wallet_ledger_entry.go:43-109 | an entry is made exactly of a positive amount of one known currency between two balances that differ by it, and every other input gets the error of its cause |
| `Construction.OutcomesExactly` | internal/domain/events.go:25-177 | an outcome event is made exactly for a valid operation with that status under a tracing, with the wallet, the instant, the tracing and the snapshot of that operation |
| `Construction.ChangesExactly` | internal/domain/events.go:196-250 | a balance change is made exactly for the movement of its own processed operation, in a direction of its kind, from the second version on or the first for an opening |
| `Admission.AdmittedExactly` | internal/application/process_wager.go:67-100 | a request is admitted exactly when it is of the authorized provider, complete, within the sizes, of a known currency and kind, with an amount and a reference that fit its kind; the operation has every field as it was sent |
| `Admission.RefusedExactly` | internal/application/process_wager.go:67-100 | every request that is not admitted gets the error of the first cause, in the order in which they are looked for |
| `Answers.AnswersExactly` | internal/application/process_wager.go:180-200 | a successful answer by request or by message: its identity is that of a stored row and its status, balance and failure are the status, result and failure of that row; it is a replay exactly when the row was there before, and then nothing is written but the message; a first answer that is processed gives the balance of the committed wallet, and its row, wallet, entry, events, schedule and inbox are stated field by field |
| `Failures.FailsExactly` | internal/application/process_wager.go:101-195 | an arrival fails exactly for a cause read off the request and the stored rows (message identity, admission, inbox conflict, a row that shares an identity, no wallet, a wallet of another, no version left), with the error of the first cause, and then writes nothing |
| `Statuses.FirstStatusExactly` | internal/application/process_wager.go:202-270 | the status, failure and link of a first answer, each exactly for its cause, by the operation referred to, a scan for its reversal, and the balance before |
| `Statuses.ClaimStatusExactly` | internal/application/retry_references.go:55-102 | the same for a claim, which gives up exactly when the attempts are used up or the last one still waits |
| `Effects.EnactedLeaves` | internal/application/process_wager.go:246-331 | what a step leaves, field by field and by the final row alone: the row, the moved wallet with one version more, the entry between the two balances, and the events with their tracing, wallet and instant; nothing else changes |
| `Steps.EnactedKeepsInv` | internal/application/process_wager.go:202-331 | whatever a step decides, carrying it out keeps wallets, rows, indexes, links, ledger, sums, event stream, inbox and identities in agreement |
| `UseCases.SubmitKeepsInv` | internal/application/process_wager.go:101-147 | a submission keeps the invariant, whatever it answers |
| `UseCases.ReceiveKeepsInv` | internal/application/process_wager.go:148-173 | a message, new or duplicate, keeps the invariant; every committed inbox row is completed and has its wager |
| `UseCases.RetryKeepsInv` | internal/application/retry_references.go:55-102 | a claim keeps the invariant |
| `Opening.OpenKeepsInv` | internal/application/open_wallet.go:26-86 | opening a wallet, with or without money, keeps the invariant |
| `Opening.OpensExactly` | internal/application/open_wallet.go:26-86 | opening succeeds exactly for a player that is not nil and an amount of a known currency that is not negative, with no wallet of that player and currency and a fresh identity, and else with the error of its cause; the stored row has that player, that balance in its currency, version 1 and the instant, and with money its operation, entry and two events are stated field by field |
| `Concurrency.OpeningIsAnswered` | internal/application/open_wallet.go:26-86 | the wallet that a concurrent opening answers is the row that its commit stores |
| `UseCases.PendingIsClaimable` | internal/infrastructure/postgres/reference_repository.go:14-50 | every waiting row that is due can be claimed: its wallet and the tracing of its waiting event are there |
| `UseCases.DigestIdentifiesOperation` | internal/application/wager_payload.go:27-64 | two requests have one digest exactly when they differ at most in the key and the tracing |
| `Runs.RunKeepsInv` | migrations/000002_transactional_storage.up.sql:203-237 | every run of openings, submissions, messages and retries keeps the invariant |
| `Runs.RunExtends` | migrations/000002_transactional_storage.up.sql:60-132 | over a run settled rows never change, business fields never change, and ledger, events, inbox and indexes only grow |
| `NetEffect.EffectiveExactly` | internal/application/process_wager.go:228-244 | an operation is effective exactly when it is processed and no effective processed reversal refers to it |
| `NetEffect.BalanceIsNetEffect` | internal/application/process_wager.go:228-299 | in every consistent state the balance is the opening plus the effective wins less the effective bets |
| `NetEffect.EffectOfReversals` | internal/application/process_wager.go:228-244 | a rollback always takes effect, a refund or win exactly when not reversed, and a bet exactly when not reversed or when its refund was rolled back |
| `NetEffect.NetTotalMoves` | internal/application/process_wager.go:246-270 | a new operation moves the net total by exactly its signed amount, also when it undoes one that undid another |
| `EventStream.VersionsAreDistinct` | internal/domain/events.go:196-250 | no two balance changes of a wallet carry one version |
| `EventStream.NoVersionMissing` | internal/domain/events.go:196-250 | every version from the first (1 if opened with money, else 2) to the stored one is announced |
| `EventStream.VersionsAreInRange` | internal/domain/events.go:218-236 | every announced version lies between the first one and the stored one |
| `EventStream.StreamRebuildsBalance` | internal/application/process_wager.go:277-299 | taken in version order, each change starts where the one before ended, and they rebuild the balance |
| `EventPaths.EventsFollowPaths` | internal/application/process_wager.go:271-331 | after any run an operation has a waiting event exactly if it waited, once and before its outcome, the one outcome event of its final status with the stored row as snapshot, and a balance change exactly if it moved money |
| `Idempotency.AtMostOneOperation` | migrations/000001_initial_schema.up.sql:124-138 | no two stored operations of a provider share a key or an external identity |
| `Idempotency.LookupIsScan` | internal/application/process_wager.go:180-195 | the two lookups find an operation exactly when one shares an identity with the wager |
| `Idempotency.RepeatsChangeNothing` | internal/application/process_wager.go:180-195 | a submission that shares an identity with a stored operation replays it or conflicts, and changes nothing |
| `Idempotency.ExactlyOnce` | internal/application/process_wager.go:67-195 | first and again by request or by message, over any run in between: equal content under the same key gets the first operation again, unchanged once terminal; anything else that shares an identity gets a conflict; nothing is written but the registration of an answered message |
| `Idempotency.MessageOutcome` | internal/application/process_wager.go:148-173 | a successful message leaves a completed inbox row with its wager; a registered message is never found incomplete |
| `Idempotency.RedeliveryReplays` | internal/application/process_wager.go:148-173 | every later delivery of a treated message replays its operation and changes nothing |
| `Idempotency.DeletedHaveOutcome` | internal/infrastructure/messaging/sqs_consumer.go:165-227 | over any deliveries, crashes between commit and deletion, and other steps, a deleted message has a committed outcome |
| `Idempotency.ClaimAdvances` | internal/application/retry_references.go:73-93 | a committed claim ends the wait or adds one attempt below the limit, and changes nothing else of the row |
| `Idempotency.WaitsAreBounded` | internal/application/retry_references.go:73-93 | under one policy an operation is claimed at most as often as it has attempts left, and the last claim ends the wait, also in a cycle of references |
| `Idempotency.GivingUpExactly` | internal/application/retry_references.go:80-93 | below the limit, a claim rejects with REFERENCE_NOT_FOUND exactly when it is the last one and finds no reference or one that is not terminal |
| `Retries.ClaimLeaves` | internal/application/retry_references.go:73-102 | a committed claim leaves its row, its movement and its events, under the tracing of the event that announced the wait, and puts the next attempt off to its instant plus min(initial * 2^attempts, max) in whole microseconds |
| `Retries.NextClaimWaits` | internal/application/retry_references.go:28-37 | over any run, the next claim of an operation that a claim left waiting comes no earlier than that pause after it |
| `Retries.ClaimableExactly` | internal/infrastructure/postgres/reference_repository.go:14-50 | a waiting operation can be claimed exactly from its next instant on |
| `Confluence.LateReferenceConverges` | internal/application/process_wager.go:202-237 | dependent first, reference second and one retry third leave the same wallets, operations, links and ledger, but for instants and entry identities, as reference first and dependent second, whenever the reference settles on its own |
| `Confluence.DecideIgnoresTime` | internal/application/process_wager.go:202-299 | decisions do not depend on any instant |
| `Schema.ValidRowPasses` | migrations/000002_transactional_storage.up.sql:6-37 | a valid wager passes every check constraint on its row, whatever its status |
| `Schema.LinkPasses` | migrations/000002_transactional_storage.up.sql:83-101 | a link accepted by the program passes the reference part of the row trigger |
| `Schema.EntryPasses` | migrations/000002_transactional_storage.up.sql:110-132 | an entry of the program passes the ledger checks and the ledger trigger |
| `Schema.ConsistentPasses` | migrations/000002_transactional_storage.up.sql:187-249 | a consistent database passes the deferred checks of every wallet and of the inbox |
| `Tables.RowChecksExactly` | migrations/000002_transactional_storage.up.sql:6-37 | the checks of a wager row, both directions, by kind, status, texts, result, failure and reference |
| `Tables.RulesExactly` | internal/domain/wager_transaction_state.go:90-160 | the validity of the program is the checks of the row, of a settled opening too, and exactly the other conditions stated (identities, currency, white space, links) |
| `Tables.LinkExactly` | migrations/000002_transactional_storage.up.sql:83-101 | beside sound rows the reference part of the row trigger accepts exactly a link to a processed operation of the same owner, currency and round with a kind and an amount that fit |
| `Tables.AcceptedExactly` | migrations/000002_transactional_storage.up.sql:6-157 | each of the six writes is accepted exactly when what it stores is sound beside the stored rows and no stored row, by a scan, is in its way |
| `Tables.TablesStaySound` | migrations/000002_transactional_storage.up.sql:6-157 | whatever sequence of writes is sent to the storage, every row, link, entry, event and wallet stays sound, and a player has one wallet of a currency |
| `Tables.SoundFromTheStart` | migrations/000001_initial_schema.up.sql:60-172 | from the empty tables on, after any sequence of writes, all of that holds |
| `Tables.RowsGoForward` | migrations/000002_transactional_storage.up.sql:60-82 | under any writes a row keeps its business fields and its link, never becomes pending again once it waits, and never changes once settled |
| `Tables.CommitsExactly` | migrations/000002_transactional_storage.up.sql:187-249 | a commit is accepted exactly when every wallet holds the sum of its entries and one version for each movement, every processed movement has its entry, and every message is completed |
| `Writes.UpdatePasses` | migrations/000002_transactional_storage.up.sql:60-105 | every update of a step passes the row checks, the trigger and the unique index of reversals, also for rejected rows with a resolved reference |
| `Writes.MarksPass` | internal/domain/wager_transaction.go:254-322 | the status changes that lead to the row of a step succeed |
| `Writes.EntryMakes` | internal/domain/wallet_ledger_entry.go:43-79 | once the wallet has moved, the ledger entry and its balance change can be made |
| `Writes.OutcomeAnnounces` | internal/domain/events.go:85-177 | the outcome event of a step can be made |
| `Writes.EventPasses` | internal/infrastructure/postgres/outbox_repository.go:18-56 | an event of a step is accepted by the outbox |
| `Storage.Session.FindWalletForUpdate` | internal/infrastructure/postgres/wallet_repository.go:108-195 | gives an object with the stored row, or says that there is none or that it is invalid |
| `Storage.Session.ScheduleReferenceRetry` | internal/infrastructure/postgres/reference_repository.go:52-63 | sets attempts and next instant of a waiting row, and of no other |
| `Storage.Session.RegisterMessage` | internal/infrastructure/postgres/inbox_repository.go:14-37 | registers a new message, or reports a duplicate, a conflict or an incomplete treatment |
| `Storage.Session.CompleteMessage` | internal/infrastructure/postgres/inbox_repository.go:39-49 | completes a registered message and keeps its body |
| `Guards.WritesAreGuarded` | migrations/000002_transactional_storage.up.sql:40-135 | whatever sequence of writes is sent to the storage, keys stay unique, no operation is reversed or booked twice, settled rows stay as they are, wallet versions only rise, and ledger and outbox only grow |
| `Guards.KeysFromTheStart` | migrations/000001_initial_schema.up.sql:124-172 | after any sequence of writes to empty tables, rows are under their keys, each operation has at most one processed reversal and one entry, and entries and events have distinct identities |
| `Guards.StaleUpdatesAreRefused` | internal/infrastructure/postgres/wallet_repository.go:197-230 | once an update of a wallet has taken effect, no update from the same or an earlier version ever does, whatever is written in between |
| `Guards.SettledRowsStay` | internal/infrastructure/postgres/wager_repository.go:112-132 | a settled row keeps its outcome whatever is written, and every later update of it is refused |
| `Guards.IdentitiesAreTakenOnce` | internal/infrastructure/postgres/wager_repository.go:18-48 | once an operation is stored, no other one with its identity, its key or its external identity ever is |
| `Guards.EntriesAreBookedOnce` | internal/infrastructure/postgres/ledger_repository.go:15-30 | once an operation of a wallet is booked, no second entry for it is ever accepted |
| `Guards.EventsAreStoredOnce` | internal/infrastructure/postgres/outbox_repository.go:18-56 | once an event is stored, the same event changes nothing and another one under its identity is refused, for ever |
| `Processing.ProcessWager` | internal/application/process_wager.go:202-237 | decides what the engine decides and leaves the wager, the wallet and the view that the engine describes; it fails only where the decision is to abort |
| `Processing.SettleWager` | internal/application/process_wager.go:239-270 | moves the wallet and settles the wager, or rejects it with the code of the failed movement |
| `Processing.BookWager` | internal/application/process_wager.go:267-283 | stores the moved wallet, the settled wager and its outcome event; never fails |
| `Processing.PostMovement` | internal/application/process_wager.go:284-299 | stores the entry of a movement and its balance change; never fails |
| `Processing.RejectWager` | internal/application/process_wager.go:301-313 | stores the rejection and its event; never fails |
| `Processing.WaitForReference` | internal/application/process_wager.go:315-331 | stores the wait and its event once; a wager that already waits changes nothing; never fails |
| `Processing.LookupsAgree` | internal/infrastructure/postgres/wager_repository.go:60-110 | the lookups of a step see the committed rows and its own new row, and the reversal scan agrees with the unique index |
| `Services.FindWagerReplay` | internal/application/process_wager.go:180-195 | the stored operation that a wager repeats, compared by digest and key |
| `Services.Process` | internal/application/process_wager.go:101-147 | inside one transaction, answers and leaves what the serial submission does |
| `Services.TreatMessage` | internal/application/process_wager.go:148-173 | registers, treats and completes a message, or replays it |
| `Services.ExecuteWager` | internal/application/process_wager.go:67-178 | answer and committed data are those of the serial step for requests and messages, which AnswersExactly and FailsExactly state field by field; a failure commits nothing, and no write is ever refused |
| `Services.AttemptReference` | internal/application/retry_references.go:73-93 | counts the attempt first, puts the next one off by the delay of this one, then decides, and gives up after the last one, which ClaimLeaves and ClaimStatusExactly state field by field |
| `Services.ClaimPendingReference` | internal/infrastructure/postgres/reference_repository.go:14-50 | claims a waiting row that was due first, and none only when none is due |
| `Services.RetryReferences` | internal/application/retry_references.go:55-102 | refuses a policy outside its limits; else claims a waiting row due before any other, or none exactly when none is due, commits the serial claim of it (stated field by field in ClaimLeaves) and reports what is committed |
| `Services.OpenWallet` | internal/application/open_wallet.go:26-86 | commits what OpensExactly states and answers the stored row, or commits nothing with the error of the cause |
| `Guarantees.ReachableIsConsistent` | migrations/000002_transactional_storage.up.sql:203-237 | the invariant holds after every run from the empty database |
| `Guarantees.BooksAgree` | internal/application/reconcile_wallet.go:27-47 | after any run balance and version agree with the ledger, the deferred checks pass, and the wallet reconciles |
| `Guarantees.OneEntryEach` | migrations/000002_transactional_storage.up.sql:228-233 | exactly the processed operations other than losses have an entry, and each has one |
| `Guarantees.EntriesChain` | migrations/000002_transactional_storage.up.sql:203-237 | in commit order the entries of a wallet lead from zero to its balance, each from where the one before ended |
| `Guarantees.BalancesAreNetEffects` | internal/application/process_wager.go:228-299 | after any run each balance is the net of the effective operations |
| `Guarantees.StreamsRebuildWallets` | internal/application/process_wager.go:277-299 | after any run the balance changes of a wallet rebuild it |
| `Guarantees.SampleRuns` | internal/application/process_wager.go:239-299 | runs exist: for every opening amount and every stake that it covers, opening a wallet and betting is a run, and leaves the difference |
| `Guarantees.LinksJoin` | internal/domain/wager_transaction.go:367-403 | a link joins two different operations of one provider, wallet, player, currency and round, the second one processed and of a fitting kind |
| `Guarantees.ChainsAreShort` | internal/domain/wager_transaction.go:390-399 | a chain of links has at most two: a rollback of a win or refund of a bet |
| `Guarantees.OneReversalEach` | migrations/000002_transactional_storage.up.sql:40-43 | no operation has two processed reversals |
| `Guarantees.LinksPointBack` | internal/domain/wager_transaction.go:387-389 | what an entry's operation refers to has its own entry earlier in the ledger |
| `Guarantees.StatusesOfRows` | internal/application/process_wager.go:315-331 | a committed row waits without a link or is processed or rejected; none is pending or failed |
| `Guarantees.WaitsHaveAttemptsLeft` | internal/application/retry_references.go:73-93 | under one policy no run leaves an operation waiting with its attempts used up |
| `Guarantees.EveryWaitEnds` | internal/application/retry_references.go:73-93 | from the empty database on, an operation that waits is claimed at most the policy's number of times, and then no longer waits |
| `Guarantees.ReadersMissNothing` | internal/application/list_ledger.go:38-81 | whatever runs between the pages that a client reads, from the empty database on, its cursors are accepted and each entry of the wallet that was there at the start is read exactly once |
| `Concurrency.EveryInterleavingIsSafe` | internal/application/process_wager.go:101-178 | for every interleaving of statements, crashes and clock ticks, whatever the operations refer to, every commit leaves consistent data that later ones only extend, each step is the work of one worker, and every answer is the serial one on data committed in its worker's life, except a late wait of an operation that refers to a stored one of another wallet |
| `Concurrency.SerialEquivalence` | internal/application/process_wager.go:101-178 | unless one submission refers to another across wallets, the committed data are those of the serial run in commit order, one step for each worker that committed, of its own job, and every answer (of submissions, messages, openings and claims) is the serial one at a moment of its worker's life |
| `Crossing.SerialExactly` | internal/application/process_wager.go:202-244 | two submissions of different operations that go through commit serially in every interleaving exactly when neither needs a reference to the other from another wallet, and are answered serially then |
| `MissedReferences.CrossedRefundsBothWait` | internal/application/process_wager.go:202-244 | a concrete interleaving from the empty data leaves two refunds, each of the other across wallets, waiting; no serial run of any steps leaves these data |
| `MissedReferences.SerialRunsKeepApart` | internal/application/process_wager.go:202-237 | after any serial run no two waiting operations refer to each other across wallets |
| `Concurrency.RefusedRowsConflict` | internal/application/process_wager.go:132-146 | a new row refused under the lock always ends in an idempotency conflict |
| `Concurrency.DuplicatesAreAnswered` | internal/application/process_wager.go:150-165 | under any interleaving a duplicate message finds its operation and is never incomplete |
| `Concurrency.NoMessageIsIncomplete` | internal/infrastructure/postgres/inbox_repository.go:24-36 | under any interleaving no message is ever answered as incomplete |
| `Progress.SomeoneMoves` | internal/infrastructure/postgres/reference_repository.go:14-37 | in every interleaving, whenever a worker is active, some active worker is not blocked: no wait closes a cycle |
| `Progress.WaitsGoUp` | internal/application/process_wager.go:101-173 | in every interleaving a worker that makes another wait is active and further on in the order inbox key, wallet, wager keys |
| `Linearization.ActionKeeps` | internal/application/process_wager.go:101-178 | every statement, start, crash and tick keeps what is known of all workers and of the history of commits |
| `Commits.DecisionStays` | internal/application/process_wager.go:202-244 | what a worker decides under its wallet's lock stays what the serial step decides, whatever others commit, unless it is what it refers to across wallets |
| `Commits.DecisionStaysOrIsLate` | internal/application/process_wager.go:202-244 | in any case a decision that no longer is the serial one was to wait, and the reference now is an operation of another wallet |
| `Serialization.TakenConflicts` | internal/application/process_wager.go:132-146 | an identity taken by another wallet is a conflict, whatever the content |
| `Serialization.ReadsDecide` | internal/application/process_wager.go:202-237 | the reads of a worker decide what the serial step decides on the same data |
| `Outbox.OutboxPublisherRepository.Claim` | internal/infrastructure/postgres/outbox_publisher_repository.go:22-50 | leases, under the new token and for the whole microseconds, a row that is not published, due, without a running lease and due first, and counts one attempt; none only when there is none; no other row and column changes |
| `Outbox.OutboxPublisherRepository.MarkPublished` | internal/infrastructure/postgres/outbox_publisher_repository.go:52-64 | marks the row as published now, and ends its lease, exactly when the token still owns it before its lease ends; stated on the columns |
| `Outbox.OutboxPublisherRepository.Retry` | internal/infrastructure/postgres/outbox_publisher_repository.go:66-79 | exactly when the token still owns the row before its lease ends, it is next due the whole microseconds of the delay from now, without a lease, with event and attempts kept |
| `Outbox.PublishNext` | internal/application/publish_outbox.go:46-65 | refuses a policy outside its limits; claims the event that was due first, and confirms it, or makes it due after min(initial * 2^(attempts-1), max), or leaves it under its lease when cancelled or too late; stated on the columns |
| `OutboxLease.OnlyTheOwnerWrites` | internal/infrastructure/postgres/outbox_publisher_repository.go:52-79 | a confirmation or a rescheduling changes a row exactly when it comes from its owner |
| `OutboxLease.OneOwner` | internal/infrastructure/postgres/outbox_publisher_repository.go:52-79 | no two attempts own a row at the same time |
| `OutboxLease.FormerForever` | internal/infrastructure/postgres/outbox_publisher_repository.go:52-79 | an attempt that lost its lease never owns its row again, over any run |
| `OutboxLease.PublishedForever` | migrations/000002_transactional_storage.up.sql:173-184 | a published row is never claimed again and never changes; the event of a row never changes |
| `OutboxLease.PublishedMeansArrived` | internal/application/publish_outbox.go:54-64 | over any run a published row had an arrived send of its original event |
| `OutboxLease.RescheduledRowsRest` | internal/infrastructure/postgres/outbox_publisher_repository.go:22-79 | over any run a rescheduled row is not claimed before the whole microseconds of its delay have passed, and may be claimed exactly from then on |
| `OutboxLease.AddedRowsWait` | internal/infrastructure/postgres/outbox_repository.go:18-56 | over any run a new event may be claimed at any time until it is |
| `OutboxLease.CrashedClaimsReturn` | internal/infrastructure/postgres/outbox_publisher_repository.go:22-50 | over any run the event of a publisher that crashed after its claim may be claimed again exactly when the whole microseconds of its lease have passed |
| `OutboxLease.OverlapExactly` | internal/infrastructure/workers/outbox_worker.go:46-54 | two sends of one event overlap in some run exactly when the lease, cut to microseconds, does not outlast the attempt timeout |
| `OutboxLease.WholeMicrosecondsAreSafe` | internal/infrastructure/workers/outbox_worker.go:46-54 | with durations in whole microseconds the configuration check is enough: sends never overlap |
| `OutboxLease.TheCheckIsNotEnough` | internal/infrastructure/workers/outbox_worker.go:46-54 | a lease of 1500 ns with a timeout of 1200 ns passes the check and lets two sends overlap |
| `Pagination.ListLedger` | internal/infrastructure/postgres/wallet_queries.go:22-65 | the entries of the wallet after the position, newest first, cut at the limit |
| `Pagination.ListPage` | internal/application/list_ledger.go:27-57 | the page of the limit, newest first by instant and identity, with a cursor at its last entry exactly when there is another page, or the error of the first failed check, each check stated on the cursor itself |
| `Pagination.LookAhead` | internal/application/list_ledger.go:38-56 | the one row more that is asked for tells exactly whether there is another page |
| `Pagination.CursorsComeBack` | internal/application/list_ledger.go:59-81 | a cursor decodes to the position that it was made from for its own wallet, and is refused for any other |
| `Pagination.PagesDescend` | internal/infrastructure/postgres/wallet_queries.go:35-39 | whatever is appended between pages, the entries read are strictly descending and belong to the wallet |
| `Pagination.EachEntryOnce` | internal/application/list_ledger.go:38-56 | following cursors, every entry that was there at the start is read exactly once, whatever is appended between pages |
| `Pagination.ExactlyTheLedger` | internal/application/list_ledger.go:38-56 | with nothing appended, the pages hold the entries of the wallet and nothing else |
| `Pagination.PagesAreFew` | internal/application/list_ledger.go:38-56 | with nothing appended, a client that follows cursors reads at most |entries| / limit + 1 pages, each but the last one full |
| `Pagination.AlwaysReconciles` | internal/infrastructure/postgres/wallet_queries.go:67-99 | in a consistent database every wallet reconciles, however much moved through it |
| `Pagination.ReconcilesExactly` | internal/application/reconcile_wallet.go:27-47 | for any stored data: each error for its cause, the exact difference, consistent exactly when the balance is the sum of the entries, and the number of places in the ledger that hold an entry of the wallet |
| `Consumer.Handle` | internal/infrastructure/messaging/sqs_consumer.go:165-227 | deletes only a message whose outcome is committed; fails exactly for a stated cause, and makes the message visible at once exactly when the cause lies in the message or in rows that stay (parsing, provider, group, admission, message identity, identity conflict, wallet of another), and else after min(2^(receipts-1), 60) seconds |
| `Consumer.PermanentFailuresPersist` | internal/infrastructure/messaging/sqs_consumer.go:259-270 | a failure that counts as permanent is one again for every later delivery on any later data |

## Left out

- ExecuteWager: models one clock reading for all instants of a step, where the program reads the clock at each status change, because only the order of the readings matters to the rules.
- SerialEquivalence: opening a wallet is one atomic step; a claim that finds no row to claim ends without an answer, because it skips locked rows and so depends on the moment.
- SomeoneMoves: does not model waits inside the storage other than those for wallets, keys and messages, because no statement of the program causes any other.
- LateReferenceConverges: does not compare the outbox, because the late order has one waiting event more.
- ClaimPendingReference: any of several rows due at the same instant may be claimed, where the storage takes the least identity.
- Claim: any of several events due at the same instant may be claimed, where the storage takes the least identity.
- PublishNext: the error is the one of the storage; the error of a refused send, which the program joins to it, is the `send` input.
- ListPage: the cursor is a value with its wallet and position, or malformed; its JSON and base64 bytes and their length limit are not modelled.
- RegisterMessage: one consumer name; the stored body hash is the body itself.
- StreamRebuildsBalance: speaks of events by version, not by arrival, because the broker may reorder them.
- EntriesChain: is stated in commit order; the order by creation instant is the commit order only with one clock.
- HTTP handlers, authentication, JSON decoding, configuration, metrics, logging and health checks: input and output without a lasting invariant; the authorized provider is an input.
- The message broker beyond repeated delivery, deletion and the visibility delay: visibility timeouts and the dead-letter queue are outside the program.
- Unicode: texts are sequences of characters with the white space of the trimming function; invalid encodings and NUL characters are not modelled.
- The status FAILED as an outcome: the domain allows it, no use case writes it; it is a status that stored references may have in the rules.
- Cancellation of a request in the middle: it is a crash before the commit.
- Clock skew between hosts.
