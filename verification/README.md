# A verified model of the wagering ledger

HTTP requests and queue messages reach a wallet and wager service. Each of them becomes
one database transaction over wallets, wager transactions, an append-only ledger, an
inbox and an outbox. A reference worker later decides operations whose reference had not
arrived, and outbox workers publish the stored events under leases. This project models
that system in Dafny and proves what its design promises.

`dafny verify dfyconfig.toml` checks everything. Layers, bottom up:

| files | content |
|---|---|
| `Base`, `Money`, `Backoff` | results and errors, int64 money with its decimal text, the three backoff loops |
| `Domain`, `Aggregates`, `Contracts` | wallets, ledger entries and wager transactions as values and as objects that update in place; commands, messages, events |
| `Database`, `Storage` | the tables with every CHECK, key, index and trigger; a transaction over a working copy, statement by statement |
| `Decisions`, `Invariants` | the decision taken from the rows read, its write set, and the invariant `Valid` of the committed database |
| `Preservation`, `Admission`, `Conservation`, `Consequences` | commits keep `Valid`; no guard fires; balances are conserved; what `Valid` means to a reader |
| `Calls`, `Creation`, `WagerService`, `WalletService` | each call as one function of the committed database, and the imperative services proved to compute it |
| `Contents`, `Requests`, `Envelopes` | what decisions, calls and queue messages leave and answer, column by column and event by event; where every stored row comes from |
| `History`, `Waiting` | whole sequences of calls: what was answered stays answered, waiting ends |
| `Interleaving`, `Locking` | concurrent calls statement by statement, with locks and committed reads: no deadlock, no refused commit, a valid database |
| `Atomicity` | exactly which interleaved calls commit what the whole call would |
| `WholeCalls`, `Serial`, `Overtaking` | every sequence of whole calls is an interleaving; an interleaving that no sequence of whole calls equals |
| `Delivery`, `Leases`, `Paging` | queue deliveries with crashes, outbox leases with many workers, keyset pagination |
| `Interleaved`, `Handling` | what `History`, `Waiting` and `Delivery` prove of calls in sequence, for whole interleavings, and for consumers whose calls interleave |

Two forms of the same operation appear on purpose: a specification function (for example
`Calls.ProcessOutcome`) and the method that works as the source does (for example
`WagerService.Service.Process`), proved equal to it. What that function means for the stored columns, the
events and the answer is proved without its helpers in `Contents`, `Requests` and `Envelopes`. `Interleaving` is a third form, in
statements, proved to commit what the function says except where the second finding below
applies (`Atomicity.ProcessIsAtomic`, `Atomicity.WorkerIsAtomic`).

The invariant `Invariants.Valid` joins: unique keys and external identifiers, payload hashes
that are those of the columns stored beside them, one reversal per reference, terminal references that were committed before, one ledger entry for each
processed transaction that moves money, balances equal to ledger sums and chained within
0..MaxInt64, versions that count movements, and an outbox with exactly one terminal event
per terminal row, one pending event per row that ever waited, and one balance event per
ledger entry.

Assumptions, as parameters or stated preconditions: the configuration that
`internal/config/config.go:60-70` validates (`MaxAttempts >= 1`, `0 < base <= maximum`); a
clock that does not read the zero time; identifiers that are new when generated; payload
and body hashes that are injective, so the hashed value stands for its hash; a table of
currency codes that is left open, so every result holds for every table.

The clocks of the outbox workers may differ from each other: the results about leases are
stated for any bound on how far a clock is off.

## Findings

* `Money.Subtract` refuses every subtraction of the least int64, also where the difference
  is representable (internal/domain/money.go:163-179). `MoneyValue.SubtractIncomplete` says
  exactly when. No service path reaches it.
* Rejections for a missing reference are not serializable, since the reference is read
  without a lock (internal/application/wager_service.go:172-188 and 266-280).
  An interleaved call commits what the whole call would commit alone at that moment if and
  only if its reference was not missing or waiting when it was read and terminal by the
  commit (`Atomicity.ProcessIsAtomic`, `Atomicity.WorkerIsAtomic`). Such a call waits or
  gives up and never moves money (`Atomicity.MoneyIsSteady`). With attempts left the row
  waits for its next visit. With none left, two rows of different wallets that refer to each
  other can both be rejected as `REFERENCE_NOT_FOUND`. No sequence of whole calls, of any
  kind and number, ever does that (`Serial.NeverCrossed`).
  `Overtaking.RefusalsAreNotSerializable` reaches such a run from an empty database, with the
  state in which the second call is overtaken. Longer cycles of references fall under the
  same condition.
* Clocks that differ let two outbox workers hold a lease on the same event before the first
  lease has ended on the true clock (internal/infrastructure/messaging/outbox_worker.go:73-74,
  internal/infrastructure/postgres/store.go:136-142). A lease is exclusive until `skew` before its end,
  and with one unit less it is not (`Leases.LeasesAreDisjoint`, `Leases.LeasesOverlap`).

## Model

| member | source | states |
|---|---|---|
| MoneyValue.Money.Add | internal/domain/money.go:152-161 | Addition succeeds exactly when the currencies are valid and equal and the true sum is an int64, and then it is the true sum; its only other error is overflow. |
| MoneyValue.Money.Subtract | internal/domain/money.go:163-169 | Subtraction is exact, and fails on range, on currency, or when the subtrahend is the least int64. |
| MoneyValue.SubtractIncomplete | internal/domain/money.go:163-179 | A representable difference is refused exactly when the subtrahend is the least int64, which needs a negative minuend. |
| MoneyValue.Money.Compare | internal/domain/money.go:181-193 | Comparison is defined exactly on compatible amounts; its sign is the order of the amounts, and 0 means the same amount. |
| MoneyValue.PrintThenParse | internal/domain/money.go:133-150 | The canonical text of every non-negative amount parses back to that amount. |
| MoneyValue.ParseThenPrint | internal/domain/money.go:75-103 | Whatever text parses, the amount prints back as the very same text, so each amount has one spelling. |
| MoneyValue.ParseMoneyExact | internal/domain/money.go:75-103 | ParseMoney accepts a text exactly when it is the two-decimal spelling of an amount in 0..MaxInt64 and the currency is in the table. |
| MoneyValue.ParseIsPositional | internal/domain/money.go:75-103 | An amount is worth the positional value of its digits in minor units; any other form is invalid and a greater value overflows. |
| MoneyValue.Spellings | internal/domain/money.go:86-103 | "1.05" is 105 minor units and "0.00" is none; one digit of scale, a leading zero, a sign, or no point is refused. |
| MoneyValue.JsonRoundTrip | internal/domain/money.go:27-73 | JSON decoding undoes encoding for every valid amount, the least int64 included. |
| MoneyValue.AmountInjective | internal/domain/money.go:133-150 | Different int64 amounts have different texts. |
| Backoff.Delay | internal/application/wager_service.go:628-643 | The shared loop returns min(base * 2^(attempt-1), maximum) for every attempt count, without leaving int64, between base and maximum. |
| Backoff.OutboxDelay | internal/infrastructure/messaging/outbox_worker.go:127-136 | The outbox loop returns min(2^(attempt-1) seconds, 5 minutes) although it caps only after doubling. |
| Backoff.CappedMonotone | internal/infrastructure/messaging/consumer.go:314-329 | Later attempts never wait less, and every delay stays within its bounds. |
| Backoff.CapIsReached | internal/infrastructure/messaging/consumer.go:314-329 | From some attempt on, the delay is the maximum. |
| Backoff.DoubledIsPower | internal/application/wager_service.go:628-643 | Repeated doubling is multiplication by a power of two. |
| Backoff.CappedIsExact | internal/application/wager_service.go:628-643 | The delay is the base for attempts up to 1, and from then on base * 2^(attempt-1) or the maximum, whichever is smaller. |
| Backoff.ReferenceDelay | internal/application/wager_service.go:178-181 | The delay before the next attempt is the smaller of base * 2^attempts and the maximum, and positive, so the next attempt lies after now. |
| Domain.MoveWalletExact | internal/domain/wallet.go:56-89 | A debit or credit succeeds exactly when the new balance is in 0..MaxInt64; only debits lack funds, only credits overflow. |
| Domain.PersistenceRoundTrip | internal/domain/transaction.go:68-242 | After any successful transitions since construction, writing the aggregate to columns and rehydrating it gives the same aggregate. |
| Domain.TerminalIsFinal | internal/domain/transaction.go:178-246 | No transition leaves a terminal state. |
| Aggregates.Wallet.Debit | internal/domain/wallet.go:56-70 | The object ends as the domain function says, or reports its error unchanged; before and after are the balances around the movement. |
| Aggregates.Wallet.Credit | internal/domain/wallet.go:72-89 | As Debit, for credits. |
| Aggregates.WagerTransaction.MarkPendingReference | internal/domain/transaction.go:178-189 | The row waits with one more attempt and a later next attempt, or the transition is refused and nothing changes. |
| Aggregates.WagerTransaction.ResolveReference | internal/domain/transaction.go:191-201 | The reference is linked and the row is pending again, or nothing changes. |
| Aggregates.WagerTransaction.MarkProcessed | internal/domain/transaction.go:203-215 | The row is processed with its result balance, or nothing changes. |
| Aggregates.WagerTransaction.Reject | internal/domain/transaction.go:217-228 | The row is rejected with code and balance, or nothing changes. |
| Aggregates.WagerTransaction.Fail | internal/domain/transaction.go:230-242 | The row is failed with code and balance, or nothing changes. |
| Contracts.PayloadDistinguishes | internal/application/wager_service.go:655-673 | Two commands have the same payload hash exactly when they agree on every business field, whatever key, correlation and message they carry. |
| Storage.TxStore.ClaimInbox | internal/infrastructure/postgres/store.go:190-213 | A claim reports a conflict for another body, completion for a completed message, and otherwise leaves an open row. |
| Storage.TxStore.CompleteInbox | internal/infrastructure/postgres/store.go:215-225 | The row of the message with this body is completed, or a conflict is reported. |
| Storage.TxStore.FindByIdempotency | internal/infrastructure/postgres/store.go:270-276 | In a valid database the query returns the one row under the key, rehydrated as stored, or none. |
| Storage.TxStore.UpdateWallet | internal/infrastructure/postgres/store.go:249-259 | The row is updated exactly when its stored version precedes the new one and the CHECKs hold; otherwise nothing changes. |
| Storage.TxStore.InsertTransaction | internal/infrastructure/postgres/store.go:294-308 | The row is inserted exactly when the CHECKs of the schema, currency pattern included, keys, the identity trigger and the unique indexes hold; a refused one changes nothing. |
| Storage.TxStore.EnforceWalletIdentity | internal/infrastructure/postgres/migrations/000002_auditable_identity_rejection.up.sql:7-20 | The trigger accepts exactly the rejected rows and those whose wallet has their player and currency. |
| Storage.TxStore.EnforceLedgerTransaction | internal/infrastructure/postgres/migrations/000003_ledger_transaction_guard.up.sql:1-52 | On rows that meet their CHECKs the trigger accepts exactly the movement of a processed transaction in the right direction. |
| Storage.TxStore.EnforceWalletBalance | internal/infrastructure/postgres/migrations/000004_wallet_ledger_consistency.up.sql:1-35 | The deferred trigger accepts exactly when the stored balance is the sum of the ledger. |
| Storage.TxStore.EnforceProcessedLedger | internal/infrastructure/postgres/migrations/000004_wallet_ledger_consistency.up.sql:37-69 | The deferred trigger accepts exactly when a processed transaction that is no loss has an entry. |
| Storage.TxStore.InsertLedger | internal/infrastructure/postgres/store.go:333-339 | An entry that meets keys, CHECKs and the transaction trigger is appended; a refused one changes nothing. |
| Storage.ValidMeetsDeferred | internal/infrastructure/postgres/migrations/000004_wallet_ledger_consistency.up.sql:1-69 | In a valid database neither deferred trigger refuses any wallet or transaction. |
| Decisions.MovableExact | internal/application/wager_service.go:360-395 | The movement step settles exactly a loss or a movement in its direction to a balance in 0..MaxInt64, refuses exactly a debit beyond the balance, and fails exactly on a credit past MaxInt64, the last version, or a rollback without reference. |
| Decisions.DecisionExact | internal/application/wager_service.go:266-298 | A transaction with a reference waits exactly while the reference is missing or undecided and attempts are left, and settles exactly when the reference is processed, matches, is not undone and the movement fits; a reversal moves against what it undoes. |
| Contents.FirstTable | internal/application/wager_service.go:158-250 | The first call refuses a wallet of another player or currency, then a reversal without reference, each with its code; with a reference it decides as below, and otherwise moves money. |
| Contents.DecisionTable | internal/application/wager_service.go:172-211 | By the status of the reference: wait until the smaller of base * 2^attempts and maximum has passed, or REFERENCE_NOT_FOUND without attempts left, or REFERENCE_NOT_PROCESSED, or the checks of the reference, or the movement. |
| Contents.ReferenceTable | internal/application/wager_service.go:559-603 | Which mismatch gets which failure code, in which order, by the columns of both rows. |
| Contents.MovementTable | internal/application/wager_service.go:349-400 | In figures: a bet or the rollback of anything but a bet debits, every other kind but a loss credits; which code, overflow or version error ends which movement. |
| Contents.CommitLeaves | internal/application/wager_service.go:349-557 | What each decision leaves: every column of the row, wallet and entry, every field of its events with their identifiers and trace, and nothing else. |
| Admission.DecisionJustified | internal/application/wager_service.go:266-298 | Even from a reference read earlier, every decision is justified by the rows committed now: context, kind, amount, single reversal and direction. |
| Admission.FirstDecisionJustified | internal/application/wager_service.go:164-250 | The same for the first call, with or without a reference. |
| Admission.FailureJustified | internal/application/wager_service.go:301-347 | Recording a failure is justified whenever the row waits. |
| Admission.RowGuardsAccept | internal/infrastructure/postgres/migrations/000001_initial.up.sql:16-76 | The row of every legal decision meets all CHECKs, keys, partial unique indexes and the wallet identity rule. |
| Admission.MovementGuardsAccept | internal/infrastructure/postgres/migrations/000003_ledger_transaction_guard.up.sql:1-61 | The version guard, the ledger constraints and trigger and the balance trigger accept every movement. |
| Admission.GuardsNeverFire | internal/infrastructure/postgres/migrations/000004_wallet_ledger_consistency.up.sql:1-69 | No CHECK, key, index, immediate or deferred trigger, or version guard ever refuses a legal commit. |
| Preservation.CommitKeepsValid | internal/application/wager_service.go:349-557 | Every legal commit, of any kind and status, keeps the whole invariant of the database. |
| Preservation.KeepBalances | internal/application/wager_service.go:396-426 | A commit keeps every balance equal to its ledger sum, chained in 0..MaxInt64, and every version equal to 1 plus the movements. |
| Preservation.KeepOutbox | internal/application/wager_service.go:427-557 | A commit adds exactly the events it owes: one terminal or one first pending event, and one balance event per entry, none for other rows. |
| Preservation.KeepOrder | internal/application/wager_service.go:172-211 | The reference of a ledgered transaction is already in the ledger before it. |
| Preservation.KeepKeys | internal/infrastructure/postgres/migrations/000001_initial.up.sql:68-76 | One transaction per key, per external identifier, one opening per wallet, one reversal per reference. |
| Conservation.BalanceConserved | internal/application/wager_service.go:364-385 | A wallet holds its opening plus every processed win not rolled back minus every processed bet not returned. |
| Conservation.StakeReturnedAtMostOnce | internal/application/wager_service.go:559-603 | A processed bet with its whole chain of reversals nets to minus its stake or to 0, never more. |
| Conservation.ChainNets | internal/application/wager_service.go:364-385 | The chain of any opening, bet or win nets to exactly what it is worth: its amount, or nothing once undone. |
| Conservation.UndoneIsReversed | internal/infrastructure/postgres/store.go:326-331 | The reversal query is true exactly when the ledger holds a movement that undoes the transaction. |
| Consequences.LedgerIsChain | internal/domain/ledger.go:22-54 | Each entry starts where the previous entry of its wallet ended, 0 for the first, moves by its amount, and stays in 0..MaxInt64. |
| Consequences.ChainEndsAtBalance | internal/domain/wallet.go:85-89 | The chain ends at the stored balance, and the version is 1 plus the number of entries that are not openings. |
| Consequences.FeedRebuildsBalance | internal/application/wager_service.go:455-479 | A wallet's balance events carry contiguous versions that end at the current one, and folding them in order rebuilds its balance. |
| Consequences.EventsAreComplete | internal/application/wager_service.go:427-557 | Exactly one terminal event exists for a terminal transaction and none for another, exactly one pending event for one that ever waited; field by field they repeat the columns of the row, its result balance included. |
| Consequences.BalanceEventsAreEntries | internal/application/wager_service.go:455-479 | There are as many balance events as ledger entries; each repeats the wallet, transaction, direction, amount and balances of an entry, and each entry has one. |
| Consequences.MovesMoneyOnce | internal/infrastructure/postgres/migrations/000004_wallet_ledger_consistency.up.sql:37-69 | A transaction has exactly one ledger entry if it is processed and no loss, and none otherwise. |
| Consequences.OneReversal | internal/infrastructure/postgres/migrations/000001_initial.up.sql:74-76 | At most one processed refund or rollback exists per transaction, on the same wallet with the same amount. |
| Consequences.ReferenceIsEarlier | internal/application/wager_service.go:270-297 | A processed transaction refers to one whose entry was committed strictly earlier. |
| Consequences.NoReferenceCycle | internal/application/wager_service.go:675-678 | No processed transaction refers to itself, directly or through others. |
| Calls.ProcessKeepsValid | internal/application/wager_service.go:51-254 | A successful call of Process keeps the invariant. |
| Calls.ResolveKeepsValid | internal/application/wager_service.go:256-299 | So does ResolvePendingReference. |
| Calls.RecordKeepsValid | internal/application/wager_service.go:301-347 | So does RecordPendingReferenceFailure. |
| Calls.BetIsExact | internal/application/wager_service.go:132-242 | A well-formed new bet on the player's own wallet is processed, with its stake taken, exactly when the funds suffice, and rejected with nothing moved otherwise. |
| Requests.RequestIsStored | internal/application/wager_service.go:142-156 | After a successful call under a free key, the row at the answered transaction is new and holds each field of the request and the time of the call; the answer states its status, code and wallet balance, and is no replay. |
| Requests.ProcessLeaves | internal/application/wager_service.go:88-242 | A new request leaves, column by column, what is decided about it, its events traced to the caller and the message, its message completed with the body received, and is answered with row and balance as the call leaves them. |
| Requests.RefusalTable | internal/application/wager_service.go:81-157 | Which requests are refused with which error, in which order; a request that is decided fails only on a credit past MaxInt64 or the last version. |
| Requests.RepeatIsExact | internal/application/wager_service.go:97-131 | A request under a known key is answered from the stored row, with its frozen balance once it is terminal, exactly when its fields are those of the row; otherwise it is refused. |
| Requests.HashCompares | internal/application/wager_service.go:655-673 | In a valid database, the stored hash is that of a request exactly when the stored columns are its fields. |
| Requests.ReferenceIs | internal/infrastructure/postgres/store.go:278-284 | The reference that is read is the row of the provider with the external identifier asked for, and the reversal query is true exactly when a processed refund or rollback names it. |
| Requests.EveryRowHasRequest | internal/application/wager_service.go:142-156 | In every run from the empty database, each row that is no opening holds each field of some request of the run. |
| Requests.ReferenceSharesContext | internal/application/wager_service.go:559-603 | In every run, a processed win, refund or rollback and the transaction it refers to came from two requests with the same provider, player, wallet, round and currency, of kinds that go together, and with the same money for a reversal. |
| Requests.ResolveLeaves | internal/application/wager_service.go:256-299 | A resolution leaves, column by column, what is decided about the waiting row, under the row's identifier as correlation. |
| Requests.RecordExact | internal/application/wager_service.go:301-347 | A recorded failure leaves the row waiting with one more attempt, until the smaller of base * 2^attempts and maximum has passed, and writes nothing else, exactly while attempts are left; otherwise the row fails with PROCESSING_ATTEMPTS_EXHAUSTED, the wallet's balance and one event. |
| Creation.CreateKeepsValid | internal/application/wallet_service.go:64-138 | Creating a wallet, with its opening, entry and two events, keeps the invariant. |
| Requests.CreateExact | internal/application/wallet_service.go:33-152 | Creation succeeds exactly when the request is valid, not negative, and player and currency are free; the stored wallet has the initial balance, and unless that is zero there are one opening, one credit entry and two events of exactly that amount. |
| WagerService.Service.Move | internal/application/wager_service.go:360-385 | The wallet moves in the direction of the kind and reference, or the error of the movement is reported. |
| WagerService.Service.ReferenceFailureOf | internal/application/wager_service.go:559-603 | The step-by-step checks give the failure code of the specification. |
| WagerService.Service.RejectIn | internal/application/wager_service.go:484-526 | The row turns terminal with the current balance and its event is stored, and no guard refuses it. |
| WagerService.Service.Finalize | internal/application/wager_service.go:349-482 | The movement, row, ledger and event statements leave exactly the write set of the decision, or a rejection for lack of funds; Contents.CommitLeaves states every column of it. |
| WagerService.Service.ProcessIn | internal/application/wager_service.go:96-242 | The statements of Process, with claim and completion of the message, leave exactly the database and result that the specification says; Requests.ProcessLeaves states every column of them. |
| WagerService.Service.Process | internal/application/wager_service.go:51-254 | The call commits what the specification says (column by column in Requests.RequestIsStored and Requests.ProcessLeaves), or reports its error and leaves the store unchanged; the store stays valid. |
| WagerService.Service.ResolvePendingReference | internal/application/wager_service.go:256-299 | The same for the worker's resolution. |
| WagerService.Service.RecordPendingReferenceFailure | internal/application/wager_service.go:301-347 | The same for a recorded failure, whose specification Requests.RecordExact spells out. |
| WalletService.Service.Create | internal/application/wallet_service.go:33-152 | Creation commits wallet, opening, entry and events together, or nothing, as Requests.CreateExact spells out, and the store stays valid. |
| WalletService.OpeningAccepted | internal/infrastructure/postgres/store.go:261-268 | The opening row and its entry pass every CHECK, key, index and trigger of the database that holds the new wallet. |
| WalletService.LedgerExplainsBalance | internal/infrastructure/postgres/store.go:347-354 | Credits minus debits of a wallet are exactly its stored balance. |
| WalletService.CountIsExact | internal/infrastructure/postgres/store.go:347-354 | The count of checked entries is the number of ledger entries of the wallet in its currency. |
| WalletService.Service.Reconcile | internal/application/wallet_service.go:199-238 | Reconciliation of a known wallet reports difference 0 with the number of entries exactly when credits and debits each fit a bigint, and fails otherwise. |
| History.ExecuteKeepsValid | internal/infrastructure/postgres/store.go:25-35 | After any sequence of calls, failures and crashes the database is valid. |
| History.ExecuteExtends | internal/infrastructure/postgres/migrations/000001_initial.up.sql:99-148 | Whatever calls follow, terminal rows, ledger entries, events and completed messages stay as committed. |
| History.KnownKey | internal/application/wager_service.go:114-131 | A request under a known key is replayed with no row changed if payload and message agree, and refused otherwise. |
| History.ReplaysForever | internal/application/wager_service.go:605-619 | After any later calls, repeating an answered request returns the same transaction marked as a replay, and the same status, balance and code if it was terminal. |
| History.OtherPayloadRefused | internal/application/wager_service.go:118-121 | The same key with another payload is refused at any later time, and the store is unchanged. |
| Waiting.AttemptsBounded | internal/application/wager_service.go:271-279 | In every run a waiting row has between 1 and MaxAttempts attempts, and no PENDING row is committed. |
| Waiting.VisitProgress | internal/application/wager_service.go:256-347 | A committed visit of the worker ends a waiting row or uses up one attempt; no other call touches it. |
| Waiting.VisitsAreAttempts | internal/infrastructure/messaging/reference_worker.go:57-97 | While a row waits, its attempts have risen by exactly the number of committed visits. |
| Waiting.WaitingEnds | internal/application/wager_service.go:256-347 | After more committed visits than attempts were left the row is terminal. |
| Waiting.Visit | internal/infrastructure/messaging/reference_worker.go:78-95 | Resolving, and recording the failure when that fails, always ends a waiting row or uses up one attempt. |
| Waiting.ResolveErrors | internal/application/wager_service.go:256-299 | Resolution fails only for an unknown row, a credit past MaxInt64 or an exhausted version; never on a transition, a reference or a guard. |
| Waiting.ProcessErrors | internal/application/wager_service.go:51-254 | Process fails only for a malformed or conflicting request, an unknown wallet, or such an overflow. |
| Waiting.ResultIsBalanceAtCommit | internal/domain/transaction.go:203-246 | In every run a terminal row states the balance of its wallet right after the call that ended it. |
| Locking.RanksRise | internal/application/wager_service.go:96-140 | Every call acquires inbox row, key, transaction row, wallet row and index entry in that order. |
| Locking.OnePerRank | internal/application/wager_service.go:259-312 | A call holds at most one lock of each class. |
| Locking.NoWaitCycle | internal/application/wager_service.go:98-140 | No chain of calls that wait for each other ever closes, whatever its length. |
| Locking.SomeoneMoves | internal/infrastructure/postgres/store.go:179-292 | From any call, following the locks leads to a call that nobody blocks. |
| Locking.StableReversal | internal/infrastructure/postgres/store.go:326-331 | A commit under the lock of another wallet changes no answer of the reversal query for transactions of this wallet. |
| Locking.ReadyIsLegal | internal/application/wager_service.go:140-238 | With its locks held and its reads possibly old, what a call is about to commit is legal on the rows committed now. |
| Locking.NoCommitRefused | internal/infrastructure/postgres/store.go:249-259 | In every interleaving the version guard, the reversal index and all other guards accept the commit: no lost update and no double reversal. |
| Locking.NextKeepsInv | internal/infrastructure/postgres/store.go:25-35 | Every statement, commit, crash and creation keeps locks exclusive, each call's knowledge true, and the database valid. |
| Locking.ReachableIsValid | internal/infrastructure/postgres/store.go:25-35 | Every reachable state of the interleaving, for any number of calls, has a valid database. |
| Atomicity.ProcessIsAtomic | internal/application/wager_service.go:51-254 | A call of Process, its statements interleaved with others, commits exactly what the whole call would commit alone at that moment if and only if its reference did not turn terminal between read and commit. |
| Atomicity.WorkerIsAtomic | internal/application/wager_service.go:256-347 | The same for the calls of the worker; a recorded failure is always atomic. |
| Atomicity.MoneyIsSteady | internal/application/wager_service.go:172-238 | A call that was overtaken in this way can only wait, or reject for a missing reference; whatever moves money is atomic. |
| WholeCalls.SoloProcess | internal/application/wager_service.go:96-242 | A new request, by HTTP or by an open message, whose statements run one after the other with no other call, leaves what the whole call leaves. |
| WholeCalls.SoloReplay | internal/application/wager_service.go:114-131 | So does a repeated request: it completes its message and writes nothing else. |
| WholeCalls.SoloResolve | internal/application/wager_service.go:256-299 | So does a resolution. |
| WholeCalls.CallInterleaves | internal/application/wager_service.go:51-347 | Whatever any call of the services leaves, successful or not, wallet creation and crashes included, its own statements can leave. |
| WholeCalls.RunInterleaves | internal/infrastructure/postgres/store.go:25-35 | Every sequence of whole calls, from any valid database, is an interleaving of their statements, so the interleavings leave none out. |
| Serial.NeverCrossed | internal/application/wager_service.go:266-285 | No sequence of whole calls, from any valid database without such a pair, ends with two rows that refer to each other both rejected as not found. |
| Overtaking.CrossedRefusals | internal/application/wager_service.go:266-280 | From every valid database with two exhausted rows of different wallets that refer to each other, two resolutions interleave: both read, the first commits, the second is then overtaken, and it commits its refusal from what it read. The database left has exactly these two writes, both rows are rejected as not found, and no sequence of whole calls leads to it. |
| Overtaking.SerialRefusals | internal/application/wager_service.go:266-285 | One after the other, in either order, the first of the two is rejected as not found and the second as not processed. |
| Overtaking.RefusalsAreNotSerializable | internal/application/wager_service.go:266-285 | From an empty database, in any currency and with one attempt allowed, such a pair is reached, from it a state whose one call is ready and overtaken, and from there the crossed rejections of that same pair, with wallets and ledger unchanged. Neither order of the two calls, at any time, and no sequence of any whole calls, from the pair or from the start, leaves that database. |
| Interleaved.NextExtends | internal/infrastructure/postgres/migrations/000001_initial.up.sql:99-148 | No statement or commit of any interleaving changes a terminal row, an entry, an event or a completed message. |
| Interleaved.TraceExtends | internal/infrastructure/postgres/migrations/000001_initial.up.sql:99-148 | The same from any state of an interleaving to any later one. |
| Interleaved.TraceAttempts | internal/application/wager_service.go:271-279 | In every interleaving, attempts stay within the configured maximum. |
| Interleaved.TraceVisits | internal/application/wager_service.go:256-347 | In every interleaving, each change of a waiting row has used up exactly one attempt or ended it. |
| Interleaved.WaitingEndsInTrace | internal/application/wager_service.go:256-347 | In every interleaving, a row that changed more often than attempts were left is terminal. |
| Interleaved.TraceResult | internal/domain/transaction.go:203-246 | In every interleaving, a terminal row states the balance of its wallet right after the commit that ended it. |
| Interleaved.ReplayAnswersForever | internal/application/wager_service.go:605-619 | In every interleaving, a replay that found a terminal row answers with it, and every later state holds the same row under the same key and payload. |
| Interleaved.OtherPayloadRefusedForever | internal/application/wager_service.go:118-121 | In every interleaving, once a row is stored, a call under its key with another payload never comes to write or answer, and changes no table. |
| Interleaved.TraceInbox | internal/application/wager_service.go:97-113 | In every interleaving, each committed inbox row is complete and has the transaction of its body. |
| Envelopes.EnvelopeBecomesCommand | internal/infrastructure/messaging/consumer.go:153-216 | A body becomes a request exactly when its envelope is accepted, and the request then has each field of the envelope, its amount and currency, and is traced to the message. |
| Envelopes.MessageLeaves | internal/infrastructure/messaging/consumer.go:198-216 | A new message leaves, column by column, what is decided about its request, and its events name the message as correlation and cause. |
| Envelopes.HttpRepeats | internal/application/wager_service.go:118-131 | Once a message is stored, a request by HTTP with the fields of its envelope is answered from its row as a replay, and nothing changes. |
| Delivery.HandlingKeepsInbox | internal/application/wager_service.go:97-113 | Every committed inbox row is complete and has a transaction with the key and payload of its body. |
| Delivery.RedeliveryReplays | internal/application/wager_service.go:102-113 | Handling a handled message again changes nothing and is answered as a replay. |
| Delivery.ConflictMeansOtherBody | internal/application/wager_service.go:107-109 | An inbox conflict is reported exactly when another body was handled under the same message identifier. |
| Delivery.DeliveredExact | internal/infrastructure/messaging/consumer.go:153-239 | An accepted message is a call about what its envelope says, whose error decides about the retry; any other body fails permanently and changes nothing. |
| Delivery.TransientErrors | internal/infrastructure/messaging/consumer.go:221-226 | The errors that are not permanent are exactly an unknown wallet, a credit past MaxInt64 and the last version, each with its cause. |
| Delivery.PermanentExact | internal/infrastructure/messaging/consumer.go:221-226 | A call fails permanently exactly when the request is malformed, its message was handled with another body, its key or external identifier belongs to a different request, or its amount or reference does not fit its kind. |
| Delivery.PermanentIsForGood | internal/infrastructure/messaging/consumer.go:221-238 | In every run, a message that failed permanently once fails permanently whenever it is handled again, and never changes a table. |
| Delivery.NextKeepsInv | internal/infrastructure/messaging/consumer.go:200-269 | Sends, deliveries, commits, deletions, crashes, dead letters and other calls keep deleted messages durable. |
| Delivery.DeletedIsDurable | internal/infrastructure/messaging/consumer.go:255-269 | In every reachable state a deleted message has a complete inbox row and a durable transaction. |
| Delivery.DeletedIsStored | internal/infrastructure/messaging/consumer.go:198-269 | In every reachable state, a row holds each field of the envelope of a deleted message, amount and currency included, its inbox row is complete with its body, and the same request by HTTP is a replay that changes nothing. |
| Delivery.HandlingAgainIsHarmless | internal/infrastructure/messaging/consumer.go:200-269 | In every reachable state, handling a body whose handling was committed before changes no table and ends with the message ready for deletion. |
| Handling.StepKeepsOk | internal/infrastructure/messaging/consumer.go:200-269 | Deliveries, every statement and commit of every call, deletions, crashes and dead letters keep consumers linked to their calls and deleted messages durable. |
| Handling.DeletedIsDurable | internal/infrastructure/messaging/consumer.go:255-269 | However the calls of consumers, HTTP clients and the worker interleave statement by statement, a deleted message has a complete inbox row and a durable transaction that holds each field of its envelope. |
| Handling.RedeliveryWritesNothing | internal/application/wager_service.go:102-113 | However calls interleave, a call about a message that is durable never comes to write, and none of its steps changes a table. |
| Delivery.RetrySecondsExact | internal/infrastructure/messaging/consumer.go:298-302 | The visibility is the delay rounded up to seconds exactly when that many seconds fit 32 bits. |
| Delivery.VisibilityIsExact | internal/infrastructure/messaging/consumer.go:280-329 | A transient failure hides a message, until its last receive, for the smaller of base * 2^(receives-1) and maximum, rounded up to seconds; a permanent one shows it at once. |
| Delivery.Consumer.HandleMessage | internal/infrastructure/messaging/consumer.go:130-269 | A message is removed only after its commit, with a row that holds each field of its envelope; after a failure it stays, visible at once if the consumer was cancelled during the call, and otherwise after the delay of a permanent or transient error. |
| Leases.OutboxTable.Claim | internal/infrastructure/postgres/store.go:135-158 | The earliest unpublished rows whose delay and lease are over, at most the limit and all of them if fewer, are leased to the worker; no other row changes. |
| Leases.OutboxTable.MarkPublished | internal/infrastructure/postgres/store.go:160-170 | A row is published by its holder, or a conflict is reported and nothing changes. |
| Leases.OutboxTable.Release | internal/infrastructure/postgres/store.go:172-177 | A row is released by its holder for a later attempt, or nothing changes. |
| Leases.NextKeepsInv | internal/infrastructure/messaging/outbox_worker.go:63-125 | Claims, sends, lost confirmations, failures, crashes and the passing of time keep rows, leases and workers consistent, each worker reading a clock of its own that is off by at most the skew. |
| Leases.PublishedWasSent | internal/infrastructure/messaging/outbox_worker.go:100-117 | In every reachable state a published event was sent as inserted, and nothing else was ever sent. |
| Leases.PublishedIsAbsorbing | internal/infrastructure/postgres/migrations/000001_initial.up.sql:134-148 | A published row never changes again, and no event is ever rewritten. |
| Leases.LeasesAreDisjoint | internal/infrastructure/postgres/store.go:135-145 | Until the skew before their end, leases on one event belong to one worker. |
| Leases.OwnClockSuffices | internal/infrastructure/messaging/outbox_worker.go:73-74 | So they do for workers that each read their own clock, until twice the skew before the end. |
| Leases.LeasesOverlap | internal/infrastructure/postgres/store.go:136-142 | The bound is exact: for every event, skew and duration, some run gives two workers a lease on it one unit later. |
| Leases.TakenOverForGood | internal/infrastructure/postgres/store.go:160-177 | A worker whose lease was taken over can neither publish nor release the event, then or later. |
| Leases.ClaimableAgain | internal/infrastructure/postgres/store.go:136-139 | Every unpublished event can be claimed again once its lease and delay are over, within the skew plus the longer of lease and five minutes. |
| Leases.Publisher.PublishBatch | internal/infrastructure/messaging/outbox_worker.go:84-124 | One pass sends each leased event in turn and confirms or releases it. |
| Leases.PassIsExact | internal/infrastructure/messaging/outbox_worker.go:100-136 | Over leases it holds, a pass publishes exactly what it sent, at the time it sent it, and releases the rest with one more attempt, after the smaller of 2^attempts seconds and five minutes. |
| Leases.SentIsExact | internal/infrastructure/messaging/outbox_worker.go:84-124 | The events sent by a pass are those of its batch that the queue took, in the order of the batch. |
| Paging.Ledger | internal/application/wallet_service.go:162-197 | A page holds the next entries below the cursor, at most the clamped limit, with a cursor exactly when more remain. |
| Paging.PageIsExact | internal/application/wallet_service.go:162-197 | A page holds the latest entries of the wallet after the cursor, latest first by time and then identifier, 50 or as many as asked for up to 100; it has a cursor, its last entry, exactly when entries are left. |
| Paging.ListingDescends | internal/infrastructure/postgres/store.go:75-88 | The listing of a wallet is strictly descending by creation time and identifier. |
| Paging.NothingSkipped | internal/application/wallet_service.go:162-197 | Whatever is appended between page reads, what was delivered followed by what lies below the cursor is the first page's listing, in order. |
| Paging.EveryEntryOnce | internal/application/wallet_service.go:162-197 | Following the cursor to the end, with any limit for each page, delivers every entry present at the first page, in descending order. |
| Paging.PagesDescend | internal/application/wallet_service.go:162-197 | All pages together are strictly descending, so no entry is delivered twice. |

## Left out

- HTTP, authentication, configuration loading, tracing, metrics, logging and lifecycle code carry no invariant of their own.
- The cursor is a pair of time and identifier; its base64 text is not modelled.
- Hashing and JSON encoding of payloads are replaced by the hashed values, so a hash collision is outside the model.
- Currency codes come from an open table; `currency.ParseISO` is not part of this model.
- `Storage.TxStore.UpdateWallet`: the version is an int64 that wraps in Go; a commit at the greatest version is the error `IntegerOutOfRange`, as the bigint expression of the guard makes it.
- `attempt_count` is unbounded here; its 32-bit column is not modelled, since attempts stay within the configured maximum.
- `Interleaving.LockWallet` and its companions: the shared locks that foreign keys take on referenced rows are not modelled, and the advisory lock is taken on the pair of provider and key, not on a 64-bit digest of it.
- `Interleaving.ReadReference`: a call whose wallet does not match reads its reference too; the decision ignores it.
- `Locking.SomeoneMoves`: shows that some call is never blocked; fairness of the database scheduler is not modelled.
- Replays of a transaction that still waits are not claimed to be consistent with one moment: its row and its wallet are read by separate statements.
- The order in which events of one aggregate are published is not claimed; claims, backoff and several workers do not enforce it.
- The ledger chain is stated in commit order; creation times are read before locks are taken and need not follow it.
- `Leases.OutboxTable.Claim`: `last_error` is not modelled, and rows that concurrent claims skip appear in the state machine as smaller batches.
- `Delivery.Consumer.HandleMessage`: the visibility heartbeat and the broker's own timeouts appear only as deliveries at any time.
- `Handling.Receive`: a body that does not decode, or whose command is not valid, begins no call; it stays in the queue.
- The polling loops and the order of `FindDuePendingReferences` are not modelled: the worker may visit any row at any time.
- Timestamp rounding by the database, isolation anomalies below READ COMMITTED, the down migrations and the shell scripts are outside the model.
