# Settlement engine: a Dafny model with proofs

This project models the settlement engine of the trade backend and the protocol around it, and proves what
holds of every run. It covers five parts:

- the settlement commands on wallets, item stacks, escrows, trades and ledgers (`Tables`, `Operations`,
  `SettlementStore`, `Effects`);
- the transactional executor with its plan grammars, authorization, savepoint, idempotency record and deferred
  constraints (`Plans`, `Authorization`, `Executor`, `SettlementExecutor`);
- the at-least-once delivery protocol between Market, the work topic, the workers, the operation log and the result
  topic (`OperationLog`, `Delivery`);
- Market's planning from database snapshots, the plan builders with the validation rules of their inputs, and the
  conversion of their messages (`Messages`, `Market`);
- the gateway's rate limiter and replay cache (`Recency`, `RateLimit`, `ReplayCache`).

`dafny verify dfyconfig.toml` checks everything.

## How the model is built

Code that changes rows step by step is a class whose methods change fields: `SettlementStore.Store` (one method per
command), `SettlementExecutor.BatchExecutor` (the transaction with its savepoint loop), `OperationLog.OperationStore`,
`RateLimit.Limiter`, `ReplayCache.InteractionCache`. Each method is proved equal to a function on values, and the
theorems are about those functions. The worker and the publisher are concurrent programs whose every remote call is a
step; they are a step function over the whole system, with any number of workers and publishers and a stop between
any two steps.

Proof layers, from commands to whole runs:

- `Effects` turns each successful command into a relation (guards that held, rows that changed). `Conservation` and
  `Ledgers` use only these relations.
- `Runs` and `ChangeLog` have what every sequence of batches keeps, whatever the batches contain: totals, ranges,
  ledgers and the log of state changes.
- `Trades` and `Lifecycle` have the reachable states of ISSUE, ACCEPT and CANCEL batches and the whole effect of each
  plan. The service entry point accepts no other batch (`commands.rs:247-256`).
- `Holdings` adds these up over whole runs: who gained and lost what, and what became of each trade's units.
- `Progress` has the exact condition under which a batch commits.
- `AuditTrail` has the idempotency, attempt, batch and step rows over every run, and replay.
- `Delivery` puts the executor inside the delivery protocol.
- `Scenario` has one small database and the calls that reach the surprising states listed below.

Modelling decisions:

- A table is a map from primary key to row. Stack and wallet ledgers are grouped by row, steps by batch.
- One call of the executor is one atomic transaction. The triggers that the schema defers to COMMIT are evaluated on
  the whole database after the last step; a violation is the outcome `CommitRefused`, which leaves no trace. Rows a
  batch does not touch satisfied the same triggers when they were committed, so this is the same test.
- Integers are unbounded and every 64-bit check of the code is written out. `checkedISKAmount` multiplies with
  explicit wrap-around.
- SHA-256 digests (checksums, the ledger hash chain, request fingerprints, derived identifiers, payload fingerprints)
  are kept as the material they hash, so that equal digests mean equal material.
- Each command reads the clock once and may be given a fresh identifier; both are parameters. Message texts of errors
  are dropped, their kinds are kept.
- Limiter times and tokens are real numbers; the replay cache uses integer times.
- Text columns with a fixed set of values are enumerations, with one more case for any other text.

Places where the code does something a reader might not expect, each with its proof:

- A CANCEL that returns less than its escrow holds passes validation, authorization and every step, and is undone at
  commit by a deferred constraint (`Lifecycle.CommitRefusals`, `Market.PartialCancelIsRefused`,
  `Scenario.PartialReturnIsUndone`).
- An ACCEPT without a completion step that takes the last units leaves the trade OPEN and empty. Market builds such a
  plan from a snapshot older than another purchase, and afterwards neither accepts nor cancels that trade
  (`Lifecycle.OpenWhileRemaining`, `Market.StaleAcceptStrandsTrade`; `Scenario.HistoryStrandsTrade` is such a run).
- The settlement service does not compare the item type and station a trade advertises with those of the escrowed
  stack, so an ISSUE that names others commits (`Scenario.MisnamedIssueCommits`). In every later state they agree
  exactly when that plan named its stack's (`Market.AdvertisedAsHeld`), which Market's plans do
  (`Market.MarketIssueAdvertises`); a trade where they differ is never sold by Market
  (`Market.MismatchedTradeIsNeverSold`).
- The publisher uses the operation identifier as request identifier, and the attempt table's key is the request
  identifier. So through the workers a key is attempted at most once, and a key whose attempt failed stays FAILED
  (`Delivery.OneAttemptPerKey`, `Delivery.FailedKeyIsFinal`). A worker that stops before it marks such an operation
  FAILED leaves it unfinished: it never succeeds, and only a failure step ends it (`Delivery.FailedKeyNeverSucceeds`).
- Completing an interaction after its entry expired, but before clean-up, revives the entry; that is the only way the
  cache departs from a plain map (`ReplayCache.AgreesIffOnTime`, `ReplayCache.LateCompletionIsObserved`).
- When the idle TTL is too short to fill a bucket, dropping idle buckets admits calls that token buckets would
  refuse (`RateLimit.ShortTtlIsObserved`).

## Model

| member | source | states |
|---|---|---|
| `MapSums.Total` | distributed-backend/src/trade-settlement/src/operations.rs:922-945 | A SUM query that visits the rows in any order returns the sum of the table. |
| `SettlementStore.Store.InsertStackLedger` | distributed-backend/src/trade-settlement/src/operations.rs:1411-1529 | A ledger row is appended, sealed with the hash of the latest row, exactly when it extends the ledger. |
| `SettlementStore.Store.UpdateStack` | distributed-backend/src/trade-settlement/src/operations.rs:1309-1342 | The stack row gets its new quantity, next version and checksum and one ledger row, or the specified error. |
| `SettlementStore.Store.UpdateWallet` | distributed-backend/src/trade-settlement/src/operations.rs:1531-1607 | The wallet row gets its new amount, next version and checksum and one ledger row, or the specified error. |
| `SettlementStore.Store.EnsurePaidFor` | distributed-backend/src/trade-settlement/src/operations.rs:1017-1066 | Passes exactly when the trade is live and its active wallet escrows hold price times quantity. |
| `SettlementStore.Store.EnsureCompletable` | distributed-backend/src/trade-settlement/src/operations.rs:922-1015 | Passes exactly when the trade has not expired and holds no active item or wallet escrow. |
| `SettlementStore.Store.CreateTradeInstance` | distributed-backend/src/trade-settlement/src/operations.rs:229-274 | Refuses non-positive totals and prices, other kinds and states, past expiries and used identifiers; otherwise adds an OPEN trade with its whole total remaining, and changes no other row. |
| `SettlementStore.Store.ModifyTradeInstance` | distributed-backend/src/trade-settlement/src/operations.rs:276-350 | Only OPEN trades change, only to a final state, and to COMPLETED only unexpired and without active escrow; the change is logged. |
| `SettlementStore.Store.CreateEmptyItemStack` | distributed-backend/src/trade-settlement/src/operations.rs:352-401 | Adds an empty version-1 stack with its valid checksum and its first ledger row, unless the identifier is used. |
| `SettlementStore.Store.TransferStackToEscrow` | distributed-backend/src/trade-settlement/src/operations.rs:403-517 | Moves a positive quantity from an active stack of the issuer into a new or compatible escrow of a live trade, with its ledger row, or gives the specified refusal. |
| `SettlementStore.Store.TransferEscrowToStack` | distributed-backend/src/trade-settlement/src/operations.rs:795-890 | Moves a quantity from an active escrow to a matching active stack under the owner rule, lowers the trade's remainder with it and releases the escrow when empty, or gives the specified refusal. |
| `SettlementStore.Store.MergeItemStacks` | distributed-backend/src/trade-settlement/src/operations.rs:551-622 | Moves everything from one active stack to another of the same owner, type and station and marks the first merged, with both ledger rows. |
| `SettlementStore.Store.CreateWalletEscrowRow` | distributed-backend/src/trade-settlement/src/operations.rs:624-662 | Adds an empty escrow for an active wallet of the owner and changes no other row, or gives the specified refusal. |
| `SettlementStore.Store.TransferWalletToEscrow` | distributed-backend/src/trade-settlement/src/operations.rs:664-755 | Moves the price of a whole number of remaining units from an active wallet into a new or compatible escrow of a live trade, with its ledger row, or gives the specified refusal. |
| `SettlementStore.Store.TransferEscrowToWallet` | distributed-backend/src/trade-settlement/src/operations.rs:1092-1166 | Moves ISK from an active escrow to an active wallet under the owner rule and releases the escrow when empty, with its ledger row, or gives the specified refusal. |
| `SettlementStore.Store.ExecuteCommand` | distributed-backend/src/trade-settlement/src/operations.rs:159-227 | For every command the statement-by-statement execution answers as the specification on which all theorems rest and, on success, leaves exactly its tables. |
| `Effects.ApplyEffect` | distributed-backend/src/trade-settlement/src/operations.rs:159-227 | A successful command had its guards true and changed exactly the rows its relation names. |
| `Conservation.ApplyConserves` | distributed-backend/src/trade-settlement/src/operations.rs:159-1166 | On every state, a successful command changes any owner's ISK and items by its flow alone; over all owners the flow is zero. |
| `Conservation.EffectIsk` | distributed-backend/src/trade-settlement/src/operations.rs:664-793 | Only a release of ISK to a new owner moves ISK between owners, by exactly its amount. |
| `Conservation.EffectItems` | distributed-backend/src/trade-settlement/src/operations.rs:403-622 | Only a release of items to a new owner moves items between owners, of the escrow's type and station alone. |
| `Conservation.EffectItemAmounts` | distributed-backend/src/trade-settlement/src/operations.rs:1873-1881 | Item quantities stay between 0 and 2^63-1. |
| `Conservation.EffectIskAmounts` | distributed-backend/src/trade-settlement/src/operations.rs:1873-1881 | ISK amounts stay between 0 and 2^63-1. |
| `Ledgers.WalletReplays` | distributed-backend/src/trade-settlement/src/operations.rs:1564-1607 | A gapless wallet ledger, added to the seeded row, gives the current amount and version. |
| `Ledgers.StackReplays` | distributed-backend/src/trade-settlement/src/operations.rs:1411-1529 | A gapless stack ledger replays from nothing to the current quantity, one entry per version. |
| `Ledgers.LatestOfChain` | distributed-backend/src/trade-settlement/src/operations.rs:1411-1529 | The query for the latest ledger row returns the row appended last. |
| `Ledgers.HashSealsLedger` | distributed-backend/src/trade-settlement/migrations/0001_settlement_schema.sql:344-425 | Two ledgers that end in the same hash are the same ledger. |
| `Ledgers.WalletChainGrows` | distributed-backend/src/trade-settlement/src/operations.rs:1531-1607 | A wallet update extends the ledger without a gap. |
| `Ledgers.StackChainGrows` | distributed-backend/src/trade-settlement/src/operations.rs:1378-1529 | A stack update extends the ledger and its hash chain without a gap. |
| `Ledgers.EffectKeepsWalletLedgers` | distributed-backend/src/trade-settlement/src/operations.rs:1531-1607 | Every command keeps every wallet ledger gapless and every wallet checksum valid. |
| `Ledgers.EffectKeepsStackLedgers` | distributed-backend/src/trade-settlement/src/operations.rs:1309-1529 | Every command keeps every stack ledger gapless and every stack checksum valid. |
| `Ledgers.StackGuardsNeverFire` | distributed-backend/src/trade-settlement/src/operations.rs:1796-1812 | A stack update is refused only for a negative quantity or an exhausted version, never by a checksum or the insert trigger. |
| `Ledgers.WalletGuardsNeverFire` | distributed-backend/src/trade-settlement/src/operations.rs:1814-1830 | A wallet update is refused only for a negative amount or an exhausted version, never by a checksum. |
| `Ledgers.StacksProject` | distributed-backend/src/trade-settlement/migrations/0001_settlement_schema.sql:427-483 | Every stack row equals the projection of its latest ledger row. |
| `Runs.ExecuteTables` | distributed-backend/src/trade-settlement/src/executor.rs:195-306 | Only a committed call changes business tables, and it leaves what its run produced and the deferred constraints accept. |
| `Runs.RunsConserve` | distributed-backend/src/trade-settlement/src/operations.rs:159-1166 | Over every run of batches, succeeding or failing, total ISK and the total of every item type at every station are constant. |
| `Runs.RunsKeepBooks` | distributed-backend/src/trade-settlement/src/operations.rs:1309-1607 | Over every run amounts stay in range, ledgers gapless and checksums valid. |
| `Runs.LedgersReplay` | distributed-backend/src/trade-settlement/src/operations.rs:1377-1607 | Over every run each wallet's seed plus its deltas is its amount, and each stack's ledger replays to its quantity. |
| `ChangeLog.RunsLogChanges` | distributed-backend/src/trade-settlement/src/operations.rs:276-350 | Over every run the log of state changes has exactly one entry for each closed trade, from OPEN to its state, and none for an open one. |
| `Plans.ValidateAccept` | distributed-backend/src/trade-settlement/src/plan.rs:37-83 | The index-advancing validator accepts exactly the operation lists of the ACCEPT grammar. |
| `Plans.ValidateCancel` | distributed-backend/src/trade-settlement/src/plan.rs:85-113 | The index-advancing validator accepts exactly the operation lists of the CANCEL grammar. |
| `Plans.AcceptGrammar` | distributed-backend/src/trade-settlement/src/plan.rs:37-83 | A list in the ACCEPT grammar has exactly one reading as a plan, and reading it back rebuilds the list. |
| `Plans.CancelGrammar` | distributed-backend/src/trade-settlement/src/plan.rs:85-113 | A list in the CANCEL grammar has exactly one reading as a plan, and reading it back rebuilds the list. |
| `Authorization.RunAuthorizeCancel` | distributed-backend/src/trade-settlement/src/authorization.rs:144-237 | The counting loop decides as the specification: every return checked, then both counts compared with the active rows. |
| `Authorization.CancelCounts` | distributed-backend/src/trade-settlement/src/authorization.rs:178-236 | The returns of a CANCEL are counted exactly when each of them is of an active escrow of the trade with a rightful destination. |
| `Trades.AcceptAuthorized` | distributed-backend/src/trade-settlement/src/authorization.rs:40-142 | An ACCEPT is authorized if and only if the exchange it describes is allowed. |
| `Trades.CancelAuthorized` | distributed-backend/src/trade-settlement/src/authorization.rs:144-237 | In a reachable state a CANCEL is authorized if and only if the issuer returns the trade's one escrow, when it holds items, and no ISK. |
| `Trades.SoundSums` | distributed-backend/src/trade-settlement/src/operations.rs:922-1015 | In a reachable state the active item escrow of a trade sums to its remainder and the active ISK to zero. |
| `Trades.SoundCommits` | distributed-backend/src/trade-settlement/migrations/0001_settlement_schema.sql:544-692 | Reachable states satisfy the deferred constraints. |
| `Trades.IssueEffect` | distributed-backend/src/trade-settlement/src/plan.rs:18-35 | A finished ISSUE adds one OPEN trade and one escrow holding its total, taken from the issuer's stack, and changes no other wallet, stack, escrow or trade. |
| `Trades.AcceptEffect` | distributed-backend/src/trade-settlement/src/plan.rs:37-83 | A finished ACCEPT pays from wallet to wallet, delivers from escrow to one stack, which it creates when the plan says so, empties its wallet escrow, completes only when it takes all, and changes no other wallet, stack, escrow or trade. |
| `Trades.CancelEffect` | distributed-backend/src/trade-settlement/src/plan.rs:85-113 | A finished CANCEL returns items from the escrow to a stack of the issuer, whose row gets exactly its new quantity, version and checksum, and cancels the trade, and changes no other wallet, stack, escrow or trade. |
| `Trades.CancelCommits` | distributed-backend/src/trade-settlement/migrations/0001_settlement_schema.sql:544-619 | A finished CANCEL is accepted at commit if and only if it returns the whole escrow. |
| `Lifecycle.SeedsAreReachable` | distributed-backend/src/trade-settlement/src/commands.rs:247-256 | A database of wallets and stacks without trades is a reachable state. |
| `Lifecycle.FinishedPlanCommits` | distributed-backend/src/trade-settlement/migrations/0001_settlement_schema.sql:544-692 | After a finished plan the deferred constraints hold if and only if it is not a partial CANCEL, and then the state is reachable again and rows only moved forward. |
| `Lifecycle.EvolvesKeepsSources` | distributed-backend/src/trade-settlement/src/operations.rs:1309-1342 | Rows that only move forward keep the source stack of every escrow ready to take its items back. |
| `Lifecycle.CallKeepsReachable` | distributed-backend/src/trade-settlement/src/executor.rs:99-306 | Every call keeps the state reachable, only moves trades and escrows forward, and never changes a stack's owner, type, station or ACTIVE state. |
| `Lifecycle.RunsReachable` | distributed-backend/src/trade-settlement/src/operations.rs:892-920 | In every run each trade has exactly one item escrow, equal to its remainder, whose source stack stays ACTIVE with the escrow's owner, type and station; no wallet escrow holds ISK; remainders and escrows never rise; trades go from OPEN to a final state once. |
| `Lifecycle.ClosedForEver` | distributed-backend/src/trade-settlement/src/operations.rs:1778-1785 | A closed trade never changes again and has no remainder, active escrow or active ISK in any later state. |
| `Lifecycle.CommitRefusals` | distributed-backend/src/trade-settlement/src/authorization.rs:217-236 | A batch is refused at commit if and only if it is a CANCEL that returns part of its escrow. |
| `Lifecycle.AcceptIsExactExchange` | distributed-backend/src/trade-settlement/src/authorization.rs:40-142 | A committed ACCEPT of q units moves q times the price from the buyer to the issuer and q units back, buyer and issuer differ, and nobody else's holdings change. |
| `Lifecycle.OpenWhileRemaining` | distributed-backend/src/trade-settlement/src/plan.rs:68-76 | After a committed ACCEPT, OPEN means something remains if and only if the plan completes or does not take the last units. |
| `Lifecycle.ExpiredTradeOnlyCancels` | distributed-backend/src/trade-settlement/src/operations.rs:1068-1090 | A batch after a trade's expiry leaves the trade alone or cancels it whole; no ACCEPT of it commits. |
| `Lifecycle.RunsAfterExpiry` | distributed-backend/src/trade-settlement/src/operations.rs:1710-1725 | Over any run after expiry no unit of the trade is sold. |
| `Holdings.IssueAndCancelKeepHoldings` | distributed-backend/src/trade-settlement/src/plan.rs:18-113 | An ISSUE or CANCEL, committed or not, leaves every owner's ISK and items as they were. |
| `Holdings.CallMovesHoldings` | distributed-backend/src/trade-settlement/src/executor.rs:99-306 | A call changes an owner's ISK and items by what the ACCEPT it commits exchanges, and otherwise not at all. |
| `Holdings.RunsMoveHoldings` | distributed-backend/src/trade-settlement/src/executor.rs:99-306 | Over every run each owner's ISK and items change by exactly the sum of what the committed ACCEPTs exchanged. |
| `Holdings.CallAccounts` | distributed-backend/src/trade-settlement/src/operations.rs:795-920 | A call lowers a trade's remainder by exactly the units it sells and returns; a new trade starts with its total. |
| `Holdings.RunsAccount` | distributed-backend/src/trade-settlement/src/operations.rs:795-920 | Over every run what a trade offered is what was sold of it, returned of it and remains of it. |
| `Holdings.NothingIsOversold` | distributed-backend/src/trade-settlement/src/operations.rs:892-920 | From a database without trades, units sold, returned and remaining of every trade add up to its total, so no more is sold than was offered. |
| `Progress.DebitPriceAgrees` | distributed-backend/src/trade-settlement/src/operations.rs:947-990 | The divisibility and remaining-quantity guards pass every authorized ACCEPT of a positive quantity. |
| `Progress.ReleasePriceAgrees` | distributed-backend/src/trade-settlement/src/operations.rs:1017-1066 | After the debit the active-escrow price guard passes every authorized ACCEPT of a live trade. |
| `Progress.AcceptSucceeds` | distributed-backend/src/trade-settlement/src/operations.rs:664-890 | An authorized ACCEPT succeeds at every step if and only if a condition on the database, the clock and the plan holds; no price guard is part of it. |
| `Progress.IssueSucceeds` | distributed-backend/src/trade-settlement/src/operations.rs:229-517 | An authorized ISSUE succeeds at both steps if and only if its condition holds. |
| `Progress.CancelSucceeds` | distributed-backend/src/trade-settlement/src/operations.rs:535-549 | An authorized CANCEL succeeds at every step if and only if its condition holds, which does not mention the clock. |
| `Progress.CommitsIffReady` | distributed-backend/src/trade-settlement/src/executor.rs:99-306 | In a reachable state a batch commits if and only if its key admits an attempt, its identifiers are unused, it is authorized and ready, and a CANCEL returns its whole escrow. |
| `Executor.FindLastNumber` | distributed-backend/src/trade-settlement/src/executor.rs:501-517 | The loop finds the greatest attempt number of a key, or zero. |
| `SettlementExecutor.BatchExecutor.CheckConstraints` | distributed-backend/src/trade-settlement/migrations/0001_settlement_schema.sql:544-692 | Row-by-row evaluation decides the deferred constraints. |
| `SettlementExecutor.BatchExecutor.ValidateBatch` | distributed-backend/src/trade-settlement/src/plan.rs:4-16 | The index-advancing validators decide plan validation for every batch. |
| `SettlementExecutor.BatchExecutor.AdmitBatch` | distributed-backend/src/trade-settlement/src/executor.rs:99-193 | Validation and the record of the key give the specified admission: refusal, replay, or a start. |
| `SettlementExecutor.BatchExecutor.PrepareAttempt` | distributed-backend/src/trade-settlement/src/executor.rs:195-215 | Authorization, with the counting loop for CANCEL, and the primary keys of the audit rows give the specified refusal or none. |
| `SettlementExecutor.BatchExecutor.InsertAuditRows` | distributed-backend/src/trade-settlement/src/executor.rs:519-629 | Adds the key, the next-numbered attempt, the batch and its PENDING steps. |
| `SettlementExecutor.BatchExecutor.MarkAttempted` | distributed-backend/src/trade-settlement/src/executor.rs:389-428 | Marks the attempted steps FAILED and no other step. |
| `SettlementExecutor.BatchExecutor.FailExecution` | distributed-backend/src/trade-settlement/src/executor.rs:389-428 | Turns the rows of a running attempt into the rows of a failed one. |
| `SettlementExecutor.BatchExecutor.CompleteExecution` | distributed-backend/src/trade-settlement/src/executor.rs:353-387 | Turns the rows of a running attempt into the rows of a completed one and completes the operation of the key. |
| `SettlementExecutor.BatchExecutor.RunSteps` | distributed-backend/src/trade-settlement/src/executor.rs:217-289 | The savepoint loop ends with every step done, or with tables and step rows as at the savepoint. |
| `SettlementExecutor.BatchExecutor.RunAttempt` | distributed-backend/src/trade-settlement/src/executor.rs:195-297 | Authorization, audit rows, steps and commit give the specified database and outcome. |
| `SettlementExecutor.BatchExecutor.ExecuteBatch` | distributed-backend/src/trade-settlement/src/executor.rs:99-306 | The whole transaction gives the specified database and outcome for every batch. |
| `AuditTrail.RefusalLeavesNoTrace` | distributed-backend/src/trade-settlement/src/executor.rs:103-215 | A refusal before the savepoint, and a refusal at commit, leave the whole database unchanged. |
| `AuditTrail.FailureIsAtomic` | distributed-backend/src/trade-settlement/src/executor.rs:219-278 | When step k is the first to fail, business tables are unchanged, steps up to k are FAILED and later ones PENDING, batch, attempt and key are FAILED without result, and no other row changes. |
| `AuditTrail.ExecuteKeepsAudit` | distributed-backend/src/trade-settlement/src/executor.rs:353-428 | Every call keeps the audit rows coherent. |
| `AuditTrail.CommittedUses` | distributed-backend/src/trade-settlement/src/executor.rs:519-629 | A committed call adds exactly its key, its request identifier and its batch identifier to the audit tables. |
| `AuditTrail.RunsKeepAudit` | distributed-backend/src/trade-settlement/src/executor.rs:478-517 | Between transactions nothing is in progress or running, attempts of a key are numbered 1 to n with one batch each, and a key is COMPLETED exactly when one of its batches is, which is its result. |
| `AuditTrail.RunsKeepCompleted` | distributed-backend/src/trade-settlement/src/executor.rs:133-164 | The row of a COMPLETED key, its result batch and that batch's steps never change. |
| `AuditTrail.ReplayFidelity` | distributed-backend/src/trade-settlement/src/executor.rs:308-337 | After a commit and any run, a call with the same key and fingerprint returns the same batch and step results in order and changes no business row; another fingerprint is refused. |
| `OperationLog.OperationStore.Find` | distributed-backend/src/trade-settlement/src/service.rs:122-128 | The search returns a row of the key, or tells that there is none. |
| `OperationLog.OperationStore.Queue` | distributed-backend/src/trade-settlement/src/service.rs:108-164 | Returns the row of the key when it matches, refuses a different request or a blank field, or adds a QUEUED row with its external identifier; keys stay unique and no row changes. |
| `OperationLog.OperationStore.Update` | distributed-backend/src/trade-settlement/src/service.rs:185-258 | Makes exactly the allowed transitions and keeps the batch, the code and the published flag as specified; terminal states and the published mark stay. |
| `Delivery.FreshSystemCoheres` | distributed-backend/src/market/publisher.go:53-97 | The system before anything is queued is coherent. |
| `Delivery.UpdateKeepsLog` | distributed-backend/src/trade-settlement/src/service.rs:210-258 | Every update that publishers and workers make keeps a SUCCEEDED row on its key's result, and never changes a terminal state or batch. |
| `Delivery.ExecuteKeepsLog` | distributed-backend/src/trade-settlement/src/executor.rs:366-387 | An execution by a worker completes only operations of its key, with the batch recorded as the key's result. |
| `Delivery.NextExtends` | distributed-backend/src/settlementworker/service.go:63-146 | Every step of every publisher and worker keeps the system coherent. |
| `Delivery.RunsCohere` | distributed-backend/src/settlementworker/service.go:63-146 | Every run with duplicated and reordered deliveries, concurrent workers and stops keeps the system coherent, loses no result and never changes a terminal state. |
| `Delivery.RunsStayReachable` | distributed-backend/src/settlementworker/service.go:88-92 | Every run of the protocol keeps the business tables reachable. |
| `Delivery.OneCompletedBatch` | distributed-backend/src/settlementworker/service.go:63-118 | A key has at most one COMPLETED batch, and a SUCCEEDED operation names it. |
| `Delivery.OneAttemptPerKey` | distributed-backend/src/market/publisher.go:73-75 | Through the workers a key has at most one attempt. |
| `Delivery.EffectsApplyOnce` | distributed-backend/src/settlementworker/service.go:63-118 | No two steps of a run commit a batch under the same key, whatever operations their work carries. |
| `Delivery.PublishedSuccessIsAccepted` | distributed-backend/src/market/settlement_result.go:42-54 | A success result, once published, passes result validation in every later state. |
| `Delivery.PublishedHasResult` | distributed-backend/src/settlementworker/service.go:120-146 | An operation marked published has a result in the topic with its final state and batch, in every later state. |
| `Delivery.FailedKeyIsFinal` | distributed-backend/src/trade-settlement/src/executor.rs:199-208 | A key whose attempt failed stays FAILED in every run of the protocol. |
| `Delivery.RedeliveryOfFailedKey` | distributed-backend/src/trade-settlement/src/executor.rs:99-215 | Redelivered work of a failed key writes nothing; the worker goes on to mark the operation FAILED if and only if the plan is invalid, empty, or the same one and refused by authorization, and otherwise waits to try again. |
| `Delivery.StuckStep` | distributed-backend/src/settlementworker/service.go:63-146 | A step that ends an operation of a failed key marks it FAILED, and is a worker's or publisher's failure step for it. |
| `Delivery.FailedKeyNeverSucceeds` | distributed-backend/src/settlementworker/service.go:63-146 | In every run an operation of a failed key never becomes SUCCEEDED, and becomes FAILED only through such a failure step. |
| `Messages.MessageRoundTrip` | distributed-backend/src/trade-settlement/src/commands.rs:287-446 | Converting the message of a command gives the command back, with a blank service name replaced, if and only if the validation rules accept it; otherwise it is refused. |
| `Messages.ConversionKeepsKind` | distributed-backend/src/settlementworker/convert.go:54-224 | An operation converts if and only if it carries a valid payload of its kind, and the command has that kind. |
| `Messages.ToProtoRequest` | distributed-backend/src/settlementworker/convert.go:12-39 | The loop gives all messages in order, or the first operation without a payload of its kind. |
| `Messages.FromProtoRequest` | distributed-backend/src/trade-settlement/src/commands.rs:236-275 | A request converts to the commands of all its messages in order if and only if the validation rules accept each of them. |
| `Messages.Convert` | distributed-backend/src/settlementworker/convert.go:12-39 | All operations convert, in order, or none is executed. |
| `Messages.AcceptTradeInstance` | gametrade/accept_trade_instance.go:26-111 | A plan is built if and only if the input satisfies its validation rules; at any time it converts to the intended ACCEPT commands, which pass plan validation. |
| `Messages.CancelTradeInstance` | gametrade/cancel_trade_instance.go:20-68 | A plan is built if and only if the input satisfies its validation rules; at any time it converts to the intended CANCEL commands, which pass plan validation. |
| `Messages.IssueTradeInstance` | gametrade/issue_trade_instance.go:22-84 | A plan is built if and only if the input satisfies its validation rules; until it expires it converts to the intended ISSUE commands, which pass plan validation. |
| `Market.IskAmountIsExact` | distributed-backend/src/market/validation.go:68-77 | The amount is refused if and only if the product exceeds 2^63-1, and for a non-negative quantity it is the exact product if and only if that fits 64 bits. |
| `Market.PlanIssue` | distributed-backend/src/market/issue.go:26-52 | A plan is returned if and only if the loaded stack is ACTIVE and the builder's rules hold, and it names the owner, type and station of that stack. |
| `Market.PlanAccept` | distributed-backend/src/market/accept.go:29-81 | A plan is returned if and only if the snapshot is acceptable, wallets and destination are suitable, the price fits and the builder's rules hold; it carries the exact price and completes exactly when it takes the snapshot's whole escrow. |
| `Market.PlanCancel` | distributed-backend/src/market/cancel.go:25-39 | A plan is returned if and only if the snapshot is cancellable and the builder's rules hold, and it returns the snapshot's whole escrow. |
| `Market.StaleCancelIsSafe` | distributed-backend/src/market/cancel.go:30-39 | A Market-built CANCEL on any later reachable state changes no business row or leaves the trade CANCELLED with an empty escrow, and is never refused at commit. |
| `Market.StaleAcceptIsSafe` | distributed-backend/src/market/accept.go:65-81 | A Market-built ACCEPT is never refused at commit; one that takes the snapshot's whole escrow changes nothing or leaves the trade COMPLETED and empty. |
| `Market.StaleCancelAfterRuns` | distributed-backend/src/market/cancel.go:25-39 | The same for a CANCEL executed after any run of other batches since the snapshot. |
| `Market.MarketIssueCommits` | gametrade/issue_trade_instance.go:22-84 | A Market-built ISSUE commits when its stack, identifiers, amounts and expiry allow it. |
| `Market.MarketAcceptCommits` | gametrade/accept_trade_instance.go:26-111 | A Market-built ACCEPT commits on every state that still offers its quantity at its price, with funds, new identifiers, active wallets, no overflow and no expiry. |
| `Market.MarketCancelCommits` | gametrade/cancel_trade_instance.go:20-68 | A Market-built CANCEL on an unchanged reachable state commits whatever the clock says; only an overflow of the source stack's quantity or version can prevent it. |
| `Market.AcceptableIsOffered` | distributed-backend/src/market/validation.go:19-43 | A snapshot is acceptable if and only if its own state offers the quantity and the trade has not expired. |
| `Market.CancellableHasRemainder` | distributed-backend/src/market/validation.go:45-66 | A snapshot is cancellable if and only if the issuer asks and the OPEN trade has a remainder. |
| `Market.StaleAcceptStrandsTrade` | distributed-backend/src/market/accept.go:65-81 | An ACCEPT planned from a snapshot and executed after any run that left exactly its quantity, less than the snapshot showed, commits and leaves the trade OPEN and empty, and Market then neither accepts nor cancels it. |
| `Market.PartialCancelIsRefused` | distributed-backend/src/trade-settlement/src/authorization.rs:217-236 | A CANCEL returning part of its escrow is authorized, runs to its end and is undone at commit. |
| `Market.AdvertisedAsHeld` | distributed-backend/src/trade-settlement/src/operations.rs:403-447 | After a committed ISSUE and any run, the trade advertises what its escrow holds if and only if the plan named the stack's item type and station. |
| `Market.MarketIssueAdvertises` | distributed-backend/src/market/issue.go:26-52 | A trade that Market issued, from a stack loaded in any earlier state, advertises what its escrow holds in every later state. |
| `Market.MarketTradeIsAcceptable` | distributed-backend/src/market/validation.go:19-43 | A trade that Market issued is acceptable, in every later state, if and only if that state offers the quantity and it has not expired. |
| `Market.MismatchedTradeIsNeverSold` | distributed-backend/src/market/accept.go:46-81 | A trade that does not advertise what its escrow holds is never sold by a Market-built ACCEPT, on any later state. |
| `Scenario.MisnamedIssueCommits` | distributed-backend/src/trade-settlement/src/operations.rs:229-517 | An ISSUE naming another item type than its stack's commits. |
| `Scenario.PartialReturnIsUndone` | distributed-backend/src/trade-settlement/src/authorization.rs:217-236 | A CANCEL returning one of three units is undone at commit. |
| `Scenario.HistoryStrandsTrade` | distributed-backend/src/market/accept.go:65-81 | An ISSUE and two ACCEPTs planned from one snapshot all commit and leave a trade OPEN and empty that Market neither accepts nor cancels. |
| `RateLimit.Limiter.Create` | distributed-backend/src/gateway/ratelimit.go:38-57 | There is no limiter without a positive rate and burst; otherwise an empty valid one, with defaults for the other bounds. |
| `RateLimit.Limiter.DropOldest` | distributed-backend/src/gateway/ratelimit.go:100-107 | Drops the least recently used key from map and list. |
| `RateLimit.Limiter.DropIdle` | distributed-backend/src/gateway/ratelimit.go:86-98 | The loop drops idle buckets from the front, up to its limit. |
| `RateLimit.Limiter.AllowCall` | distributed-backend/src/gateway/ratelimit.go:59-84 | Answers and changes the index as the specification, and keeps it valid. |
| `RateLimit.AllowKeepsValid` | distributed-backend/src/gateway/ratelimit.go:59-84 | A call keeps the list equal to the map's keys without duplicates, in order of last use, within the maximum. |
| `RateLimit.RunsKeepValid` | distributed-backend/src/gateway/ratelimit.go:59-107 | The same over every run with a clock that does not go back. |
| `RateLimit.AllowAgrees` | distributed-backend/src/gateway/ratelimit.go:59-84 | Without capacity eviction, and with a TTL that fills a bucket, a call is answered as by unbounded token buckets. |
| `RateLimit.IdleEvictionIsUnobservable` | distributed-backend/src/gateway/ratelimit.go:59-107 | The same for every call of every run. |
| `RateLimit.RateBound` | distributed-backend/src/gateway/ratelimit.go:59-107 | In any stretch of a run a key is allowed at most burst plus rate times elapsed time calls. |
| `RateLimit.ShortTtlIsObserved` | distributed-backend/src/gateway/ratelimit.go:86-98 | With a TTL too short to fill a bucket there is a run that tells the two limiters apart, for every configuration. |
| `ReplayCache.InteractionCache.DropExpired` | distributed-backend/src/gateway/replay.go:120-133 | The loop drops expired entries from the front, up to its limit. |
| `ReplayCache.InteractionCache.BeginCall` | distributed-backend/src/gateway/replay.go:65-95 | Answers and changes the cache as the specification, and keeps it valid. |
| `ReplayCache.InteractionCache.CompleteCall` | distributed-backend/src/gateway/replay.go:97-108 | Changes the cache as the specification, and keeps it valid. |
| `ReplayCache.InteractionCache.ReleaseCall` | distributed-backend/src/gateway/replay.go:110-118 | Changes the cache as the specification, and keeps it valid. |
| `ReplayCache.BeginKeepsValid` | distributed-backend/src/gateway/replay.go:65-95 | List and map hold the same keys within the cap, and overflow is answered only at the cap. |
| `ReplayCache.RunsKeepValid` | distributed-backend/src/gateway/replay.go:65-138 | The same over every run. |
| `ReplayCache.BeginRefines` | distributed-backend/src/gateway/replay.go:65-95 | A begin answers as a plain map of unexpired interactions unless it overflows, and then nothing live changes. |
| `ReplayCache.CompleteRefines` | distributed-backend/src/gateway/replay.go:97-108 | A complete agrees with the plain map if and only if it does not reach an expired entry that is still held. |
| `ReplayCache.ReleaseRefines` | distributed-backend/src/gateway/replay.go:110-118 | A release agrees with the plain map. |
| `ReplayCache.NewNeedsRelease` | distributed-backend/src/gateway/replay.go:65-138 | A second New for an interaction within its lifetime has a release of it, with the fingerprint of the first New, in between. |
| `ReplayCache.CachedRepliesAreGenuine` | distributed-backend/src/gateway/packet.go:69-94 | A cached reply was given by a completion with the same interaction and fingerprint. |
| `ReplayCache.CacheRefinesPlainMap` | distributed-backend/src/gateway/replay.go:65-138 | Every begin is answered as by the plain map, except overflow at the cap, as long as no completion before it reached an expired entry that was still held. |
| `ReplayCache.AgreesIffOnTime` | distributed-backend/src/gateway/replay.go:97-108 | Over a whole run the cache and the plain map hold the same live interactions at every point if and only if no completion reaches an expired entry that is still held. |
| `ReplayCache.OwnersAreOnTime` | distributed-backend/src/gateway/packet.go:69-94 | A completion that answers a New begin within its lifetime never reaches an expired entry. |
| `ReplayCache.LateCompletionIsObserved` | distributed-backend/src/gateway/replay.go:97-108 | For every configuration there is a run of three calls in which a late completion makes the cache replay an answer where the plain map says New. |

## Left out

- PostgreSQL isolation, row locks, advisory locks and the order in which rows are locked: one call is one atomic step, so nothing is said about deadlocks.
- Foreign keys to the reference tables (capsuleer, item type, station) and the insertion of reference rows.
- Timestamps of rows, the columns naming the step that created or released a row, and failure descriptions.
- SHA-256, HMAC, base64, JSON canonical form and identifier text: digests are kept as the material they hash.
- Validation rules of the requests Market receives; the rules of the builder inputs and of the operation messages are modelled.
- Market's own replay of earlier results, trade listings and the user interface endpoints.
- Sockets, gRPC, broker retry counts and backoff, telemetry, configuration, deployment and the simulator.
- Agreement of a published failure result with the durable row: a second FAILED update may overwrite the failure code, so it is not claimed.
- Whether an operation marked FAILED had an effect: the publisher may mark it while a worker executes, so it is not claimed.
- Delivery.OneAttemptPerKey: the queued key and the executor's key are the same text. The executor trims its key (`commands.rs:244`) and the operation log stores it as given (`service.rs:150-153`); Market trims every key before it plans (`market/proto_validation.go:44-53`), so the result covers what Market sends and not an untrimmed key queued by another caller.
- Delivery.FailedKeyIsFinal: the same, for keys without surrounding white space.
- Delivery.FailedKeyNeverSucceeds: the same, for keys without surrounding white space.
- RateLimit.RateBound: tokens and times are real numbers, so rounding of 64-bit floating point is not covered.
- RateLimit.IdleEvictionIsUnobservable: tokens and times are real numbers, so rounding of 64-bit floating point is not covered; says nothing about runs in which an identity is dropped for lack of room.
- ReplayCache.OwnersAreOnTime: that a request ends before its entry expires follows from a request timeout shorter than the TTL; the timeout itself is not modelled.
