# Verified model of the trading agent's durable ledgers

The agent trades, pays and schedules work on a person's behalf. It must not lose money, pay twice or
trade twice when processes crash, requests are retried and several workers run at once. It does this
with small databases whose every change is one `BEGIN IMMEDIATE` transaction. This project models
those transactions and proves what every run of them keeps.

## How to read it

* One transaction, or one critical section, is one atomic step. A *book*, *ledger*, *world* or
  *machine* is the tables' rows as a value; a step is a function from rows to rows; `Run` applies any
  sequence of steps. Safety results quantify over all such sequences.
* Where the program changes rows in place, a class holds the tables as fields and each method, with
  the program's own branches and loops, is proved to be its step. `old` state and new state are
  related by the step function, so everything proved about runs of steps holds of the methods.
* The engine, the broker, the chain, the payment server and the sign-in server are arbitrary: their
  answers are parameters of the steps. New identities (`uuid4`) are parameters required to be new;
  the clock is a parameter that does not run backwards.
* Two kinds of results stand beside each other. Invariants say what every run keeps. The `...Progress` modules and
  `BrokerReplies` say what each operation is for: exactly when it is accepted, everything it then writes, and
  what may be relied on next (a position can be exited, a retry is answered, a refund can be credited, a due
  schedule is served). They are stated on the rows themselves, not through the step functions' own guards.
* Amounts are exact rationals (`real`) or whole micro-units (`int`), tables are maps from their
  primary keys, unique indexes are part of the steps' guards.

| files | what they cover |
|---|---|
| `BrokerBook`, `BrokerAccounting`, `BrokerReservations`, `BrokerChunking`, `BrokerHistory`, `BrokerCorners` | the Robinhood order journal: reservations, cumulative snapshots, holdings, unit cost, cash and profit; runs to its corners |
| `BrokerReplies`, `BrokerProgress` | what every broker reply means and does; exactly what is reserved; the way out of every position |
| `BrokerStore`, `BrokerSession` | the journal's tables and methods; the driver that submits, reconciles and cancels |
| `RevisionFence` | the two revisions that fence an evaluation against fills and other evaluations |
| `ExitMonitor`, `MonitorProgress`, `StrategyLifecycle`, `DexMonitor`, `MonitorRaces` | status changes, adopted deployments and the exit monitor, with a crash after any commit; what each status operation does; runs that lose the monitor |
| `PaymentLedger`, `BudgetSafety`, `OperationChain`, `LedgerHistory`, `PaymentStore` | the x402 budget gate and latch, paid operations and their replacements, refunds and evidence |
| `BudgetProgress`, `OperationProgress` | exactly what is reserved, given back and latched; what every retry is told, and how a failed or unpaid operation is made good |
| `CloseDelivery` | delivery of booked closes and the engine's acknowledgements |
| `DexBook`, `DexAccounting`, `DexFences`, `DexProgress`, `DexRaces`, `DexStore` | the receipt-driven journal of swaps, with updates in two statements; its revision fences; what its transactions do; runs that lose a confirmation or a settlement |
| `PaperBook`, `PaperProgress`, `PaperStore` | simulated fills, funding and the reports on them |
| `PaperSchedule`, `ScheduleProgress` | the schedule of paid paper evaluations; what becomes of starts, pauses, ticks and recoveries |
| `BaseUnits`, `Receipts`, `BlockScan` | exact printing, net token flows of a receipt, the backward block scan |
| `OAuthConnection`, `OAuthProgress` | token rotation and revocation receipts |
| `SchemaIds` | removal of inert `$id` keywords from JSON Schemas |
| `Sums` | sums over table columns |

## Where the code does not do what one would expect

Each point is a theorem about the code as it is, with the exact condition; where transactions or processes
interleave, also with a run from a fresh state that reaches the failing side.

* **A confirmed swap can be undone.** `_fee_only` (`server/src/services/dex_confirmed.py:368-379`) checks only
  whether fees were recorded before, while `update` protects `confirmed`. An approval-only reconciliation that
  commits late takes the confirmation back although the fill stays booked, and cash is then off by the
  order's flow (`DexAccounting.FeeOnlySettledExactly`, `DexRaces.StaleFeeRecordUndoesConfirmation`). Within one
  process the tick lock keeps reconcilers apart; it is not shared between processes.
* **A confirmed swap can lose its settlement.** `update` (`dex_confirmed.py:94-103`) reads the whole context in one
  statement and writes it back in another, outside any transaction, also when it only records an error. A fill
  booked in between keeps its status but loses its settlement and its completeness, no later run restores
  them, and `dex_inputs` then fails on the missing settlement
  (`DexAccounting.ContextWriteSettledExactly`, `DexRaces.StaleContextLosesSettlement`, `DexRaces.LostForGood`).
* **A late fill can expose an unmonitored strategy.** `apply_fill` refuses only a confirmed order, so an entry whose
  order was finished without a fill in the meantime still opens its position
  (`DexMonitor.EntryFillMonitoredExactly`, `MonitorRaces.LateFillUnmonitored`).
* **So can a late update.** `update` protects only `confirmed`, so an executor that still believes in its order takes a
  finished one up again (`DexMonitor.UpdateMonitoredExactly`, `MonitorRaces.LateUpdateUnmonitored`).
* **A status change between processes can lose the monitor.** What counts is exposure at the commit, not when it
  was decided (`ExitMonitor.StatusCommitMonitoredExactly`, `ExitMonitor.StaleStatusChangeLosesMonitor`); one
  process's locks keep the two together.
* **A found transaction can end the scan for good.** A transaction found in a window that begins at block
  zero carries block -1, and every later query ends below block zero (`BlockScan.NegativeCarryExactly`,
  `NegativeCarryIsStuck`, `YoungChainSticks`; a node is taken to refuse a negative block number).
* **`mark` can revive a closed order.** It is an unconditional UPDATE. It is harmless exactly when the order is
  not closed or its remainder is still covered (`BrokerReservations.MarkSoundExactly`,
  `BrokerCorners.MarkRevivesClosedEntry`). The driver never does it (`BrokerSession.CallDisciplined`).
* **An intent that enters by selling is not checked against the holding.** Intents that arrive in final form
  are passed through unchecked, so action and side may disagree
  (`BrokerReservations.ReservedBlameExactly`, `BrokerCorners.OversellingIsBlamed`).
* **Chunking shows in one column.** An outstanding cancellation hides later open and partial reports, so the
  order's status, and only it, depends on how the broker chunks its reports (`BrokerChunking.FinalStatus`).
* **A refresh token can be sent twice if the server issues it twice.** The program remembers no sent token;
  it relies on rotation (`OAuthConnection.TokenSentOnce`, `OAuthConnection.ReissuedTokenSentTwice`).

## Model

| member | source | states |
|---|---|---|
| BrokerAccounting.RunBalances | server/src/services/broker_store.py:220-317 | After every run of reserve, mark, snapshot, risk and lifecycle transactions, for every strategy at once, cash moved plus cost of holdings equals booked profit, in exact arithmetic, whatever the broker reports. |
| BrokerAccounting.FreshBalances | server/src/services/broker_store.py:341-345 | A book without orders, positions, holdings and trades balances, so the identity holds from the first transaction on. |
| BrokerAccounting.SnapshotBalances | server/src/services/broker_store.py:209-317 | An accepted snapshot keeps each strategy balanced, including the strategies it does not touch. |
| BrokerAccounting.FillConserves | server/src/services/broker_store.py:244-280 | Averaging an entry into the unit cost, or taking an exit out at it, moves cost and profit by exactly the cash of the fill. |
| BrokerAccounting.BookFillMoves | server/src/services/broker_store.py:220-310 | Booking a fill changes cost less profit of the order's own strategy by the fill's cash, and of no other strategy. |
| BrokerReservations.ReachableReservations | server/src/services/broker_store.py:83-120 | In every state reached under the callers' discipline the pending orders of a strategy have distinct positions, at most one enters, every pending exit's remainder is held, and no next snapshot can be refused because of the local book. |
| BrokerReservations.RunSound | server/src/services/broker_store.py:74-328 | Soundness (owned and open positions, covered exits, provenance of every position, bounded trades) is kept by every disciplined run. |
| BrokerReservations.SnapshotNeverBlamesBook | server/src/services/broker_store.py:217-271 | On a sound book the refusals for an exit above its holding, an entry on a closed or foreign position, a missing holding and a repeated trade cannot occur. |
| BrokerReservations.MarkSoundExactly | server/src/services/broker_store.py:141-147 | The unconditional UPDATE keeps a book sound if and only if it does not bring back a closed order whose remainder is no longer covered. |
| BrokerReservations.ReservedBlameExactly | server/src/services/broker_store.py:109-115 | A later snapshot of a just reserved order can blame the book if and only if the intent enters by selling more than is held: reserve checks holdings for exits only. |
| BrokerCorners.MarkRevivesClosedEntry | server/src/services/broker_store.py:141-147 | From any fresh book with a live strategy, after buying and selling one position, a mark is accepted that brings the filled entry back pending for the closed position: the book is no longer sound. |
| BrokerCorners.OversellingIsBlamed | server/src/services/broker_store.py:109-115 | From any fresh book an intent that enters by selling is reserved, and its fill is then refused for the book's sake. |
| BrokerReservations.ReserveSound | server/src/services/broker_store.py:74-138 | An accepted reservation with a coherent intent keeps the book sound. |
| BrokerReservations.SnapshotSound | server/src/services/broker_store.py:150-328 | Every accepted snapshot keeps the book sound, also for the orders of other positions. |
| BrokerChunking.ChunkingIndependent | server/src/services/broker_store.py:209-329 | Any accepted sequence of cumulative snapshots of one order leaves the same filled amounts, holdings, unit costs, positions, cash and total profit as its last snapshot alone, which is then accepted too. |
| BrokerChunking.SnapshotsJoin | server/src/services/broker_store.py:209-317 | A later cumulative snapshot makes an earlier one of the same order redundant. |
| BrokerChunking.AlikeMoney | server/src/services/broker_store.py:341-345 | Books that agree in this sense hold the same cash, cost and profit for every strategy. |
| BrokerChunking.FinalStatus | server/src/services/broker_store.py:216-219 | The one column chunking can change is the order's status: an outstanding cancellation hides later open and partial reports, otherwise the last report decides. |
| BrokerChunking.ReapplyIsHarmless | server/src/services/broker_store.py:207-328 | Applying an accepted snapshot again is accepted and adds one event, nothing else. |
| BrokerChunking.HoldingJoined | server/src/services/broker_store.py:272-277 | Averaging two fills into the unit cost one after the other equals averaging their sum. |
| BrokerHistory.FillsAddUp | server/src/services/broker_store.py:220-324 | After any run each order's filled quantity, notional and fees are the sums over the trades booked for it. |
| BrokerHistory.JournalOnlyGrows | server/src/services/broker_store.py:190-328 | Over any sessions an order's intent and broker identity never change, its fills never shrink nor pass its quantity, a closed order and a booked trade are never altered, a closed position never reopens and the event log only grows. |
| BrokerHistory.EngineOrderPlacedOnce | server/src/services/broker_store.py:75-77 | In any run from a fresh book two orders of a strategy that carry the same engine order are a buy and a sell, or sells of different amounts; never two buys and never two sells of one amount. |
| BrokerHistory.RunKeys | server/src/services/broker_store.py:116-120 | No two orders of a strategy ever share an intent key, and each key is its intent's. |
| BrokerAccounting.ReadingIsCash | server/src/services/broker_store.py:170-191 | An accepted crypto reply moves exactly its net notional, bounded by the gross, an equity reply quantity times price and its fees; quantity and fees are never negative. |
| BrokerHistory.ReservedBesides | server/src/services/broker_store.py:96-107 | On a sound book an entry is reserved only when nothing of its strategy is pending, an exit only beside orders for other positions. |
| BrokerStore.Journal.Reserve | server/src/services/broker_store.py:74-138 | The checks in the program's order insert exactly the row of the specified step and report it; any refusal leaves every table as it was. |
| BrokerStore.Journal.Mark | server/src/services/broker_store.py:141-147 | Changes exactly the status and the identities given of one order, unless a unique index refuses. |
| BrokerStore.Journal.ApplySnapshot | server/src/services/broker_store.py:150-328 | Books a snapshot whole or returns its first refusal with every table unchanged. |
| BrokerStore.Journal.BookNewPart | server/src/services/broker_store.py:220-310 | Trade, position, holding and book revision of the new part of a fill, or the refusal and no change. |
| BrokerStore.Journal.CommitRisk | server/src/services/confirmed_execution.py:112-134 | The compare and set accepts exactly a current revision pair and then advances the execution revision by one. |
| BrokerStore.Journal.Allocate | server/src/services/allocation_service.py:109-136 | A first allocation of a strategy without orders advances its execution revision, and nothing else changes. |
| BrokerStore.Journal.ExecutionInputs | server/src/services/broker_store.py:331-395 | Cash, realized profit, open holdings and the count of closed positions are those of the journal; on a sound book it fails only for want of a position template, and on a balanced one cash plus cost equals capital plus profit. |
| BrokerStore.Journal.SumFlows | server/src/services/broker_store.py:341-345 | The loop over the order history computes the cash all orders have moved. |
| BrokerStore.Journal.OpenHoldings | server/src/services/broker_store.py:346-376 | Every open position with its exact holding and their value; it fails only for a position without a recorded entry, without a template or without a holding. |
| BrokerSession.DriverNeverBlamesBook | server/src/services/broker_execution.py:154-173 | After any sessions with fair intents and any answers, deaths included, no snapshot is refused for the book's sake and every mark of a reconciliation or cancellation takes effect. |
| BrokerSession.CallDisciplined | server/src/services/broker_execution.py:154-203 | The driver never marks a closed order pending: the discipline the journal relies on is kept by each of its calls. |
| BrokerSession.SubmittedOrderIsKept | server/src/services/broker_execution.py:382-394 | A submitted order stays pending or is closed by the very status the broker sent; a process that dies leaves it as reserved. |
| BrokerSession.SubmitIntent | server/src/services/broker_execution.py:381-394 | Reserve, submit, then record an order, an approval or an unknown outcome: the journal ends in the specified state for every answer. |
| BrokerSession.ReconcileOrder | server/src/services/broker_execution.py:154-173 | One pending order is rejected, snapshotted, or marked uncertain, and a closed order is left alone. |
| BrokerSession.CancelOrder | server/src/services/broker_execution.py:194-203 | Only a pending order with a broker identity is marked for cancellation. |
| BrokerReplies.ReportedStates | server/src/services/broker_store.py:152-169 | An accepted reply leaves an order that was out filled, canceled or rejected as its word says; the six words of an open order leave it out, with their exact status unless a cancellation is outstanding; any other word is refused. |
| BrokerReplies.KnownWords | server/src/services/broker_store.py:152-169 | Exactly the thirteen words of the vocabulary are read, each as one status. |
| BrokerReplies.ReplyRow | server/src/services/broker_store.py:194-328 | An accepted reply writes the reported quantity, money, identity and status of its own order and one event, and amounts never fall nor pass the order. |
| BrokerReplies.ReplyWithoutFill | server/src/services/broker_store.py:214-220 | A reply without new quantity moves no money and changes no position, holding, trade or revision. |
| BrokerReplies.ReplyWithFill | server/src/services/broker_store.py:220-314 | New quantity moves the holding by exactly itself, opens the position of a buy, closes that of a sell exactly when nothing is left, and is recorded as one trade of the differences, with the profit a sell made. |
| BrokerReplies.EquityReplyBooked | server/src/services/broker_store.py:150-328 | On a sound book an honest equity reply about an order that is out is accepted, and the order then tells its quantity, its worth and its fees. |
| BrokerReplies.CryptoReplyBooked | server/src/services/broker_store.py:177-187 | The same for a crypto reply: what its net notional adds to or takes from the rounded one are its fees. |
| BrokerProgress.ExitReservedExactly | server/src/services/broker_store.py:95-115 | On a sound book an exit is reserved if and only if its strategy is live or has a live exit monitor, it sells no more than the strategy's own open holding, nothing is out on that position, and the intent is new. |
| BrokerProgress.EntryReservedExactly | server/src/services/broker_store.py:78-94 | On a sound book an entry is reserved if and only if its strategy is live, its evaluation current, its position new or the strategy's open one, nothing of the strategy is out, and the intent is new. |
| BrokerProgress.SameKeyExactly | server/src/services/broker_store.py:75-77 | When two intents count as the same: one engine order, or none and the same evaluation, position and action; and, for sells, the same amount. |
| BrokerProgress.MarkTakesEffect | server/src/services/broker_store.py:141-147 | On a sound book every mark of an order that is out writes its status and the identities given, and nothing else. |
| BrokerProgress.FreshEvaluationAccepted | server/src/services/confirmed_execution.py:112-134 | An evaluation is accepted whatever ran since it read its revision, as long as nothing of its strategy was booked, committed or allocated; its revision then advances by one. |
| BrokerProgress.FreshEntryReserved | server/src/services/broker_store.py:78-138 | And its entry is then reserved, if its strategy is live with nothing out and position and intent are new. |
| BrokerProgress.EveryPositionCanExit | server/src/services/broker_store.py:95-138 | After any operations, cut off after any commit, every open position with nothing out on it can be sold, in part or whole, whatever became of its strategy's status: the exit is reserved. |
| BrokerProgress.ExposedHasPosition | server/src/services/confirmed_execution.py:229-247 | An exposed strategy with nothing out has such a position. |
| BrokerProgress.WholeFillAccepted | server/src/services/broker_store.py:150-328 | The report that a just reserved order is filled whole is accepted and the order tells it. |
| BrokerProgress.WholeSaleCloses | server/src/services/broker_store.py:278-300 | A fill that sells all that is held closes the position and leaves nothing. |
| BrokerHistory.HoldingsAreTrades | server/src/services/broker_store.py:244-310 | After any run what is held of every position is exactly what its buys brought less what its sells took. |
| BrokerStore.ValuesAre | server/src/services/broker_store.py:346-376 | What a strategy holds is worth the sum of its quantities times the mark, so account value is cash and that. |
| BrokerSession.SubmissionRecorded | server/src/services/broker_execution.py:381-394 | What every answer to a submission leaves in the journal: its snapshot booked, its approval awaited, its outcome uncertain, or the order as reserved when the process dies. |
| BrokerSession.ReconciliationRecorded | server/src/services/broker_execution.py:154-173 | What a reconciliation leaves: a declined approval rejected, a found order's snapshot booked or refused, a submission that was not found uncertain, a closed order untouched. |
| BrokerSession.CancellationRecorded | server/src/services/broker_execution.py:194-203 | A cancellation is recorded exactly for an order that is out and known to the broker. |
| RevisionFence.EntryFence | server/src/services/broker_store.py:80-94 | If an entry is reserved at the revision its evaluation's commit has reached, then since the evaluation read its revision no fill of the strategy was booked; and if that commit was accepted it is the only one, from that revision, with no capital allocated, and the strategy is still live. |
| RevisionFence.RevisionsCount | server/src/services/confirmed_execution.py:75-82 | Over every run the two revisions count booked fills, and accepted evaluations and first allocations, and nothing else moves them. |
| RevisionFence.RevisionSpentOnce | server/src/services/confirmed_execution.py:112-134 | Once an evaluation is accepted from a revision, that revision is never current again, so at most one of those started from it is accepted. |
| ExitMonitor.NoUnmonitoredExposure | server/src/services/strategy_service.py:491-562 | After any operations, cut off after any of their commits, a strategy with an open position or unresolved order is live or has its exits monitored. |
| ExitMonitor.MonitorClearedOnlyWhenFlat | server/src/services/strategy_service.py:832-851 | An operation removes a live exit monitor only from a strategy without exposure. |
| ExitMonitor.StepExposes | server/src/services/broker_store.py:79-95 | A broker transaction exposes only a strategy that was exposed already or is allowed to trade. |
| ExitMonitor.UpdateMonitored | server/src/services/strategy_service.py:66-98 | A status change keeps every exposed strategy monitored after each of its commits. |
| ExitMonitor.StopMonitored | server/src/services/local_deployment.py:194-217 | Stopping an adopted strategy keeps it monitored after each of its commits. |
| ExitMonitor.ActivateMonitored | server/src/services/local_deployment.py:150-181 | Activation keeps the monitoring also when scheduling fails and the status is taken back. |
| ExitMonitor.StatusCommitMonitoredExactly | server/src/services/strategy_service.py:491-562 | Without the locks: leaving the live status without a monitor is right if and only if the strategy is flat at the moment of the commit. |
| ExitMonitor.StaleStatusChangeLosesMonitor | server/src/services/strategy_service.py:491-562 | From any fresh book: a status change decided before an entry was reserved and committed after it leaves the order out, unmonitored. |
| DexMonitor.NoUnmonitoredSwap | server/src/services/strategy_service.py:832-851 | The same with swaps: while reconcilers commit what is still so, a strategy with an open position or unfinished swap is live or monitored after any cut-off. |
| DexMonitor.EntryFillMonitoredExactly | server/src/services/dex_confirmed.py:416-430 | Booking checks only that an order is not confirmed; an entry's late fill keeps the monitoring if and only if its strategy may still trade. |
| DexMonitor.UpdateMonitoredExactly | server/src/services/dex_confirmed.py:94-103 | An update protects only a confirmed status; an accepted one keeps the monitoring if and only if it leaves its order finished, found it unfinished, or the strategy may trade. |
| MonitorRaces.LateFillUnmonitored | server/src/services/dex_confirmed.py:416-430 | From any fresh monitored state: an entry is closed with its fees, its strategy made inactive, and an old reading then books the fill: an open position of an inactive, unmonitored strategy. |
| MonitorRaces.LateUpdateUnmonitored | server/src/services/dex_confirmed.py:94-103 | The same start, and an old reading's update takes the closed order up again: an unfinished swap of an inactive, unmonitored strategy. |
| DexMonitor.OperationMonitored | server/src/services/strategy_service.py:66-98 | Status changes and monitor clearing act on swap strategies as on broker strategies and keep them monitored. |
| StrategyLifecycle.HasExposure | server/src/services/confirmed_execution.py:229-247 | True exactly when an open position or a pending order of the strategy exists. |
| StrategyLifecycle.RetainedMonitor | server/src/services/strategy_service.py:66-77 | The retained mode is that of the specification for every row and surrounding. |
| StrategyLifecycle.UpdateStatus | server/src/services/strategy_service.py:491-562 | Retains the monitor, then changes the status; for any number of surviving commits the row is the specified one. |
| StrategyLifecycle.StopAdopted | server/src/services/local_deployment.py:194-217 | Status and retained monitor are written together, so no commit leaves an exposed strategy inactive and unmonitored. |
| StrategyLifecycle.ActivateAdopted | server/src/services/local_deployment.py:150-181 | Refuses unresolved orders and missing routes, and undoes its commit when scheduling fails. |
| StrategyLifecycle.FinishIfFlat | server/src/services/strategy_service.py:832-851 | Clears the monitor exactly when its kind of exposure is gone. |
| MonitorProgress.UpdateTakesEffect | server/src/services/strategy_service.py:491-562 | Exactly which status changes are accepted, and the row each leaves: its target, with the monitor its exposure needs when trading ends and the monitor there was otherwise. |
| MonitorProgress.AllowedExactly | server/src/services/strategy_service.py:57-63 | The permitted transitions are exactly the ten of the table. |
| MonitorProgress.StopTakesEffect | server/src/services/local_deployment.py:194-217 | A confirmed stop leaves an adopted strategy inactive with exactly the monitor its exposure needs. |
| MonitorProgress.ActivateTakesEffect | server/src/services/local_deployment.py:150-181 | An adopted strategy becomes live exactly with confirmation, consent, a route, nothing unresolved and a working scheduler; otherwise its row is as it was. |
| MonitorProgress.FinishTakesEffect | server/src/services/strategy_service.py:832-851 | A monitor is cleared if and only if its kind of exposure is gone. |
| MonitorProgress.ExposedExactly | server/src/services/confirmed_execution.py:229-247 | Exposure is an open position or an order that is neither filled, canceled nor rejected. |
| BudgetSafety.BudgetHolds | server/src/services/spend_service.py:224-237 | From installation, under every interleaving: net spend of the current period is within its cap, of the whole run within the sum of the caps, refunds never exceed payments, and a positive cap reached has latched. |
| BudgetSafety.RunWithinCaps | server/src/services/spend_service.py:526-590 | Caps, refund rows, periods and the latch stay consistent through every run. |
| BudgetSafety.SpentIsNet | server/src/services/spend_service.py:224-237 | Confirmed refunds of a period never exceed its counted payments, so the clamp at zero never decides the total. |
| BudgetSafety.ReservedSpent | server/src/services/spend_service.py:558-588 | An accepted reservation raises the current period's spend by exactly its amount and no other period's. |
| BudgetSafety.SettleCostsNothing | server/src/services/spend_service.py:627-643 | Evidence of settlement changes the cost of no payment in any period: it was counted from reservation on. |
| BudgetSafety.EvidenceLowersCost | server/src/services/x402_reconciliation.py:66-98 | Recorded evidence never raises a payment's cost and keeps refunds sound. |
| BudgetSafety.LatchOpensOnlyBelowCap | server/src/services/spend_service.py:646-668 | Within a period the latch opens only for a release or refund of a payment of that period, and only with spend below the cap afterwards. |
| BudgetSafety.PreflightAgreesWithGate | server/src/services/spend_service.py:434-452 | The pre-flight refuses exactly when reserving one micro-USD would be refused. |
| BudgetSafety.ResetWithinCaps | server/src/services/spend_service.py:711-740 | A top-up starts a period with no spend under the agreed cap and leaves closed periods within theirs. |
| BudgetSafety.NoTransferCreditsTwice | server/src/services/refund_service.py:81-103 | Over any run no refund transfer on a network confirms two credits. |
| LedgerHistory.LedgerOnlyAdvances | server/src/services/spend_service.py:627-695 | Under any interleaving a payment's terms never change, settled and released are final, evidence and confirmed refunds are never rewritten, complete operations stay complete. |
| LedgerHistory.SettleAdvances | server/src/services/spend_service.py:627-643 | Settlement changes the last attempt of the list only; earlier signatures stay as they were. |
| OperationChain.NeverPaidTwice | server/src/services/payment_operations.py:67-137 | From installation, under every interleaving of begin, reserve, settle, release, reconcile, complete and abandon, two payments of one action are never both authorized or settled. |
| OperationChain.RunSound | server/src/services/payment_operations.py:67-137 | Links stay sound, injective and with one open end per action, closed operations keep no live payment, through every run. |
| OperationChain.OneLivePaymentPerAction | server/src/services/payment_operations.py:133-137 | In a sound chain at most one payment of all operations of one action is live. |
| OperationChain.WalkEnds | server/src/services/payment_operations.py:74-80 | Following links from any operation ends at an unreplaced operation of the same action, so links form no cycle. |
| OperationChain.SameTail | server/src/services/payment_operations.py:74-80 | All operations of one action end at the same operation: they lie on one line. |
| OperationChain.OwnerMayPayOnce | server/src/services/payment_operations.py:83-130 | Whoever begin makes the owner holds a pending operation of the named action that has never had a payment. |
| OperationChain.ResolvedOwnerMayPayOnce | server/src/services/payment_operations.py:67-130 | The same with any transactions between following the links and deciding. |
| OperationChain.NamelessJoins | server/src/services/payment_operations.py:120-130 | Identical requests without identity share one operation: such a call joins the oldest pending one or starts the only pending one. |
| OperationChain.ReplaceSound | server/src/services/payment_operations.py:100-107 | Replacing a proven unpaid operation keeps the chain sound. |
| OperationChain.RunKeepsAction | server/src/services/payment_operations.py:184-195 | No run drops an operation or moves it to another action. |
| BudgetProgress.ReservedExactly | server/src/services/spend_service.py:480-590 | A payment is reserved if and only if its amount can be stored, its operation is pending with nothing else out or paid, the latch is open and it fits under the cap; otherwise nothing changes. |
| BudgetProgress.ReservationWrites | server/src/services/spend_service.py:558-590 | A reservation writes one authorized row of the current period, and closes the latch if and only if the period's spend is then positive and at least the cap. |
| BudgetProgress.LatchClosesOnlyAtCap | server/src/services/spend_service.py:578-602 | In every transaction of the ledger only an accepted reservation closes the latch, and only with the period's spend positive and at least the cap. |
| BudgetProgress.RestStillFits | server/src/services/spend_service.py:558-590 | What an accepted reservation leaves of the budget can be spent: any payment within it is reserved next. |
| BudgetProgress.SettlementWrites | server/src/services/spend_service.py:627-643 | Settles the last payment of the list with its transaction if it is still authorized, and changes nothing else. |
| BudgetProgress.RefusedSignatureReleases | server/src/services/spend_service.py:646-668 | A refused signature gives its amount back to its own period, and the latch opens if and only if that payment was what made the current period look full. |
| BudgetProgress.ReleaseWrites | server/src/services/spend_service.py:672-695 | A release closes exactly the listed payments still authorized, with its reason. |
| BudgetProgress.TopUpReopens | server/src/services/spend_service.py:711-740 | A top-up starts the next period with nothing spent and the latch open, under the cap agreed to or the one there was. |
| BudgetProgress.SettlementEvidenceWrites | server/src/services/x402_reconciliation.py:66-98 | Evidence of settlement settles the unchanged authorized row and is kept; a row that changed is left alone. |
| BudgetProgress.UnpaidEvidenceReleases | server/src/services/x402_reconciliation.py:66-98 | Evidence that a payment can never be paid releases it, gives the amount back, opens the latch if the current period is then below its cap, and closes its operation if nothing of it is out or paid any more. |
| BudgetProgress.RefundConfirmed | server/src/services/refund_service.py:81-103 | A transfer no other refund of the network names confirms the credit of an unchanged settled payment: its period has the amount back, and the latch opens if the current one is then below its cap. |
| OperationProgress.RetryIsTold | server/src/services/payment_operations.py:67-130 | Whoever names an operation is answered at the end of its line: a pending or complete one is handed over unchanged, another request refused, an unpaid failed one reclaimed, one whose payments are all proved unpaid succeeded if replacement is permitted, any other refused. |
| OperationProgress.OtherNamesAreTold | server/src/services/payment_operations.py:67-130 | A line past the history limit is refused, and a name never heard of starts an operation under that name. |
| OperationProgress.CompletionIsDelivered | server/src/services/payment_operations.py:83-119 | Over any run a complete operation answers every later retry of its request, by its own name or any earlier one on its line, and nothing is written. |
| OperationProgress.CompletedIsAnswered | server/src/services/payment_operations.py:224-230 | In particular from the completion of a pending operation on. |
| OperationProgress.RunKeepsLinks | server/src/services/payment_operations.py:104-114 | Over any run a replacement link, once made, is never changed. |
| OperationProgress.ProvedUnpaidIsPaidAgain | server/src/services/payment_operations.py:93-114 | Evidence that an operation's one live payment expired or was cancelled closes it; once replacement is permitted the retry owns a new operation of the action, and the same amount is reserved for it however full the budget was. |
| OperationProgress.CompletionFinishes | server/src/services/payment_operations.py:224-230 | Completing a pending operation finishes it and drops its headers; any other stays as it is. |
| OperationProgress.FailureOpensRefunds | server/src/services/refund_service.py:23-36 | A failed completion of an operation that sent its headers opens a refund for exactly its settled positive payments, each of its own amount and network; no other completion opens one, and refunds there were stay. |
| OperationProgress.OwedIsCredited | server/src/services/refund_service.py:81-103 | From installation, whatever ran before and since: what a failed operation owes has its refund, and any transfer that no other refund of the network names confirms it and gives the amount back. |
| OperationProgress.HeadersAreSavedOnce | server/src/services/payment_operations.py:215-221 | Headers are saved exactly once, for a pending operation. |
| OperationProgress.AbandonedExactly | server/src/services/payment_operations.py:233-237 | An operation is abandoned if and only if it is pending, sent no headers, and nothing of it is out or paid. |
| OperationProgress.IdentityIsRecorded | server/src/services/payment_operations.py:184-195 | An operation starts its own action, an existing identity keeps its action and its link, and a token is there afterwards. |
| OperationProgress.PermissionIsRecorded | server/src/services/payment_operations.py:198-203 | Permission to replace is recorded with the identity, and action and link stay. |
| PaymentStore.Store.Reserve | server/src/services/spend_service.py:480-590 | The gate refuses for the specified reason or inserts one authorized row, latching exactly when the cap is reached by a positive total. |
| PaymentStore.Store.SpentIn | server/src/services/spend_service.py:224-237 | Two table scans compute the counted payments less the confirmed refunds, never below zero. |
| PaymentStore.Store.Settle | server/src/services/spend_service.py:627-643 | Settles the last identifier if it is still authorized, and nothing else. |
| PaymentStore.Store.ReleaseUnsigned | server/src/services/spend_service.py:646-668 | Releases an authorized row and reopens the latch exactly when that row made the current period look full. |
| PaymentStore.Store.Release | server/src/services/spend_service.py:672-691 | Releases exactly the authorized rows among those listed. |
| PaymentStore.Store.Reset | server/src/services/spend_service.py:711-740 | Advances the period, clears the latch and keeps the cap unless a new one is given. |
| PaymentStore.Store.CheckBeforePayment | server/src/services/spend_service.py:434-452 | Allows exactly when the latch is open and something is left. |
| PaymentStore.Store.RequireUnsigned | server/src/services/payment_operations.py:133-137 | Passes exactly a pending operation without an unreleased payment. |
| PaymentStore.Store.RecordEvidence | server/src/services/x402_reconciliation.py:66-98 | Applies evidence to the unchanged row only, with its effect on latch and operation, or changes nothing. |
| PaymentStore.Store.ConfirmRefund | server/src/services/refund_service.py:81-103 | Confirms one credit for an unchanged settled payment if its transfer is not another credit's. |
| PaymentStore.Store.ReviewRefund | server/src/services/refund_service.py:158-161 | A refund under review is marked so, and a confirmed one never. |
| PaymentStore.Store.WatchSettled | server/src/services/refund_service.py:23-36 | Adds one watched refund for every positive settled payment of the operation and keeps the rows there are. |
| PaymentStore.Store.SaveHeaders | server/src/services/payment_operations.py:215-221 | Saves once, for a pending operation, and reports whether it did. |
| PaymentStore.Store.Complete | server/src/services/payment_operations.py:224-230 | Completes a pending operation, opening refunds first when it failed. |
| PaymentStore.Store.Abandon | server/src/services/payment_operations.py:233-237 | Closes a pending operation that has neither headers nor an unreleased payment. |
| PaymentStore.Store.IdentityHeaders | server/src/services/payment_operations.py:184-195 | Answers with the action the chain started with, adding a token only where it is missing. |
| PaymentStore.Store.Newest | server/src/services/payment_operations.py:73-80 | The bounded loop finds the end of the chain within 64 looks or reports that it could not. |
| PaymentStore.Store.ProvenUnpaidNow | server/src/services/payment_operations.py:151-165 | True exactly when the operation is closed, had payments, and each is released, unspent and matched by expiry or cancellation evidence. |
| PaymentStore.Store.Begin | server/src/services/payment_operations.py:82-130 | The second bounded loop, the search for a pending operation of the same request, and the decision: owner, existing operation, or the specified refusal, and the rows that go with it. |
| PaymentStore.Store.Twin | server/src/services/payment_operations.py:120-126 | The scan finds the oldest pending operation of the same request, or none exactly when there is none. |
| CloseDelivery.NothingLost | server/src/services/confirmed_execution.py:173-198 | With complete history every booked close without a receipt is delivered and only booked closes are; with incomplete history nothing is. |
| CloseDelivery.ShortDeliveryExactly | server/src/services/confirmed_execution.py:177-196 | A partial delivery is sent if and only if the engine's history has no hole up to its cursor and nothing new exited before its watermark. |
| CloseDelivery.DeliveryIsSafe | server/src/services/confirmed_execution.py:94-111 | Over any overlap of fills and evaluations and any answers, stored receipts name booked closes only, the stored cursor never passes the latest booked close, and unacknowledged closes are still delivered. |
| CloseDelivery.SafeFromTheFirst | server/src/services/confirmed_execution.py:94-111 | The same from a strategy's first evaluation on, whatever was booked before it. |
| CloseDelivery.AllowedIsBacked | server/src/services/confirmed_execution.py:94-111 | A risk state that passes the checks acknowledges booked closes only and keeps its cursor within them. |
| CloseDelivery.RiskRow.SaveRisk | server/src/services/confirmed_execution.py:85-134 | Stores the answer exactly when it is allowed and the evaluation is current. |
| CloseDelivery.RiskRow.LatestBound | server/src/services/confirmed_execution.py:101-111 | The loop finds the latest of the delivered bookings and the old cursor, and none when the old cursor is unreadable. |
| CloseDelivery.DeliveredExactly | server/src/services/confirmed_execution.py:173-198 | A replay sends every booked close, a short delivery exactly those booked after the cursor, and both in the order of booking. |
| CloseDelivery.AnswerStoredExactly | server/src/services/confirmed_execution.py:85-134 | An answer is stored if and only if it is honest, the history complete and settled and the evaluation current; otherwise only the evaluation ends. |
| CloseDelivery.CaughtUpIsSentNothing | server/src/services/confirmed_execution.py:173-198 | Nothing is sent to an engine that has acknowledged everything. |
| CloseDelivery.AcknowledgedOnce | server/src/services/confirmed_execution.py:85-198 | An engine that answers a delivery with a receipt for each close and its cursor at the last booking is believed, and the next delivery sends none of them again. |
| DexAccounting.FillsBookedOnce | server/src/services/dex_confirmed.py:404-504 | Under any interleaving of reconcilers and updates, stale ones included, a booked fill is never booked again nor rewritten, and no holding is negative. |
| DexAccounting.FeeOnlySettledExactly | server/src/services/dex_confirmed.py:368-379 | Recording fees keeps confirmed orders, their settlements and booked fills in step if and only if the order was not confirmed in the meantime. |
| DexAccounting.ContextWriteSettledExactly | server/src/services/dex_confirmed.py:94-103 | An accepted update, which writes back the whole context it read, keeps orders settled if and only if its order is not confirmed or the context read tells the order's fill and completeness. |
| DexAccounting.UntouchedReadIsCurrent | server/src/services/dex_confirmed.py:94-103 | A context may be written back as long as nothing committed to its order since it was read: no fill, fee record or other update. |
| DexAccounting.CurrentRunBalances | server/src/services/dex_confirmed.py:404-504 | While fee records and the contexts written back are current, confirmed and its settlement are never undone and, as long as a strategy's fills are financially complete, cash plus cost equals capital plus profit. |
| DexAccounting.SwapsOrderedOnce | server/src/services/dex_confirmed.py:52-91 | Over any run intent keys stay distinct, and a strategy never has two unfinished swaps for one position or two unfinished entries. |
| DexAccounting.FillConserves | server/src/services/dex_confirmed.py:420-436 | A complete fill moves cash, cost and profit so that they cancel. |
| DexRaces.StaleFeeRecordUndoesConfirmation | server/src/services/dex_confirmed.py:298-379 | The race, from any fresh book: approval read, swap booked, then the old fee record commits; the order is no longer confirmed, its holding stays, and the book no longer balances. |
| DexRaces.StaleFeeRecordMisstatesCash | server/src/services/dex_confirmed.py:368-379 | Undoing a confirmation misstates a complete book by exactly the order's cash flow. |
| DexRaces.StaleContextLosesSettlement | server/src/services/dex_confirmed.py:94-103 | The race, from any fresh book: a second process reads the row, the fill is booked, and its update then writes the old context back; the order stays confirmed but its settlement and completeness are gone, every earlier step being current. |
| DexRaces.LostForGood | server/src/services/dex_confirmed.py:416-419 | No later run brings a lost settlement back: the fill is booked already and no reader holds it. |
| DexFences.ReservationFence | server/src/services/dex_confirmed.py:47-51 | If a swap entry is reserved at the revision its evaluation's commit has reached, then since the evaluation read its revision nothing of the strategy was settled; and if that commit was accepted it is the only one, from that revision, with no capital allocated. |
| DexFences.BroadcastFence | server/src/services/dex_confirmed.py:119-133 | An entry is broadcast only if since it was reserved nothing of its strategy was settled, no evaluation was committed and no capital allocated, and the strategy is still live. |
| DexFences.RevisionsMove | server/src/services/dex_confirmed.py:377-379 | Over every run the two revisions count settlements, and accepted evaluations and first allocations, of the strategy, and nothing else moves them. |
| DexProgress.ExitReservedExactly | server/src/services/dex_confirmed.py:36-91 | An exit is reserved if and only if its strategy is live or has a live exit monitor, it spends no more than the strategy's holding, nothing is out there, and the intent is new. |
| DexProgress.EntryReservedExactly | server/src/services/dex_confirmed.py:36-91 | An entry is reserved if and only if its strategy is live, its evaluation current, its position new, every order of the strategy finished, and the intent new. |
| DexProgress.FreshEvaluationAccepted | server/src/services/confirmed_execution.py:112-134 | An evaluation is accepted whatever ran since it read its revision, as long as nothing of its strategy was settled, committed or allocated. |
| DexProgress.FirstAllocationRevises | server/src/services/allocation_service.py:109-136 | A first allocation of a strategy without swaps advances its execution revision, a later one does not. |
| DexProgress.BroadcastExactly | server/src/services/dex_confirmed.py:119-133 | From its reservation on an entry may be broadcast if and only if its strategy is live and nothing of it was settled, committed or allocated since; an exit always may. |
| DexProgress.UpdateTakesEffect | server/src/services/dex_confirmed.py:94-103 | An update gives every order that is not confirmed the status asked for, its hash and the context read before, and is refused exactly if it would take a finished order up again beside another. |
| DexProgress.FeesAreRecorded | server/src/services/dex_confirmed.py:368-379 | Fees alone finish an order without a fill, once, and advance the book revision. |
| DexProgress.BookedExactly | server/src/services/dex_confirmed.py:404-430 | A proved swap of an unconfirmed order is booked if and only if its position is new, for an entry, or the strategy holds at least what was spent, for an exit; otherwise nothing changes. |
| DexProgress.EntryBooked | server/src/services/dex_confirmed.py:404-504 | An entry's fill opens its position with what was received, at a unit cost that makes up what was spent. |
| DexProgress.ExitBooked | server/src/services/dex_confirmed.py:404-504 | An exit's fill takes what was spent from the holding at the cost it was bought for, closes the position exactly when nothing is left, and knows its profit exactly when all fees are known. |
| DexProgress.HoldingsAreTrades | server/src/services/dex_confirmed.py:420-504 | While what steps read is still so, what a position holds is exactly what its trades received less what they spent. |
| DexProgress.EveryPositionCanExit | server/src/services/dex_confirmed.py:36-133 | After any operations and transactions every open position with nothing out on it can be sold, whatever became of its strategy's status: the swap is reserved and may be broadcast. |
| DexStore.SwapJournal.Reserve | server/src/services/dex_confirmed.py:36-91 | Inserts exactly the specified reservation or nothing. |
| DexStore.SwapJournal.ReadContext | server/src/services/dex_confirmed.py:94-98 | The first statement of an update: what it read is what it will write. |
| DexStore.SwapJournal.WriteContext | server/src/services/dex_confirmed.py:98-103 | The second statement: never takes a confirmed status away, keeps the hash not given, and writes the context read before whole. |
| DexStore.SwapJournal.Update | server/src/services/dex_confirmed.py:94-103 | An update that nothing comes between is its two statements in a row. |
| DexStore.SwapJournal.RecordFeeOnly | server/src/services/dex_confirmed.py:368-379 | Overwrites any status but its own, and advances the book revision. |
| DexStore.SwapJournal.BookFill | server/src/services/dex_confirmed.py:404-504 | Books a verified receipt once, with trade, position, holding, order and revision, or changes nothing. |
| DexStore.SwapJournal.CashInputs | server/src/services/confirmed_execution.py:275-296 | Answers unless a confirmed order lacks its settlement; then cash is capital and the confirmed flows, it reports complete if and only if every outcome and fee is proved, and on a settled balanced journal complete cash plus cost equals capital plus profit. |
| DexStore.SwapJournal.SumCash | server/src/services/confirmed_execution.py:279-296 | The loop over the orders: cash, whether every outcome and fee is proved, and failure exactly at a confirmed order without settlement. |
| PaperSchedule.ScheduleBounds | server/src/services/paper_schedule_service.py:221-268 | Under every interleaving of starts, pauses, ticks, recoveries, late replies and crashes, evaluations stay within the maximum, claimed slots strictly increase and a schedule has at most one tick out. |
| PaperSchedule.RunSound | server/src/services/paper_schedule_service.py:101-303 | Rows, claims, ticks out and requests stay consistent through every run. |
| PaperSchedule.CallsCarryOpenSlots | server/src/services/paper_schedule_service.py:221-244 | Every call carries a slot not yet closed: a new claim, later than all before and counted once, or the pending slot, which counts nothing. |
| PaperSchedule.SuccessIsRecorded | server/src/services/paper_schedule_service.py:245-256 | The guard on a successful reply never discards it: its slot is always closed, without touching the count. |
| PaperSchedule.SupersededNeverActivates | server/src/services/paper_schedule_service.py:151-166 | A replaced request stays replaced, and its reply, however late, changes no row. |
| PaperSchedule.StoppedUntilStarted | server/src/services/paper_schedule_service.py:169-189 | A pausing, paused, exhausted or rejected schedule stays so and claims nothing until someone starts it, whatever replies arrive. |
| PaperSchedule.DispatchFills | server/src/services/paper_schedule_service.py:283-303 | Dispatch submits each due schedule once, in order, never beyond four out, and leaves one out only when four are. |
| ScheduleProgress.StartIsSent | server/src/services/paper_schedule_service.py:101-148 | Exactly which starts are sent: an unconfirmed one again as it is, any other as a new run under a new request with nothing counted. |
| ScheduleProgress.StartIsAnswered | server/src/services/paper_schedule_service.py:149-166 | The reply to the current request of an unconfirmed start makes it active with its run, uncertain or rejected; any other reply changes no row. |
| ScheduleProgress.ConfirmedStartRuns | server/src/services/paper_schedule_service.py:101-166 | Whatever else happened while it was asked, a confirmed start makes its schedule active with its run, unless it was paused, answered by another reply, or the process died. |
| ScheduleProgress.PauseIsSent | server/src/services/paper_schedule_service.py:169-180 | A pause is recorded at once in any state, a repeated one under the request before. |
| ScheduleProgress.ConfirmedPausePauses | server/src/services/paper_schedule_service.py:169-189 | Whatever else was running, a confirmed pause pauses, unless someone started or paused the schedule again or the process died. |
| ScheduleProgress.DispatchedExactly | server/src/services/paper_schedule_service.py:283-303 | A tick is submitted if and only if its schedule is active, its current slot not closed or a claim pending, no tick of it out and fewer than four at all. |
| ScheduleProgress.ReconciledExactly | server/src/services/paper_schedule_service.py:271-278 | A recovery is submitted if and only if a claim is pending on a schedule that needs attention or is being or has been paused, with no tick out. |
| ScheduleProgress.TickBegins | server/src/services/paper_schedule_service.py:221-239 | What a tick does first: call for the pending slot, claim the current one while evaluations are left, exhaust a run that has none, or leave. |
| ScheduleProgress.SuccessCloses | server/src/services/paper_schedule_service.py:245-256 | A successful reply closes its slot, resumes a schedule that still needs attention as the recovery found it, and leaves every other state alone. |
| ScheduleProgress.FailureNeedsAttention | server/src/services/paper_schedule_service.py:257-268 | A failure leaves the slot pending, and an active schedule in need of attention. |
| ScheduleProgress.DueIsServed | server/src/services/paper_schedule_service.py:221-303 | A due schedule with a free place is served: its slot is closed as at most one more evaluation, it stays active, and the place is free again. |
| ScheduleProgress.RecoveryResumes | server/src/services/paper_schedule_service.py:221-278 | An undisturbed recovery closes the pending slot without counting anything, and a schedule in need of attention is active again. |
| ScheduleProgress.FactsOverRuns | server/src/services/paper_schedule_service.py:221-268 | Over any run a schedule is exhausted only with all its evaluations claimed, and one that is active or needs attention has its server run. |
| PaperSchedule.Service.Start | server/src/services/paper_schedule_service.py:101-148 | Refuses, or claims a start under a new request, or repeats an unconfirmed one under its own. |
| PaperSchedule.Service.Pause | server/src/services/paper_schedule_service.py:169-173 | Stops local scheduling under the request it then sends, which a repeated pause keeps. |
| PaperSchedule.Service.PauseAnswer | server/src/services/paper_schedule_service.py:184-189 | Pauses exactly when the confirmed request is the one still pausing. |
| PaperSchedule.Service.BeginTick | server/src/services/paper_schedule_service.py:221-239 | Retries the pending slot, claims the current one, exhausts the schedule or does nothing, as specified. |
| PaperSchedule.Service.RecordResult | server/src/services/paper_schedule_service.py:248-256 | Closes the slot of the run it was claimed for and resumes only an undisturbed recovery. |
| PaperSchedule.Service.RecordFailure | server/src/services/paper_schedule_service.py:257-265 | An active schedule needs attention after any failure, and no other state changes. |
| PaperSchedule.Service.Reconcile | server/src/services/paper_schedule_service.py:271-278 | Takes a recoverable schedule that has no tick out, and only that. |
| PaperSchedule.Service.Dispatch | server/src/services/paper_schedule_service.py:283-303 | The loop submits exactly the specified schedules and marks them in flight. |
| PaperBook.PaperHolds | server/src/services/paper_confirmed.py:105-166 | From a fresh book: cash is never negative, cash and open positions make up capital and profit, a position has one entry and at most one full exit, an engine order fills at most once. |
| PaperBook.PaperRunSound | server/src/services/paper_confirmed.py:105-166 | Trades, positions, deduplication keys and money stay consistent through every run. |
| PaperBook.FillCancels | server/src/services/paper_confirmed.py:127-148 | Cash, cost and profit of one fill cancel. |
| PaperProgress.EntryFilledExactly | server/src/services/paper_confirmed.py:105-166 | Exactly which simulated entries are booked, and all that one writes: trade, position, key, revision, and cash less its price. |
| PaperProgress.ExitFilledExactly | server/src/services/paper_confirmed.py:105-166 | Exactly which simulated exits are booked: those that sell the whole of an open position of their own; otherwise nothing changes. |
| PaperProgress.ExitBooked | server/src/services/paper_confirmed.py:105-166 | All that a booked exit writes: trade, closed position, key and revision; its profit is the quantity times the difference of the prices, its proceeds are cash. |
| PaperProgress.FundedOnce | server/src/services/paper_confirmed.py:34-39 | The first positive funding is a strategy's cash, and later ones are ignored. |
| PaperProgress.CommittedExactly | server/src/services/confirmed_execution.py:112-134 | An evaluation's revision advances if and only if both of its readings are current. |
| PaperProgress.EveryPositionCanExit | server/src/services/paper_confirmed.py:105-166 | From a fresh book and after any run every open position can be sold whole at any positive price, however the cash stands, while its strategy runs on paper or has its paper exits monitored. |
| PaperStore.PaperJournal.Fill | server/src/services/paper_confirmed.py:105-166 | Books one fill with position, key and revision exactly when every check passes, the hold on entries of an unjournalled history included, or nothing. |
| PaperStore.PaperJournal.Inputs | server/src/services/paper_confirmed.py:30-102 | Funds once; in every reachable state reports complete history, non-negative cash and exactly the open and closed positions. |
| SchemaIds.ResolutionUnchanged | server/src/mcp/mangrove_proxy.py:425-453 | The list of references, each with its place, target and every enclosing identity, is the same before and after, at every depth. |
| SchemaIds.ReferencesStay | server/src/mcp/mangrove_proxy.py:407-412 | A subtree contains a reference after the pass exactly when it did before. |
| SchemaIds.EverythingElseStays | server/src/mcp/mangrove_proxy.py:425-453 | Every place but an inert identity still holds a value of the same shape, the same value at leaves, and nothing appears where there was nothing. |
| SchemaIds.DropIsIdempotent | server/src/mcp/mangrove_proxy.py:425-453 | A second pass changes nothing. |
| SchemaIds.KeptIdScopesReference | server/src/mcp/mangrove_proxy.py:425-463 | An identity the normalized schema still declares is the original one and scopes a reference. |
| SchemaIds.FieldKept | server/src/mcp/mangrove_proxy.py:440-453 | Each keyword of a visited object survives with its value visited or copied, except an inert identity. |
| BaseUnits.UnitsExact | server/src/services/receipt_settlement.py:63-69 | The printed text is a canonical decimal denoting amount over ten to the decimals, for every sign, amount and number of decimals. |
| BaseUnits.UnitsCanonical | server/src/services/receipt_settlement.py:63-69 | The same quantity in units of more decimals prints the same text. |
| BaseUnits.StripKeepsValue | server/src/services/receipt_settlement.py:69 | Stripping trailing zeros divides by the matching power of ten and loses nothing. |
| Receipts.VerifyFlows | server/src/services/receipt_settlement.py:286-355 | Accepts exactly the receipts whose usable, ordered logs prove the swap; amounts are the wallet's net outflow and inflow and the texts denote them. |
| Receipts.NetFlows | server/src/services/receipt_settlement.py:297-339 | The loop adds up the wallet's transfers per token, or stops exactly at a log that cannot be used. |
| Receipts.SelfTransfersCancel | server/src/services/receipt_settlement.py:335-339 | Transfers from the wallet to itself change no net flow. |
| BlockScan.SweepCovers | server/src/services/payment_reconciliation_worker.py:71-93 | A finished sweep searched every block once from where it began down to block zero or a window that begins before the payment. |
| BlockScan.TilesDisjoint | server/src/services/payment_reconciliation_worker.py:71-93 | No two windows of a sweep share a block. |
| BlockScan.NextWindowAdjacent | server/src/services/payment_reconciliation_worker.py:73-74 | Successive windows are adjacent if and only if the reported head does not fall below the carried block. |
| BlockScan.FailureRepeats | server/src/services/payment_reconciliation_worker.py:115-137 | A failed query keeps the carried block and repeats its window. |
| BlockScan.SweepTerminates | server/src/services/payment_reconciliation_worker.py:71-93 | The carried block falls by a window with every search, so a sweep without errors ends within one check per window. |
| BlockScan.NegativeCarryExactly | server/src/services/payment_reconciliation_worker.py:81-84 | The carried block becomes negative if and only if a transaction is found in a window that begins at block zero. |
| BlockScan.NegativeCarryIsStuck | server/src/services/payment_reconciliation_worker.py:73-84 | From a negative carried block no later check of that payment searches anything, whatever the node answers. |
| BlockScan.YoungChainSticks | server/src/services/payment_reconciliation_worker.py:73-84 | On a chain younger than a window, the first search that finds the transaction is the last search of that payment. |
| BlockScan.CarriedExactly | server/src/services/payment_reconciliation_worker.py:71-93 | What each search carries: nothing, so that the scan starts over, exactly when it found nothing down to block zero or a block before the payment, and otherwise the block below its window; an error changes nothing. |
| BlockScan.BatchExactly | server/src/services/payment_reconciliation_worker.py:101-107 | A round takes all that is due, up to what was asked for, taken to be at least one and at most five. |
| BlockScan.DelaysDouble | server/src/services/payment_reconciliation_worker.py:128-134 | The waits double from fifteen seconds to an hour, and an authorization not expired is looked at again fifteen seconds after it does, if that is sooner. |
| BlockScan.Worker.Claim | server/src/services/payment_reconciliation_worker.py:104-109 | Gives every authorized payment a job, leases exactly the earliest due ones, as many as the batch asks for between one and five, and leaves the others. |
| BlockScan.Worker.Finish | server/src/services/payment_reconciliation_worker.py:116-137 | Stores the attempt, the next check, sooner for an authorization about to expire and within the bounds, and the carried block, which only a search changes. |
| BlockScan.Worker.Scan | server/src/services/payment_reconciliation_worker.py:71-93 | One search carries the block the specification says; an error keeps it. |
| BlockScan.DelayBounds | server/src/services/payment_reconciliation_worker.py:132-134 | For any attempts, jitter and expiry a job waits at least fifteen seconds and at most an hour and the jitter. |
| OAuthConnection.TokenSentOnce | server/src/services/mangrove_oauth.py:246-277 | Across threads, processes, lost replies and deaths a refresh token is sent at most as often as the server issued it, so at most once under rotation. |
| OAuthConnection.ReissuedTokenSentTwice | server/src/services/mangrove_oauth.py:246-277 | The bound is reached: a five-step run from an empty store in which the server issues one token twice and it is sent twice. |
| OAuthConnection.SentTwice | server/src/services/mangrove_oauth.py:246-277 | From every idle state without a connection, whatever was sent before, a sign-in and two due refreshes of a server that does not rotate send its token twice. |
| OAuthConnection.KeptUntilRevoked | server/src/services/mangrove_oauth.py:206-243 | Every grant ever signed in is in the store as current or retired until the server confirmed its revocation. |
| OAuthConnection.NextAccounted | server/src/services/mangrove_oauth.py:262-277 | Each step pays every send, every thread about to send and a stored usable token with one issue by the server. |
| OAuthConnection.NextKept | server/src/services/mangrove_oauth.py:298-344 | No step drops a grant whose revocation is not confirmed. |
| OAuthProgress.SignInStores | server/src/services/mangrove_oauth.py:206-237 | A sign-in is stored if and only if nothing is stored or this issuer's grant that owes no revocation; the grant before becomes the retired one. |
| OAuthProgress.RetiredIsCleared | server/src/services/mangrove_oauth.py:238-243 | A confirmed revocation clears the retired grant from the record it was stored in, and from no later one. |
| OAuthProgress.RefreshBegunExactly | server/src/services/mangrove_oauth.py:246-264 | A refresh is begun if and only if a connected, refreshable grant of this issuer has a minute or less to live. |
| OAuthProgress.RefreshFinished | server/src/services/mangrove_oauth.py:265-277 | A begun refresh sends its token while the store is as it left it, and a reply renews tokens and expiry and nothing else. |
| OAuthProgress.RefreshRenews | server/src/services/mangrove_oauth.py:246-277 | A refresh that began alone renews the connection when its reply comes, however many threads asked for a token meanwhile, and none of them sends it. |
| OAuthProgress.DisconnectKeepsExactly | server/src/services/mangrove_oauth.py:325-344 | In every reachable state exactly the grants whose revocation was confirmed are gone from the store after a disconnect, and a disconnected record stays so. |
| OAuthConnection.Service.Start | server/src/services/mangrove_oauth.py:171-203 | Keeps an unexpired pending sign-in and refuses while a revocation is owed. |
| OAuthConnection.Service.Complete | server/src/services/mangrove_oauth.py:206-237 | A matching callback uses the pending sign-in up even when the exchange fails, and the old grant becomes the retired one. |
| OAuthConnection.Service.BeginAccess | server/src/services/mangrove_oauth.py:246-269 | Answers with the access token if and only if the connection is this issuer's and the token outlives the margin, and begins a refresh if and only if it is due and possible, its pending state committed before anything is sent. |
| OAuthConnection.Service.FinishAccess | server/src/services/mangrove_oauth.py:265-277 | Sends only for the record it committed and carries a retired grant along. |
| OAuthConnection.Service.FinishDisconnect | server/src/services/mangrove_oauth.py:325-344 | Keeps exactly the grants whose revocation was not confirmed. |

## Left out

* Float and 28-digit `Decimal` rounding: sums, averages and products are exact. The float columns of `trades` and
  `positions` that repeat journal amounts are not modelled; account value uses the exact holdings.
* Text formats: an intent key is a structured value, not a concatenated string, so two keys that would print
  alike are different here. Position templates, payload fields, event timestamps and error columns are dropped,
  and the symbol comparison of snapshots does not strip the `-USD` suffix.
* SQLite itself: a refused unique index or foreign key is a refused step, merged with the program's own refusals.
* HTTP, MCP, JSON-RPC, encryption, signatures and schema validation libraries: foreign code, whose results are
  parameters.
* The engine's evaluation, sizing and risk rules, portfolio halts, market quotes, wallet balances and slippage.
* The workflow budget that a reservation also consumes, and dollar conversion of caps for display.
* `_recover_pending`: the recovery attempted inside `begin` appears as arbitrary steps between its two transactions.
* Native fee accounting (`_fees`): whether all native fees are proved zero is one flag of a fill.
* The shared MCP session (`shared_session`, `drop_session`) and `validate_tool`: connection lifetime and size limits.
* Legacy rows that predate the journals, beyond the flags that say there are any, legacy swaps and the legacy paper position bookkeeping.
* Scheduler jobs and `restore_jobs`: jobs follow the committed rows and hold no money state.
* Upstream identity (`scope`) of schedules and deployments: one identity is assumed.
* The `marketplace.submit` claim, agent identity, secret vault and portfolio risk tables: short one-step properties.
- BrokerReservations.ReachableReservations: assumes that intents agree with themselves and that strategies do not share position identities; `MarkSoundExactly` and `ReservedBlameExactly` say what happens otherwise.
- BrokerProgress.ExitReservedExactly: for an exit that sells, on a sound book; an intent that arrives in final form may disagree with itself, as `ReservedBlameExactly` says.
- BrokerProgress.EntryReservedExactly: likewise for an entry that buys.
- BrokerProgress.EveryPositionCanExit: under the callers' discipline of `ReachableReservations`.
- BrokerSession.DriverNeverBlamesBook: calls are serialized by the process's broker lock; two processes on one database are covered by the step-level theorems only.
- ExitMonitor.NoUnmonitoredExposure: a lifecycle operation's reading and commits are one block, as the locks of one process make them; `StatusCommitMonitoredExactly` and `StaleStatusChangeLosesMonitor` say what happens between processes. A strategy is taken to use one journal, orders here and swaps in `DexMonitor`; paper exposure is a parameter.
- DexMonitor.NoUnmonitoredSwap: assumes that what a reconciler or an executor read of an order is still so when it commits, as the tick lock of one process gives; `EntryFillMonitoredExactly` and `UpdateMonitoredExactly` say what happens otherwise.
- BudgetSafety.BudgetHolds: the configured cap does not change during the run; a period's cap changes only by a top-up.
- CloseDelivery.DeliveryIsSafe: times are instants; ISO texts in UTC compare like them.
- DexAccounting.CurrentRunBalances: assumes that fee records and contexts written back are current, as the tick lock of one process gives; `FeeOnlySettledExactly` and `ContextWriteSettledExactly` are the exact conditions, `DexRaces` the runs that break them.
- DexProgress.HoldingsAreTrades: the same assumption.
- DexProgress.EveryPositionCanExit: assumes current readings as `DexMonitor.NoUnmonitoredSwap` does.
- DexStore.SwapJournal.CashInputs: the checks for legacy trades and unproven positions are the parameter `known`; closed positions and position payloads are left out.
- DexStore.SwapJournal.RecordFeeOnly: a revert also stores its details under the settlement key, which nothing reads of an order in that state; the model keeps no fill for it.
- BrokerStore.Journal.ExecutionInputs: which positions have a template is a parameter, payload fields other than quantity and unit cost are left out, and account value multiplies the exact holdings where the program multiplies the float column written with them.
- BrokerStore.Journal.OpenHoldings: the same template parameter; payload fields are left out.
- BrokerStore.Journal.Allocate: the allocation rows and the comparison with capital already recorded are left out; whether capital is recorded is a parameter, and of the history only the journal's own orders.
- StrategyLifecycle.HasExposure: pending legacy trades and the swap table of the same query are left out; `DexMonitor` covers strategies whose orders are swaps.
- PaymentStore.Store.Reserve: the workflow budget that a reservation also consumes before the gate is left out.
- PaymentStore.Store.Twin: the oldest operation is the first inserted; the program orders by creation time, then identity.
- CloseDelivery.RiskRow.SaveRisk: the position templates stored with the risk state are left out.
- PaperStore.PaperJournal.Inputs: reports sets of open and closed positions rather than their payloads; templates, fees, statuses and modes, which simulated rows all have alike, play no part in completeness.
- PaperStore.PaperJournal.Fill: whether a simulated trade predates the journal is a flag of the intent, and missing capital is a refusal.
- PaperSchedule.ScheduleBounds: one process; the set of ticks in flight is lost in a crash together with the threads.
- Receipts.VerifyFlows: hex parsing of a log is one flag per log, so which error a log with several faults reports is not compared.
- BlockScan.Worker.Claim: the query's answer is a parameter with its defining property as a precondition; ties of the next check are in any order, and a worker is taken to finish within its lease.
- BlockScan.Worker.Finish: the jitter is a whole number of seconds, and the outcome column is left out.
- OAuthConnection.Service.Complete: token validation is the difference between a reply and none.
- SchemaIds.ResolutionUnchanged: names in a map of subschemas are not counted as keywords, although the check for references does count them, which only keeps more identities.
