# Northstar safety core: a verified model

Northstar is a trading engine. Its safety rests on a few packages that do no I/O: a store of order records
that reconciles itself with what the broker reports, an execution manager that decides whether an intent may
be sent, and a pre-trade risk engine that shrinks or refuses an order. This project models those three in
Dafny and proves what they promise over every input and every run, together with the allocator's sizing,
bar aggregation, drawdown and three indicators.

The main results are said in the terms of the inputs and the state they leave: what a text says up to case and
padding, what two amounts differ by, what each equity of the account allows. They do not mention the functions by
which the operations decide, and would fail if one of those decided otherwise: which order a record is given
(`OrderOutcomes`), which request reaches the broker and what is asked of it (`ExecutionGates`), which size the
engine approves (`RiskApproval`), which notional is allocated (`AllocatorLaws`).

Each stateful component comes in two forms. A *specification* gives every operation as a function from one
state value to the next, and the laws are proved about it. A *class* updates its fields in place as the
program does, and each method's contract says that its new state is the specification's. The loops of the
store, the manager, the engine's fold and the smaller cores are loops here, proved against a function whose
properties are then proved. The risk rules themselves are functions, and take the sums over positions as
functions too; that the loops compute those sums is proved beside them.

| files | what they hold |
|---|---|
| `OrderModel`, `OrderSpec` | records, broker orders, broker truth, inference; the store's operations as functions |
| `ReconcileLaws`, `ReconcileStability`, `OrderRuns` | what reconciliation keeps, what a second run does, invariants over runs |
| `OrderOutcomes`, `OrderReports`, `OrderRestore` | what a run makes of each record and each listed order, what its report counts and says, what a restore reads back |
| `OrderSharing`, `OrderImports`, `OrderLimits`, `OrderLookup` | when two records share a broker order, repeated and blank ids in the list, when a broker id is found, any restored snapshot, ties; the store as the manager's lookup |
| `OrderStore`, `Arrange` | the store as a class, its methods and loops |
| `ExecutionModel`, `ExecutionSpec` | intents, dedupe key, broker replies; the manager's operations as functions |
| `ExecutionIndex`, `ExecutionLaws`, `ExecutionRuns` | indexes under any clock and lookup, one in flight per key, spacing of submissions; all three over runs, and restart |
| `ExecutionGates`, `ExecutionKeys`, `ExecutionOutcomes`, `ExecutionRestore` | which requests are sent and what is asked then, when two share a key, what the caller is told, what a look and a sweep change, what a restore tracks |
| `ExecutionLimits` | a run after which a restart differs, what reopens a closed execution, an id used twice |
| `ExecutionManager` | the manager as a class with tracked executions on the heap |
| `RiskRules`, `RiskEngine`, `RiskLaws`, `RiskApproval`, `RiskMismatch`, `RiskPortfolio` | sixteen rules, the engine, the minimum theorem, the largest acceptable size, requests that disagree with the price, portfolios over runs |
| `Allocator`, `AllocatorLaws` | the allocator's sizing and the largest notional that suits a trade |
| `Klines`, `Drawdown`, `Indicators`, `IndicatorWeights` | smaller arithmetic cores |
| `Basics`, `Reals`, `Text` | optional values and time, facts about reals, strings |

Time is a number of nanoseconds with 0 as the unset time. Prices and quantities are reals. Strings are
sequences of characters with ASCII case mapping. The order in which `Reconcile` visits records is a parameter:
any order sorted by submission time, as the program sorts what it collects from a map.

## What the proofs found

- A second reconciliation with the same inputs is stable, but it does rewrite the explanation (`reason`,
  `lastMessage`) of the open orders the first one imported, and counts each as a repair.
- Two records present before a run can end up with one broker order only in one way: an earlier pending record
  takes the order a later record already holds (`OrderSharing.SharedIffHeldBefore`, `OrderSharing.SharedIffWanted`;
  a case with two records is `OrderLimits.EarlierPendingTakesHeldOrder`). An id that no record ends up with is
  imported as often as it is listed, so an id listed twice is shared by two imports
  (`OrderImports.ImportedAsOftenAsListed`). Whatever the list, a second run imports again exactly the orders listed
  without an id (`OrderImports.SecondRunImportsBlanks`). Rivals submitted at the same instant may be visited in
  another order the second time, and then share an order too (`OrderLimits.TiesAreNotStable`).
- A snapshot that leaves out the authority of a record does not always get it back: not for a cancellation that was
  inferred, nor for an order the broker has only accepted, which then passes for one it has not answered
  (`OrderRestore.InferredIsRecovered`, `OrderRestore.ConfirmedIsRecovered`).
- The broker index is keyed by the id as received and searched by the trimmed id, so an order listed under a
  padded id is not found by it until a restart trims it (`OrderLimits.BrokerIdIsFoundAfter`,
  `OrderLimits.ImportIsFoundIff`). A restart also drops index keys whose record has moved to another order
  (`OrderLimits.RestartKeepsLookupIff`).
- A restart restores the manager exactly if and only if every key that stands for nothing had its last
  execution expire. There are orderly runs after which it does not: a stale execution gives up its key and its
  order is then seen open again (`ExecutionRuns.RestartIsExact`, `ExecutionLimits.RestartCanDiffer`).
- The manager's indexes need nothing of the clock or the order store. Submissions of a key are more than the
  dedupe window apart whatever the order store reopens, as long as the clock does not go back and no look dates
  the end of an execution before it was asked for. One execution in flight per key also needs that the order store
  reopens no execution that has given up its key, except those old enough to go stale at once
  (`ExecutionIndex.SweepStaysAloneIff`). The program can break that by itself: the broker's own answer can close
  an execution whose order record is still open, and the next look at that record reopens it
  (`ExecutionLimits.LookKeepsClosedIff`).
- When two executions in the history run under one id, the eviction of the older makes the manager forget the id
  of the newer, which then holds back no request like it (`ExecutionLimits.RepeatedIdIsForgotten`).
- An answer without an order id leaves the text `<nil>` in the result, and no later look ever fills in the real
  id (`ExecutionLimits.MissingOrderIdStays`).
- The allocator passes over a limit with no room left: a book beyond its gross limit is still allocated more
  (`Allocator.AllocationFitsUnlessSpent`, `Allocator.SpentLimitIsPassedOver`).
- A request whose quantity and notional disagree with the price is not decided by the least of the request and
  every cap, unless some rule turns it away or the rules put it right (`RiskMismatch.MismatchIsDecidedIff`).
  Participation goes by the quantity and every other cap by the notional: ten shares at 1.0 that say they are worth
  1.0 pass all sixteen rules with cash for two (`RiskMismatch.UnderstatedPassesCash`), and one share that says it is
  worth 1000 becomes a hundred shares with liquidity for five (`RiskMismatch.OverstatedPassesParticipation`).
- A blank sector puts the sector cap out of force (`RiskLaws.SectorExposureIsCap`), and a fill counts under the label
  of the position it adds to, whatever it was checked against (`RiskPortfolio.FillCountsUnderLabel`).
- An entry that leaves a portfolio beyond its net part on the far side is approved whole and yet called reduced
  (`RiskApproval.ReducedIff`).
- The allocator's warning for a base notional that is not positive is never given: with a positive equity and price
  the base notional is positive (`AllocatorLaws.WantedIs`, `AllocatorLaws.WarningsSayWhy`).
- With the separator inside a text, two different intents share a dedupe key (`ExecutionModel.SeparatorCollides`).

## Model

| member | source | states |
|---|---|---|
| ReconcileStability.ReconcileTwiceIsStable | orders/reconciliation.go:28-286 | with distinct non-empty broker ids, and no rivals for a listed order submitted at the same instant, a second run imports and matches nothing, finds no fill mismatch, has as many mismatches as unresolved outcomes, leaves every old record as it is, rewrites exactly the explanation of the open orders the first run imported, and makes as many repairs as there are of those |
| ReconcileLaws.ReconcileLosesNothing | orders/reconciliation.go:72-231 | every broker order with an id is the broker order of some record afterwards, no record disappears, and the store grows by exactly the imported orders under ids above the old counter |
| OrderSharing.SettledInTurn | orders/reconciliation.go:72-184 | each record is settled once, in its turn, against exactly the listed broker orders that the records before it end up with or that it holds itself |
| OrderSharing.SharedIffHeldBefore | orders/reconciliation.go:72-99 | two records end up with one listed order exactly when the earlier ends up with it and the later held it before |
| OrderSharing.SharedIffWanted | orders/reconciliation.go:72-99 | the order of its first holder is taken by an earlier record only if an earlier open record holds no listed order and fits it, and exactly then if such records fit no other |
| OrderSharing.SoleHolderStays | orders/reconciliation.go:72-231 | a listed order with one holder keeps that one holder, imports included, unless an open record submitted no later that holds no listed order fits it |
| OrderImports.ImportedAsOftenAsListed | orders/reconciliation.go:196-231 | an id gains as many new records as it is listed times if no record present before ends up with it, and none otherwise |
| OrderImports.SecondRunImportsBlanks | orders/reconciliation.go:28-286 | for every store and every list, a second run imports exactly as many orders as are listed without an id |
| OrderOutcomes.HolderTakesOver | orders/reconciliation.go:84-150 | an open record holding a listed order takes over the status, quantities, price and authority of the last order listed under its id, keeping its own quantities where they are within 0.02 or 2% |
| OrderOutcomes.FirstOnOfferIsTaken | orders/reconciliation.go:310-334 | an open record holding no listed order takes over the first listed order with its symbol and side up to case and padding, a quantity within 0.02 or 2% of its own, seen at most 30 seconds after submission, that no record settled before it ends up with |
| OrderOutcomes.MatchedIffOnOffer | orders/reconciliation.go:84-117 | such a record is matched exactly when some such order is on offer, and a record that comes to hold another id was given an order that was |
| OrderOutcomes.NoneOnOfferIsInferred | orders/reconciliation.go:152-184 | with none on offer it stays as it is while last seen or submitted at most 15 seconds ago, and otherwise gets an outcome borne out by the first position in its symbol and on its side |
| OrderOutcomes.AddedIsReadOff | orders/reconciliation.go:196-231 | every record a run adds is read off a listed order that no earlier record ends up with; selling a long or buying a short is read as its exit, other buys and sells as entries |
| OrderReports.ReportCountsEvents | orders/reconciliation.go:233-248 | the report's counters are the numbers of records that were matched, changed, found missing, inferred, left unresolved, resolved, or whose fill differs; review is called for when one is missing and trading blocked when one is left unresolved |
| OrderReports.IssuesAreTrue | orders/reconciliation.go:92-231 | every issue reported is true of a record the run settled, or of one it added |
| OrderReports.SummaryFollowsReport | orders/reconciliation.go:247-275 | a run adds its counters to the totals, dates itself and its outcomes, and leaves counts that are those of the records by status and authority |
| ReconcileLaws.ReconcileKeepsClosed | orders/reconciliation.go:80-82 | a filled, cancelled or rejected record is never altered |
| ReconcileLaws.UsedIsHeld | orders/reconciliation.go:72-99 | the broker ids marked as used by the record pass are exactly the open ones that some visited record ends up holding |
| ReconcileLaws.SettleKeepsIdentity | orders/reconciliation.go:336-389 | settling a record never changes its id, symbol, sides, intent, source or submission time |
| ReconcileLaws.SettlementBalances | orders/reconciliation.go:92-184 | each settled record adds one issue per mismatch, and a missing record is either inferred or unresolved |
| ReconcileLaws.ReconcileConservesCounts | orders/reconciliation.go:92-242 | mismatches are the sum of unknown, missing, fill mismatches and matches; inferred plus unresolved is missing; the issue list has the lesser of 12 and the mismatches |
| OrderModel.BrokerTruthIsStable | orders/reconciliation.go:336-389 | applying the same broker order twice is applying it once, and leaves no fill mismatch |
| OrderModel.BrokerTruthAgrees | orders/reconciliation.go:336-389 | afterwards status, quantities and price agree with the broker within the tolerances and identity is untouched |
| OrderModel.ApplyBrokerTruth | orders/reconciliation.go:336-389 | the field-by-field update gives the broker's view, reports a change exactly when something besides the times and last message differs, and a fill mismatch exactly when the fills differ and one is positive |
| OrderModel.FindPendingBrokerMatch | orders/reconciliation.go:310-334 | the loop finds the first broker order in the list that is free and fits the record, and none exactly when there is none |
| OrderModel.QuantityForIntentPosition | orders/reconciliation.go:584-601 | the loop finds the quantity of the first position of the record's symbol and side, or zero |
| OrderModel.InferenceFollowsEvidence | orders/reconciliation.go:391-556 | a filled entry is covered to 98% and filled by the request, a partial one by the lesser of position and request; a filled exit or protection has emptied the position, a partial exit and the position make up the request; nothing else is filled, and it is cancelled exactly when found at the broker or over ten minutes old and not protective; authority, confidence, review and explanation go with that |
| OrderModel.InferenceBalancesQuantities | orders/reconciliation.go:391-556 | filled and remaining split the requested quantity, exactly when that is not negative |
| OrderModel.UnresolvedIsRecent | orders/reconciliation.go:391-556 | what inference leaves unresolved has status unknown and is protective, or is a local order at most ten minutes old |
| OrderModel.InferenceIsStable | orders/reconciliation.go:391-582 | at the same instant the inference waits or answers the same again |
| OrderModel.OrderIdReadsBack | orders/lifecycle.go:371-386 | a generated order id is trimmed and its sequence number reads back |
| OrderRuns.ReachableInv | orders/lifecycle.go:22-256 | in every run from the empty store ids are bounded by the counter, records are in stored form, the index covers the broker ids, the counters equal a recount, and unresolved means unknown |
| OrderRuns.RunKeeps | orders/lifecycle.go:112-188 | in every run the invariant holds, no record disappears, the counter never goes back and a closed record stays closed |
| OrderRuns.SubmissionIsOnFile | orders/lifecycle.go:112-143 | a submission is found under an id never used, pending and awaiting the broker, with everything still to fill, and no other record has changed |
| OrderRuns.RejectionIsOnFile | orders/lifecycle.go:145-169 | a rejection is found under the order's id: rejected on the broker's word, for the message or the usual reason, dated, with everything the order was kept; no other record, index entry or counter changes, the active count drops by one if it was open, and an unknown id changes nothing |
| OrderRuns.RejectKeepsInv | orders/lifecycle.go:145-169 | marking a record rejected, even a closed one, keeps every invariant |
| OrderRuns.ReconcileKeepsInv | orders/reconciliation.go:28-286 | reconciliation keeps every invariant and advances the store |
| OrderRuns.AuthoritiesPartition | orders/lifecycle.go:227-256 | the four authority counters add up to the tracked orders |
| OrderLimits.BrokerIdIsFoundIffIndexed | orders/lifecycle.go:207-225 | in every store with the invariant a broker id leads to a record exactly when its trimmed form is not blank and in the index |
| OrderLimits.BrokerIdIsFoundAfter | orders/reconciliation.go:28-286 | after any reconciliation a broker id leads to a record exactly when its trimmed form is not blank and was in the index before or is listed by the broker |
| OrderLimits.ImportIsFoundIff | orders/reconciliation.go:196-231 | an order just imported is found by its id exactly when the id came trimmed, or its trimmed form is not blank and was known before or is listed as well |
| OrderRuns.RestoreUndoesSnapshot | orders/lifecycle.go:29-104 | restoring a snapshot into any store gives back all records, the counter and the summary; the broker index is the next row |
| OrderLimits.RestartKeepsLookupIff | orders/lifecycle.go:56-104 | a restart leaves what a broker id leads to as it was exactly when the id is blank, or nobody carries it and it was not in the index, or the index led to the last record that carries it |
| OrderRuns.BlockedIffUnresolved | orders/reconciliation.go:154-256 | the unresolved outcomes reported equal the unresolved records left, so trading is blocked exactly while the store holds one |
| OrderRuns.BlockingIsBounded | orders/reconciliation.go:391-582 | a record left unresolved is protective or at most ten minutes old, and is never one discovered at the broker |
| OrderSpec.HighestSequenceBounds | orders/lifecycle.go:71-101 | the restored counter is the larger of the saved one and the highest sequence number on file |
| OrderLimits.RestoreEstablishesInv | orders/lifecycle.go:56-104 | a successful restore of any snapshot establishes the invariant, and the next ids are fresh |
| OrderRestore.RestoredIsFound | orders/lifecycle.go:56-104 | after a successful restore each record is found under its trimmed id, the last where two have one id, with what it left out worked out and the rest as it was, and there are no others |
| OrderRestore.RestoreCanFail | orders/lifecycle.go:56-75 | a snapshot of no version changes nothing, one of another version is refused, and one with a record without an id fails with the records before it loaded and the summary as it was |
| OrderRestore.InferredIsRecovered | orders/lifecycle.go:283-324 | an inferred outcome persisted without authority and confidence gets the authority back exactly if it was no cancellation, and the confidence exactly if it was neither that nor a filled protection |
| OrderRestore.ConfirmedIsRecovered | orders/lifecycle.go:283-324 | a state taken over from the broker gets its authority back exactly if it is past submitted and accepted and something was heard of it |
| OrderLimits.TiesAreNotStable | orders/reconciliation.go:64-70 | two tied records visited in the other order the second time: the second run is not quiet |
| OrderStore.Store.Reconcile | orders/reconciliation.go:28-286 | the two passes over the fields give the specified store and report, for an order of visiting sorted by submission time |
| OrderStore.Store.ReconcileRecord | orders/reconciliation.go:79-184 | one record is settled against its own broker order, a match, or the positions, with the specified counters and issues |
| OrderStore.Store.ImportOrders | orders/reconciliation.go:196-231 | the import loop is the specified import pass |
| OrderStore.Store.SubmissionOrder | orders/reconciliation.go:60-70 | the visiting order holds every record once, earliest submission first |
| OrderStore.Store.RegisterSubmitted | orders/lifecycle.go:112-143 | the new state is the specified registration and the id returned is new |
| OrderStore.Store.MarkRejected | orders/lifecycle.go:145-169 | the new state is the specified rejection of the record on file, dated by the clock if no time is given; an unknown id changes nothing |
| OrderStore.Store.LookupRecord | orders/lifecycle.go:207-225 | finds a record by its own id first, then by the broker's |
| OrderStore.Store.RefreshSummaryCounts | orders/lifecycle.go:227-256 | the counting loop leaves the counters equal to a recount by sets |
| OrderStore.Store.SnapshotState | orders/lifecycle.go:29-54 | the records in the order of their ids, each once, with counter and summary |
| OrderStore.Store.RestoreState | orders/lifecycle.go:56-104 | the new state is the specified restore; a record without an id stops it with the records before it loaded |
| ExecutionIndex.ExecuteKeepsBooks | execution/manager.go:122-232 | every request, at any time and with any order store, keeps the history bounded, ids unique and up to the counter, and each key standing for its last unblocked, unsuppressed execution |
| ExecutionIndex.ExecuteKeepsLive | execution/manager.go:122-232 | with the clock not going back, and no execution without its key reopened unless it is old enough to go stale at once, every request keeps each execution in flight standing for its key, whatever the order store says of the one it submits |
| ExecutionIndex.BrokerNotAskedInFlight | execution/manager.go:162-203 | under the same conditions the broker is not asked while an execution of the key in the history is in flight |
| ExecutionIndex.SweepStaysAloneIff | execution/stale.go:77-121 | a sweep keeps every execution in flight standing for its key exactly when the lookup reopens no closed execution that has given up its key, except one old enough to go stale at once |
| ExecutionLaws.ExecuteKeepsApart | execution/manager.go:122-232 | whatever the order store reopens, with the clock not going back and no look dating an end before its request, every request keeps this: a key is given up only longer after its last use than the dedupe window |
| ExecutionLaws.ExecuteKeepsInv | execution/manager.go:122-232 | if also nothing that gave up its key lately is reopened, a key is given up longer than stale threshold and window together after a use that is unresolved |
| ExecutionLaws.SweepKeepsApart | execution/stale.go:77-121 | a sweep keeps the window between uses of a key, whatever it reopens |
| ExecutionLaws.SweepKeepsInv | execution/stale.go:77-121 | a sweep keeps the longer distance from unresolved uses, under the condition above |
| ExecutionIndex.StoreKeepsBooks | execution/manager.go:286-309 | filing an execution, with eviction of the oldest, keeps history and indexes in agreement |
| ExecutionLaws.BrokerCallsAreApart | execution/manager.go:162-203 | the broker is asked only when each execution of the key in the history was asked for more than the dedupe window ago, whatever the order store reopens |
| ExecutionLaws.UnresolvedCallsAreApart | execution/manager.go:162-203 | and each one still unresolved more than stale threshold and window together ago, if nothing that gave up its key lately is reopened |
| ExecutionIndex.HeldBackForACause | execution/manager.go:162-196 | at any time and with any order store, a valid request not sent is held back by an execution of its key that is in flight, stale, or finished within the window |
| ExecutionIndex.UsableIdIsNew | execution/manager.go:132-137 | a blank id gets one not in the history, and so does a caller's id that is new and not ahead of the counter |
| ExecutionGates.RefusedIffMayNot | execution/dedupe.go:52-104 | a request is refused exactly when its symbol is blank, its quantity or a price its type needs is not positive, its type is none of the four, trading is not allowed, or its action opens a position where entries, or closes one where exits, are not allowed; and the reason given is a true one |
| ExecutionGates.BrokerIsAskedJust | execution/manager.go:311-327 | the broker is asked only for a request that may be sent, and then for what its action names, with its own symbol and quantity |
| ExecutionGates.AskedUnlessHeldBack | execution/manager.go:158-210 | a request that may be sent, with a known action and a broker, is asked of it unless an execution of its key holds it back |
| ExecutionOutcomes.RequestIsTold | execution/manager.go:122-232 | what each decision and each answer of the broker comes to for the caller: status, reason, success, times, order ids, fill; a request is filed numbered, timed, and with type and key filled in |
| ExecutionOutcomes.ThenOneLook | execution/manager.go:229-231 | with an order store to look at, the same is told followed by one look |
| ExecutionOutcomes.LookFollows | execution/stale.go:123-188 | a look takes over status, fill, price and missing ids of the record the result leads to, keeps a completion time that is set, and changes nothing without a record of known status |
| ExecutionOutcomes.SweepGivesUp | execution/stale.go:77-101 | a sweep looks at each execution and gives it up as stale exactly if it is still open as long after submission as the threshold says |
| ExecutionOutcomes.SweepReleases | execution/stale.go:103-120 | a key stays with the execution it leads to exactly until that has been over for longer than the window |
| ExecutionOutcomes.RefusalIsReadByWord | execution/manager.go:338-351 | a refusal is a rejection if it mentions "reject" in any case, else a cancellation if it mentions "cancel", else a failure |
| ExecutionOutcomes.UsualSettings | execution/manager.go:27-43 | fifteen and forty-five seconds and 250 executions stand in for settings that are not positive |
| ExecutionRestore.RestoreTracksNewest | execution/manager.go:70-120 | the newest executions that fit are tracked again under their trimmed ids, with id and key filled in where they are blank, the counter goes on from the highest number, and the whole is swept |
| ExecutionRestore.RestoreStopsAtNameless | execution/manager.go:92-100 | at an execution with no id a restore fails and leaves those before it, with the saved counter and unswept |
| ExecutionRuns.RunKeepsBooks | execution/manager.go:27-232 | in every run of requests, sweeps and restarts, at any times and with any order stores, the history is bounded with unique ids up to the counter, and each key stands for its last unblocked, unsuppressed execution |
| ExecutionRuns.RunKeepsApart | execution/manager.go:27-232 | in every run with a clock that does not go back and looks that date no end before its request, a key is given up only longer after its last use than the dedupe window |
| ExecutionRuns.RunKeepsInv | execution/manager.go:27-232 | if also nothing that gave up its key lately is reopened, longer still after a use that is unresolved |
| ExecutionRuns.SubmissionsAreApart | execution/manager.go:162-203 | two submissions of one key in such a run, the first still in the history all along, are more than the dedupe window apart, whatever the order stores reopen |
| ExecutionRuns.UnresolvedSubmissionsAreApart | execution/stale.go:93-120 | and more than stale threshold and window together if the first is unresolved at the second, when nothing that gave up its key lately was reopened |
| ExecutionRuns.RunHolds | execution/manager.go:286-309 | as long as the history holds it, an execution keeps its request, its key, and whether it was sent, in every run |
| ExecutionRuns.OneInFlightPerKey | execution/manager.go:132-231 | in every run with a clock that does not go back, and no execution without its key reopened unless old enough to go stale at once, no two executions in flight share a dedupe key |
| ExecutionRuns.BrokerNotAskedTwice | execution/manager.go:162-203 | after every such run the broker is not asked while an execution of the key in the history is in flight |
| ExecutionRuns.RestartIsExact | execution/manager.go:45-120 | at any time and with any order store before it, what is restored from a snapshot taken at the same instant is the manager that was saved, if and only if every key that stands for nothing had its last execution expire |
| ExecutionLimits.RestartCanDiffer | execution/manager.go:70-120 | whenever an accepted execution goes stale unobserved, gives up its key, and its order is then seen open, the condition fails and the restart gives the key back |
| ExecutionLimits.LookKeepsClosedIff | execution/stale.go:123-179 | a closed execution stays closed through a look exactly when its order is not reported open |
| ExecutionLimits.MissingOrderIdStays | execution/manager.go:213-221 | a missing order id becomes the text `<nil>` and is never filled in |
| ExecutionLimits.RepeatedIdIsForgotten | execution/manager.go:295-309 | when the older of two executions under one id is evicted, the id leads nowhere, and after the next sweep the newer stands for no key |
| ExecutionRuns.CalmRunKeepsComplete | execution/stale.go:103-120 | that condition holds in every run with a clock that does not go back in which the order store revives no execution that gave up its key |
| ExecutionRuns.RestartChangesNoDecision | execution/manager.go:45-120 | after such a run every later request is decided alike with and without the restart |
| OrderLookup.OrderStoreIsTrustworthy | orders/lifecycle.go:207-225 | for an execution that names its record by local id, if the record was written since the execution was asked for and is closed when the execution is, then after any later run of the store the lookup neither reopens the execution nor dates its end before it |
| OrderLookup.TrustworthySuffices | execution/manager.go:132-165 | a lookup with these properties that files each record under its own id gives a request all it asks of the order store, at both looks before submission |
| OrderLookup.OrderStoreNeverReopens | orders/lifecycle.go:207-225 | a record named by local id that is closed in the store is reported closed in every later run |
| ExecutionModel.ExecutionIdReadsBack | execution/manager.go:405-415 | a generated execution id is trimmed and its sequence number reads back |
| ExecutionModel.KeyIsNotBlank | execution/dedupe.go:9-25 | a dedupe key is never blank |
| ExecutionModel.SameKeyMeansSameParts | execution/dedupe.go:9-39 | two intents without the separator in their texts share a key exactly when all twelve normalized parts agree |
| ExecutionKeys.SameKeyIffSameRequest | execution/dedupe.go:9-39 | two requests without the separator in their texts share a key exactly when they agree text for text up to case and padding, amount for amount to eight decimals, and in both flags |
| ExecutionKeys.FloatKeyIffSameAmount | execution/dedupe.go:27-32 | two amounts are written alike exactly when both are zero, or neither is and they have one sign and round to the same eight decimals |
| ExecutionModel.SeparatorCollides | execution/dedupe.go:9-25 | with the separator in a text, intents of different traders in different symbols share a key |
| ExecutionModel.StatusWordsReadBack | execution/stale.go:19-46 | an answer that names a status, in any letter case and padding, is read as that status whatever it says of the fill |
| ExecutionModel.FillReadsStatus | execution/stale.go:40-46 | an answer that names no known status is filled, partly filled or submitted as it reports all, some or none of the request |
| ExecutionModel.MapRecordStatus | execution/stale.go:48-68 | the execution status stands for the order's status and no other, and there is none exactly for an unknown order status |
| ExecutionManager.Manager.Execute | execution/manager.go:122-232 | the new state, the result, and the call made to the broker, if any, are as specified |
| ExecutionManager.Manager.AppendTracked | execution/manager.go:295-309 | append with eviction keeps the id index equal to the history and drops the evicted execution's key |
| ExecutionManager.Manager.Sweep | execution/stale.go:77-121 | the two loops over heap objects and keys give the specified sweep |
| ExecutionManager.Manager.RefreshTracked | execution/stale.go:123-179 | the tracked result follows the order record, and a completion time once set is kept |
| ExecutionManager.Manager.SnapshotState | execution/manager.go:45-68 | sweeps and returns the history oldest first |
| ExecutionManager.Manager.RestoreState | execution/manager.go:70-120 | files the newest executions that fit, raises the counter to their highest sequence, and sweeps |
| RiskLaws.RuleIsGateAndCap | risk/rules.go:25-537 | for a size whose notional is its quantity at the price, every one of the sixteen rules rejects exactly at a closed gate or a spent cap, and otherwise leaves the lesser of the size and its cap |
| RiskLaws.NetExposureIsCap | risk/rules.go:264-309 | the two-sided net test passes exactly the orders that fit the side they are on |
| RiskLaws.SectorExposureIsCap | risk/rules.go:311-350 | the sector rule is a cap on the order's own sector, out of force for a blank sector |
| RiskLaws.FoldIsMinimum | risk/engine.go:57-92 | passing a size through the rules in turn leaves the least of the request and all caps, or stops exactly when some rule blocks |
| RiskLaws.EvaluateIsMinimumOfCaps | risk/engine.go:44-113 | for a request whose quantity and notional agree, the engine refuses exactly when the price or size is not positive or some rule blocks, and otherwise approves the least of the request and every cap in force |
| RiskLaws.RuleOrderDoesNotMatter | risk/engine.go:13-113 | for a request whose quantity and notional agree, any order or repetition of the rules gives the same decision and the same size |
| RiskApproval.EngineApprovesTheLargest | risk/rules.go:25-537 | for a request whose quantity and notional agree, the engine refuses exactly when no positive size within the request is accepted by all sixteen rules, and otherwise approves the largest that is; what a rule accepts is said in the account's own fields, a part of the equity being respected for each of the two equities that is positive |
| RiskApproval.ReducedIff | risk/engine.go:57-113 | an approved order is called reduced exactly when something was taken off, or when it leaves the net exposure beyond its part on the side it moves away from |
| RiskApproval.ResultsTell | risk/engine.go:57-92 | the k-th result names the k-th rule and gives the size the rules up to it leave, or nothing where it rejects, which only the last one consulted can |
| RiskMismatch.MismatchIsDecidedIff | risk/engine.go:44-113 | under the engine's sixteen rules a request whose quantity and notional disagree is decided by the least of the request and every cap exactly when some rule turns it away, or participation cuts it and some cap is no more than its notional, or a later rule works the quantity out anew and the outcome fits participation |
| RiskMismatch.DecidedForAllIffConsistent | risk/engine.go:13-113 | for an order in a market that lets it through, the engine decides by the least under every configuration, account and book exactly when quantity and notional agree with the price |
| RiskMismatch.MismatchApproval | risk/engine.go:57-113 | what the engine approves of a request that disagrees: the least of what participation leaves and the later caps, unchanged unless a later rule works the quantity out anew |
| RiskMismatch.UnderstatedPassesCash | risk/rules.go:431-460 | ten shares at 1.0 said to be worth 1.0 are approved unchanged with cash for two |
| RiskMismatch.OverstatedPassesParticipation | risk/rules.go:83-120 | one share at 1.0 said to be worth 1000 becomes a hundred shares with liquidity for five |
| RiskPortfolio.FillKeepsCaps | risk/rules.go:164-386 | one approved entry filled at the evaluated price breaches no symbol, gross, absolute net, leverage or count cap, nor a sector cap if the positions it adds to carry its market's sector |
| RiskPortfolio.PortfolioStaysWithinCaps | risk/rules.go:164-386 | a portfolio within these caps stays within them after any sequence of entries, and within the sector caps if entries and positions agree on their sectors |
| RiskPortfolio.PortfolioStaysWithinEach | risk/rules.go:189-350 | a portfolio within its parts of each positive equity, by symbol and side, in all, and net on both sides, within leverage and count, stays so through any sequence of entries; by sector too, if entries and positions agree on their sectors |
| RiskPortfolio.FillCountsUnderLabel | risk/rules.go:550-632 | a fill counts under the sector label of the position it adds to, and under no other |
| RiskEngine.Engine.Evaluate | risk/engine.go:44-113 | the loop with early return gives the specified evaluation with one result per rule consulted |
| RiskRules.GrossExposure | risk/rules.go:646-652 | the loop sums the market values that are positive |
| RiskRules.NetExposureOf | risk/rules.go:654-668 | the loop sums longs minus shorts |
| RiskRules.SameSideExposure | risk/rules.go:670-678 | the loop sums the positions of the symbol and side |
| RiskRules.SectorExposures | risk/rules.go:550-632 | the map built in the loop holds the total of each named sector |
| Allocator.AllocationFitsUnlessSpent | allocator/allocator.go:84-126 | an allocation is at least one share and the least trade, at most the base notional, within every limit with room left, and within all limits exactly when none is spent |
| AllocatorLaws.AllocatesTheLargest | allocator/allocator.go:22-138 | a trade is allocated exactly when it is considered and some notional suits it, and then the largest that does: at least a share and the least trade, within the wanted notional, and within each symbol, gross, net and cash limit that has room left, for each positive equity and net on the side the action adds to |
| AllocatorLaws.WantedIs | allocator/allocator.go:76-85 | the base notional loses just the budgeted part of the smaller positive equity at a usable stop, or else is just the fallback part of it |
| AllocatorLaws.VolatilityIsShared | allocator/allocator.go:188-208 | what volatility leaves: the target over the larger proxy between the least scale and all, under the family's ceiling |
| AllocatorLaws.DrawdownThrottles | allocator/allocator.go:235-245 | nothing is taken off until the loss from the peak exceeds the start, and from there 55% of the excess in units of it, down to the least scale |
| AllocatorLaws.AdjustmentsAreReported | allocator/allocator.go:87-108 | the adjustments reported are those made, and the capacity is the part of the base notional up to which the limits are kept |
| AllocatorLaws.SizingReports | allocator/allocator.go:114-132 | the target part is the position's part of the smaller positive equity, and the size counts as reduced exactly when an adjustment or all together took off more than a thousandth |
| AllocatorLaws.WarningsSayWhy | allocator/allocator.go:22-112 | each warning has a true cause, and the one for a base notional that is not positive never occurs |
| AllocatorLaws.UnnamedFamilyGetsNothing | allocator/allocator.go:217-233 | a trade of a family without a name is never allocated |
| Allocator.SpentLimitIsPassedOver | allocator/allocator.go:329-340 | a concrete book beyond its gross limit is still allocated 500 |
| Allocator.RiskStaysInBudget | allocator/allocator.go:256-266 | with sizing by the stop the risk taken is within the budget |
| Allocator.MinPositive | allocator/allocator.go:329-340 | the loop finds the least positive value, or zero if there is none |
| Klines.AggregationComposes | market/ibkr_provider.go:200-239 | aggregating by a and then by b is aggregating by a times b |
| Klines.AggregationConserves | market/ibkr_provider.go:200-239 | volume, high, low, open and close are kept, in ceil(n / bucket) bars |
| Klines.BucketedAt | market/ibkr_provider.go:206-236 | bar i merges the bars from i times the bucket up to the next multiple or the end |
| Klines.AggregateKlines | market/ibkr_provider.go:200-239 | the nested loops give the specified buckets |
| Drawdown.MaxDrawdown | logger/decision_logger.go:683-696 | one pass with a running peak finds the greatest fall over all pairs of times |
| Drawdown.WorstFallInPercent | logger/decision_logger.go:683-696 | that fall in percent: a hundred times what was lost is nowhere more than it times the earlier equity, and somewhere just that |
| Indicators.EmaStaysWithinCloses | features/indicators.go:5-19 | the average stays between the least and greatest close |
| IndicatorWeights.EmaWeights | features/indicators.go:5-19 | raising one close by d raises the average by d times 2/(period+1), or 1/period among the first ones, faded by the rest of that share for each later close |
| IndicatorWeights.WilderWeights | features/indicators.go:64-81 | the same for Wilder's average, with 1/period |
| Indicators.RsiIsAPercentage | features/indicators.go:21-55 | the strength is between 0 and 100 for every series and period |
| Indicators.RsiIgnoresScale | features/indicators.go:21-55 | multiplying the closes by a positive factor and adding a constant leaves the strength as it was |
| Indicators.RsiMirrors | features/indicators.go:21-55 | turning the series upside down gives 100 minus the strength exactly when the series has moved at all |
| Indicators.AtrStaysWithinRanges | features/indicators.go:64-81 | the average stays between the least and greatest true range, and is never negative |
| Indicators.TrueRangeIsSpan | features/indicators.go:143-155 | the true range is the span of the bar stretched to the close before it |
| Indicators.RSI | features/indicators.go:21-55 | the loops compute the specified strength |
| Indicators.EMA | features/indicators.go:5-19 | the loops compute the specified average |
| Indicators.ATR | features/indicators.go:64-81 | the loops over the array of true ranges compute the specified average |

## Left out

- ReconcileStability.ReconcileTwiceIsStable: needs distinct non-empty broker ids and no rivals submitted at the same instant. Orders listed without an id are imported again each time (OrderImports.SecondRunImportsBlanks), and ties need not be stable (OrderLimits.TiesAreNotStable).
- OrderLimits.BrokerIdIsFoundIffIndexed: says whether a record is found, not which one: two records may carry one broker order, and a record that has moved to another order keeps its old index key until a restart.
- OrderSharing.SharedIffWanted: which of several orders a pending record takes depends on what the records before it took, so the exact condition is for records that fit one listed order only.
- OrderRuns.BlockedIffUnresolved: holds in every run from an empty store; a snapshot written by another program could mark a filled record unresolved.
- OrderLimits.RestoreEstablishesInv: says nothing of statuses, which a snapshot may set at will.
- ExecutionIndex.ExecuteKeepsBooks: an id chosen by the caller must be new, trimmed and not ahead of the counter; the trader leaves it blank (trader/execution_support.go:91-115). The class takes any id, and ExecutionLimits.RepeatedIdIsForgotten shows what a repeated one does.
- ExecutionLaws.ExecuteKeepsInv: the longer distance from unresolved uses needs an order store that reopens nothing that gave up its key lately; the dedupe window itself does not (ExecutionLaws.ExecuteKeepsApart).
- OrderLookup.OrderStoreIsTrustworthy: covers executions that name their record by local id; an index entry for a broker id can pass to another record, and an execution closed by the broker's answer while its record is open is reopened by the next look.
- ExecutionLaws.BrokerCallsAreApart: speaks of executions still in the history; an evicted one is forgotten even if it is in flight, as in the program.
- ExecutionModel.SameKeyMeansSameParts: texts must not contain the separator; a tie in the ninth decimal rounds up, where the program goes by the binary value.
- ExecutionModel.StatusWordsReadBack: the payload's alternative field names, its untyped numbers and a numeric legacy order id are one record of optional texts and reals.
- RiskLaws.EvaluateIsMinimumOfCaps: the request gives a quantity, a notional, or both in agreement with the price, for any list of rules with price sanity among them; the other requests are RiskMismatch's for the engine's own list, and for other lists the order can matter (RiskLaws.DisagreeingRequestDependsOnOrder).
- RiskPortfolio.PortfolioStaysWithinCaps: equity and marks are fixed, positions have positive market value, and quantity and notional of each request agree; the sector caps need agreement on the sectors, as RiskPortfolio.FillCountsUnderLabel shows.
- RiskEngine.Engine.Evaluate: the portfolio metrics attached to the evaluation, the messages and the summary text are not modelled.
- Allocator.RiskStaysInBudget: without sizing by the stop the risk of a valid stop is not bounded by the budget, and nothing is claimed.
- RiskApproval.EngineApprovesTheLargest: needs a request whose quantity and notional agree; the others are RiskMismatch's.
- Drawdown.MaxDrawdown: starts from the list of positive equities; the Sharpe ratio and growth are left out.
- Indicators.EmaStaysWithinCloses: MACD, returns and the other features are left out.
- Rounding, infinities and values that are not numbers: arithmetic is over the reals and the sanitizing functions are the identity.
- Integer width: ids and counters do not overflow.
- Message texts: explanations are templates with the phrases the code searches for, not the rendered text with its numbers.
- Letters outside ASCII in case mapping and trimming.
- Locks and observers: each method is one atomic step, and no events are emitted.
- Summary texts, `ActiveOrders`, the manager's `Summary` counts, `PrimaryExecutionTruthIssue` and `NormalizeBrokerStatus`: reports over the state that would add easy members.
- The descriptive fields of an execution intent, its retry count and the result's message.
- The risk supervisor and the comparison of positions: short and without interplay with the three components.
- Broker and exchange adapters, market data, the trader loop, journals, alerts, the server and the interface: network and files.
