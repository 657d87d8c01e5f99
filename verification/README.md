# Verified model of the st0x liquidity bot's durable core

The bot makes a market in tokenized equities onchain and hedges every fill at a broker.
Its state lives in event-sourced aggregates, a SQLite job queue and a few read-model
tables. Every operation is a chain of separate durable steps: the process can die between
any two of them, jobs are delivered again from the top, and several paths can act on the
same order. This project models those steps in Dafny and proves what they keep.

| file | what it models |
|---|---|
| `Common.dfy` | identifiers, directions, `Option` and `Result` |
| `OnChainTrades.dfy` | the `OnChainTrade` aggregate of one fill |
| `Positions.dfy`, `PositionDetails.dfy` | the `Position` aggregate: net, hedge claim, fill guards, its event log, prices, thresholds and manual adjustments |
| `FillAccounting.dfy`, `FillTheorems.dfy`, `FillEnrichment.dfy`, `FillDelivery.dfy` | exactly-once accounting of a fill across two stores, as a transition system over crashing deliveries and as the class that runs it |
| `OffchainOrders.dfy`, `OrderLifecycle.dfy` | the `OffchainOrder` aggregate, the mapping from an ended order to a position command, and both state by state |
| `HedgeClaims.dfy`, `HedgeTheorems.dfy`, `HedgeKeys.dfy`, `HedgeFills.dfy` | claim, placement, broker call and the finalizing paths (sweep, both recoveries, post-placement dispatch, rejection job, fill job) as one machine |
| `CheckPositions.dfy`, `DeskRuns.dfy` | the periodic tick, recovery and placement in the form they run, and as runs of that machine |
| `Attribution.dfy`, `AttributionTheorems.dfy`, `AttributionExamples.dfy` | hedge-latency attribution: recompute against the stated rules, and streams on which they differ |
| `JobQueue.dfy`, `JobTheorems.dfy` | startup resume and job cleanup |
| `LogPaging.dfy` | the early-terminating log reader |
| `StuckTransfers.dfy` | the stuck-transfer folds |

Conventions. Share quantities and prices are reals, clocks are integers (nanoseconds in
`LogPaging`). A store applies one command atomically: all its events or none. A crash is a
run that stops taking steps of one delivery or path; the stores survive it. Heavy
invariants of a position are kept behind `Positions.Reached`, "some sequence of commands
leaves this stream behind", and every such stream is `Sound`. Steps and passes are functions
that the methods and machines are proved against; what those functions stand for is stated
once more in plain states, fields and numbers in `OrderLifecycle`,
`PositionDetails` and the lemmas whose names end in `Words`, `Means` or `ByState`.

## What holds only under a condition

Nine properties one would expect are not met by the code on all inputs. The code is
modelled as it is; each has a concrete run that breaks it and the exact condition.

- A fill can be applied twice by concurrent deliveries
  (`FillTheorems.ConcurrentDeliveriesCanApplyTwice`). `FillAccounting.SecondApplicationIff`:
  exactly when another delivery's settle fell between this delivery's log read and its
  position write, and the position's guards have let go of the trade since.
- `reconcile_existing_pending_order` runs before the submission lock is taken
  (src/conductor.rs:2741 and 2812), so it can release a claim whose placement is about to
  record the order, and two orders are open
  (`HedgeTheorems.UnlockedReleaseLeavesTwoOpenOrders`). `MissingReleaseOpensTwoIff`: some
  continuation has two open orders exactly when that placement is in flight.
- The `Failed` arm after a placement sends Fail without looking at a retained fill
  (src/conductor.rs:3244-3256), so shares already filled are never booked
  (`HedgeTheorems.DispatchCanDropFill`; `OffchainOrders.DispatchDropsFillIff`,
  `HedgeTheorems.FailedDispatchIsSafeIff`).
- The rejection job picks its position command from the order it loaded before its own
  write (src/offchain/order/handle_rejection.rs:62-243); a fill recorded in between is
  never booked (`HedgeTheorems.RejectionCanDropFill`). `RejectionIsSafeIff`,
  `OffchainOrders.RejectionAgreesIff`: exactly when the priced fill on record is no longer
  the one it loaded. The fill job has no such window (`OffchainOrders.FillJobAgrees`).
- A redelivered hedge job claims with the order id it was enqueued with
  (src/trading/offchain/hedge.rs:425-555); if that order was filled and finalized in
  between, its fill is booked again (`HedgeTheorems.ReclaimCanCountTwice`;
  `ReclaimIsSafeIff`).
- With several hedge cycles open, a failed or cancelled one gets a younger cycle's fills
  back instead of its own (`AttributionExamples.OlderBatchComesBackWrong`).
  `AttributionTheorems.RecomputeRefinesRulesIff`, `GivesBackOwnBatchIff`: exactly when it
  covers something and a cycle recorded after it still consumes.
- A fill stamped on a failed cycle consumes its batch a second time
  (`AttributionExamples.LateFillLosesPool`; `AttributionTheorems.LateFillAgreesIff`).
- A resume row that failed with attempts left is not touched by a restart and may be
  retried beside the fresh one (`JobTheorems.RetryBesideFreshRow`;
  `JobTheorems.RetryAfterRestartDoublesIff`, and over runs `RunKeepsOneIff`).
- A log file is skipped when its day, taken to end at 23:59:59 sharp, lies before `since`;
  a line from the last second of the day is then lost (`LogPaging.LastSecondIsLost`;
  `LogPaging.SkippingIsSoundIff`).

The theorems over whole runs of `HedgeClaims` are therefore stated for runs obeying four
rules (`HedgeClaims.SERIALIZED`): claims never reuse an id, a missing order's claim is not
released while its placement is in flight, the post-placement dispatch meets no failed
order with a recorded fill, and no fill is recorded between the rejection job's load and
its own order write. Each rule is switched off in turn above.

Where documentation and code disagree, the model follows the code. The attribution tables
are documented as append-only (src/performance.rs:9-20), but a cancelled cycle's row is
deleted (src/performance/projection.rs:308-325): a redelivered placement of that order
would then insert it anew, which `AttributionTheorems.RedeliveryChangesIff` shows to be the
only redelivery that changes anything.

## Model

| member | source | states |
|---|---|---|
| `OnChainTrades.EveryRunReplays` | src/onchain_trade.rs:103-265 | over every command sequence the log replays without error to the live trade; it starts with its only Filled, holds at most one Enriched and one Acknowledged in either order, never a gas price above i64::MAX, and the fill fields never change |
| `OnChainTrades.EveryWellFormedLogIsReached` | src/onchain_trade.rs:157-252 | the converse: every log of that shape is produced by some command sequence |
| `Positions.EveryRunIsSound` | src/position.rs:153-640 | over every command sequence the log replays to the live position; net is the sum of logged onchain fills, finalized hedges and manual adjustments; the guards mirror the log; no fill is applied again before being settled and displaced; claims bracket |
| `Positions.AcknowledgeEffect` | src/position.rs:667-733 | an acknowledgement is refused exactly when either guard holds the trade, and then the trade is already logged; otherwise it logs the fill and makes it pending |
| `Positions.OtherEffect` | src/position.rs:476-640 | every other command leaves logged fills alone; a settle always succeeds and removes exactly its own trade from the pending set |
| `Positions.CloseEffect` | src/position.rs:814-836 | Complete, Fail and Cancel are accepted exactly when the claim names their order; they free it and book exactly the reported fill; Fail keeps the oldest unanswered key as anchor, the other two clear it |
| `Positions.ClaimEffect` | src/position.rs:734-771 | a claim is accepted exactly on an unclaimed position past its threshold and leaves anchor and hedge total alone |
| `Positions.UnrelatedEffect` | src/position.rs:381-640 | no other command moves the claim or the hedge total, nor the anchor while a claim is held |
| `PositionDetails.EveryRunIsDetailed` | src/position.rs:178-380 | over every command sequence last price, threshold, failure anchor and amount bought are what the newest relevant entries of the log say |
| `PositionDetails.ClaimAcceptedIff` | src/position.rs:734-771 | a claim is accepted exactly on a free position whose net, in shares on either side or in dollars at the last price, has reached the threshold; without a price no dollar threshold is met |
| `PositionDetails.FillIsLogged` | src/position.rs:667-733 | acknowledging a fill not yet logged appends the initial threshold if the position is new, the fill as given, and its applied note |
| `PositionDetails.SettleIsLogged` | src/position.rs:476-640 | a settle appends its event exactly when the trade is pending |
| `PositionDetails.RejectionReasons` | src/position.rs:734-836 | which error a refused claim or finalization reports, by the state of the position |
| `PositionDetails.ManualAdjustment` | src/position.rs:838-893 | an adjustment is accepted exactly when no order is claimed, net is as expected and the prices it relies on are known and positive; it sets net and the given price and clears the anchor, and nothing else |
| `PositionDetails.ThresholdUpdate` | src/position.rs:476-640 | a threshold update is accepted on every initialized position and changes nothing else |
| `FillAccounting.AdvanceKeeps` | src/conductor.rs:2349-2554 | one durable step of a delivery keeps the two stores in agreement, only grows what others see, and leaves the delivery sound at its next step |
| `FillAccounting.EveryRunKeepsStoresAgreeing` | src/conductor.rs:2620-2707 | in every interleaving of any number of crashing deliveries with any hedging commands, a marked trade is logged, and a logged trade is pending or marked |
| `FillAccounting.SecondApplicationIff` | src/conductor.rs:2655-2690 | in every interleaving a position write applies a logged trade again exactly when another delivery's settle of it fell between this delivery's log read and its write, and both guards have let it go |
| `FillAccounting.PrunedWasSettledInWindow` | src/conductor.rs:2535-2554 | the history flag is set only if some earlier action was another delivery's settle of the trade and this delivery has stood between its log read and its write ever since |
| `FillAccounting.SettledInWindowPrunes` | src/conductor.rs:2535-2554 | the converse: such a settle always sets the flag, so the flag adds nothing to the run |
| `FillAccounting.EverySerialRunIsSound` | src/conductor.rs:2620-2737 | when deliveries of one trade follow one another, no trade is ever logged twice |
| `FillTheorems.ExactlyOnce` | src/conductor.rs:2620-2737 | over every such run each trade enters its own symbol's log at most once, and the onchain part of net is the signed sum over exactly the logged trades |
| `FillTheorems.CutOffKeepsConsistent` | src/conductor.rs:2644-2737 | a delivery cut off anywhere keeps the stores consistent |
| `FillTheorems.WholeDeliveryAccounts` | src/conductor.rs:2644-2737 | a delivery with enough steps left ends, with its trade logged, marked and not pending |
| `FillTheorems.SelfHealing` | src/conductor.rs:2644-2737 | from every state reachable through cut-off deliveries one whole delivery leaves the trade logged once, marked and not pending, and a delivery right behind it, cut off anywhere, changes nothing |
| `FillTheorems.AccountedForGood` | src/conductor.rs:2733-2737 | once a trade is accounted for with no delivery of it under way, every continuation with any deliveries, crashes and hedging commands keeps it so, and no step of a delivery of it writes anything |
| `FillTheorems.HealedForGood` | src/conductor.rs:2644-2737 | the two together: from every reachable state in which no delivery of a trade is running, one whole delivery accounts for it for good, whatever runs afterwards |
| `FillTheorems.FirstDeliveryWrites` | src/conductor.rs:2465-2554 | from every state reachable through cut-off deliveries the first whole delivery of a trade appends to its position's log exactly the configured threshold if the symbol is new, the fill as observed onchain, the applied note and the settled note |
| `FillEnrichment.MarkedTradesAreEnriched` | src/conductor.rs:2408-2451 | in every run of every interleaving a marked trade whose facts carry gas data with a price up to i64::MAX has an enrichment with exactly their gas used, gas price and Pyth price; with no gas data or a larger price it has none |
| `FillTheorems.UndeliverableIsNeverApplied` | src/conductor.rs:2580-2650 | in every interleaving a fill without a block timestamp or with a log index beyond i64 is never applied nor marked |
| `FillTheorems.ConcurrentDeliveriesCanApplyTwice` | src/conductor.rs:2655-2690 | a concrete reachable state in which a delivery is about to apply a logged trade again |
| `FillDelivery.FillStore.WitnessOrResume` | src/conductor.rs:2644-2675 | loading, witnessing, reloading behind a rival's witness and enriching in place does what the step machine does, up to any cut-off; it goes on only for a timestamped, unmarked trade, writes to no position before going on, and reports an acknowledged trade only if it was marked |
| `FillDelivery.FillStore.AccountForOnchainFill` | src/conductor.rs:2620-2707 | the accounting pipeline in place does what the step machine does, up to any cut-off, with or without a rival witness; over a reached position it refuses only a trade without a timestamp or with a log index beyond i64, and it accounts only for a trade not yet marked |
| `FillDelivery.FillStore.ProcessQueuedTrade` | src/conductor.rs:2710-2745 | one delivery cut off after any number of store operations leaves the stores of the machine's run and reports where it stopped; reporting the trade accounted for means it was not marked before and is now; stored gas data stay those of their own trades |
| `FillDelivery.FillStore.Redeliver` | src/conductor.rs:2710-2745 | redelivery from any consistent stores ends with the trade accounted for, its stored terms those observed, its acknowledgement stamped and its gas data stored field by field when they fit, and reports whether it was marked before |
| `OffchainOrders.CommandKeeps` | src/offchain/order.rs:667-1015 | any command keeps the order's terms, keeps its size once it has left Pending (acceptance sets it to the accepted quantity, `OrderLifecycle.BrokerAnswer`), never moves it back in its lifecycle, never changes an ended order, never shrinks a recorded fill before full completion, and keeps recorded fills priced |
| `OffchainOrders.EveryRunKeeps` | src/offchain/order.rs:667-1015 | the same over every command sequence: no return to Pending, ended stays ended, the size never moves once the order has left Pending, no unpriced fill arises |
| `OffchainOrders.CancelOutcome` | src/offchain/order.rs:1775-2010 | an accepted cancel ends the order or leaves it Cancelling, and keeps the fill on record |
| `OffchainOrders.RejectionAgreesIff` | src/offchain/order/handle_rejection.rs:62-243 | whatever other jobs write between its load and its own write, the rejection job sends what the shared mapping sends for the failed order exactly when the priced fill on record is still the loaded one and none is unpriced |
| `OffchainOrders.FillJobAgrees` | src/offchain/order/reconcile_fill.rs:55-148 | whatever other jobs write in between, the fill job sends what the shared mapping sends for the filled order |
| `OrderLifecycle.BrokerAnswer` | src/offchain/order.rs:700-731 | acceptance turns a pending order into Submitted with the accepted quantity and session; a placement failure turns it into Failed that never reached the broker; neither touches any other order |
| `OrderLifecycle.PartialFill` | src/offchain/order.rs:1079-1154 | a reported fill replaces a smaller one on record and is ignored otherwise; a pending or ended order refuses it |
| `OrderLifecycle.Endings` | src/offchain/order.rs:1025-1400 | completion, confirmed cancel and failure end an order with its size and the fill on record, state by state |
| `OrderLifecycle.CancelWorking` | src/offchain/order.rs:548-660 | a cancel of a working order leaves it Cancelling, Cancelled or untouched as the broker replies, with the fill on record kept |
| `OrderLifecycle.CancelPartlyDone` | src/offchain/order.rs:1775-1945 | a larger priced fill reported just before the cancel is kept by it; an unpriced or negative one refuses it |
| `OrderLifecycle.CancelEnded` | src/offchain/order.rs:1946-2010 | an order the broker already ended ends the same way here, with the newer fill kept if it is priced and refused if it is not |
| `OrderLifecycle.RejectionReasons` | src/offchain/order.rs:548-1015 | which error a refused command reports, by the order's state and the broker's report |
| `OrderLifecycle.Finalizations` | src/offchain/order.rs:1569-1735 | the position command of an ended order, state by state: a positive priced fill completes, an unpriced one sends nothing, no fill cancels or fails as the order did |
| `OrderLifecycle.Worth` | src/offchain/order.rs:1634-1735 | what an ended order adds to net, by state and direction |
| `HedgeClaims.EveryRunKeepsInv` | src/conductor.rs:2016-2249 | over every crash-and-recover run: claims cover open orders, released claims are recordable or missing for good, terminal states loaded at any time stay the current ones, jobs between their two writes stand on an ended order, recorded fills are priced, and the hedge total is what released claims owe |
| `HedgeTheorems.ClaimReleasedOnlyWhenSafe` | src/conductor.rs:2158-2249 | no action of any run releases a claim unless its order is missing and not being placed, or ended with every filled share priced |
| `HedgeTheorems.AtMostOneOpenOrder` | src/conductor.rs:3044-3085 | a symbol never has two orders that have not ended, and the one it has is the one claimed |
| `HedgeKeys.StableBrokerKey` | src/offchain/order.rs:154-300 | all broker calls for one order id, from placement and both re-drives, carry the key fixed at the claim |
| `HedgeKeys.OneBrokerOrderPerClaim` | src/conductor.rs:2085-2114 | a broker that deduplicates on the key holds exactly one order for a claim that reached it, however often the placement was driven |
| `HedgeKeys.FailureHandsOnItsKey` | src/conductor.rs:3380-3423 | after a failure the next placement uses the failed one's key |
| `HedgeKeys.OnlyFailureHandsOnItsKey` | src/offchain/order.rs:1569-1735 | finalizing an ended order hands its key to the next placement exactly when it failed with no fill to book; after a fill or a cancellation the next placement uses its own id |
| `HedgeKeys.NoBrokerOrderBookedTwice` | src/conductor.rs:2085-2114 | over every run two released claims whose orders both have a recorded fill went to the broker under different keys, so no broker order is booked under two claims |
| `HedgeTheorems.NetIsConserved` | src/conductor.rs:2158-2249 | net is onchain fills plus adjustments plus, for every claim ever released, its order's recorded fill exactly once |
| `HedgeFills.FilledBooksTheAcceptedQuantity` | src/offchain/order.rs:700-731 | over every run a released claim whose order was filled adds the signed quantity of the acceptance the broker gave for it, not the one requested |
| `HedgeFills.FillJobFinalizes` | src/offchain/order/reconcile_fill.rs:55-148 | the fill job run without interference fills the order, releases its claim and books its size with its sign |
| `HedgeFills.RejectionJobFinalizes` | src/offchain/order/handle_rejection.rs:62-243 | the rejection job run without interference fails the order, releases its claim and books exactly the priced fill on record |
| `HedgeTheorems.MissingReleaseOpensTwoIff` | src/conductor.rs:3093-3126 | after the release of a missing order's claim some rule-abiding continuation has two open orders exactly when a placement of that order is in flight |
| `HedgeTheorems.FailedDispatchIsSafeIff` | src/conductor.rs:3244-3256 | dispatching a failed order keeps the books exactly when it has no positive recorded fill |
| `HedgeTheorems.RejectionIsSafeIff` | src/offchain/order/handle_rejection.rs:62-243 | the rejection job's position write keeps the books exactly when the priced fill on record is the one it loaded before its order write |
| `HedgeTheorems.ReclaimIsSafeIff` | src/trading/offchain/hedge.rs:425-555 | after a released id is claimed again every rule-abiding continuation books each claim's fill once exactly when its order is missing or ended without a priced fill |
| `HedgeTheorems.ReclaimBooksAgain` | src/trading/offchain/hedge.rs:425-555 | finalizing the claim of a reused id adds its order's recorded fill to the hedge total a second time |
| `HedgeTheorems.UnlockedReleaseLeavesTwoOpenOrders` | src/conductor.rs:3093-3126 | a concrete run of the unlocked reconcile with two open orders |
| `HedgeTheorems.DispatchCanDropFill` | src/conductor.rs:3244-3256 | a concrete run in which three filled shares are never booked |
| `HedgeTheorems.RejectionCanDropFill` | src/offchain/order/handle_rejection.rs:62-243 | a concrete run in which three shares, recorded between the rejection job's load and its order write, are never booked |
| `HedgeTheorems.ReclaimCanCountTwice` | src/trading/offchain/hedge.rs:425-555 | a concrete run in which five filled shares are booked as ten |
| `CheckPositions.HedgeDesk.FinalizeTerminalPendingPositions` | src/position_check.rs:316-362 | the sweep resolves every position by the shared mapping and touches nothing else |
| `CheckPositions.HedgeDesk.RequestExtendedHoursCancellations` | src/position_check.rs:386-480 | in regular hours a Submitted or PartiallyFilled order with session Extended and the configured executor, claimed by an enabled symbol, is Cancelling or ended afterwards if its cancel is accepted and unchanged otherwise; every other order is unchanged; an accepted request is never repeated |
| `CheckPositions.HedgeDesk.RecoverSingleOrphanedOrder` | src/conductor.rs:2049-2140 | state by state: a missing order's claim is released; a pending order is offered once under the position's key and becomes Submitted with the accepted quantity, or Failed with the claim released, as the broker answers; an ended one with every fill priced frees the position; anything else stays |
| `CheckPositions.RecoveredSettles` | src/conductor.rs:2049-2249 | what those rules leave claims nothing, an order with the broker, or an unpriced fill, and its books move by exactly the released order's fill |
| `CheckPositions.RecoveryByState` | src/conductor.rs:2049-2249 | what recovery makes of a position and its claimed order, by the order's state and the broker's reply |
| `CheckPositions.SweepMeans` | src/position_check.rs:386-480 | which orders the cancel sweep asks, by state, session, executor and claim, and what they become |
| `CheckPositions.HedgeDesk.RecoverOrphanedPendingOrders` | src/conductor.rs:2016-2047 | the loop does the same to every position at once, in any order of positions, with every broker call keyed by the position claiming its order |
| `CheckPositions.HedgeDesk.RecoverClaimedOffchainOrder` | src/conductor.rs:3142-3231 | the same from a refused placement, and what remains claimed and is Submitted, PartiallyFilled or Cancelling is polled |
| `CheckPositions.HedgeDesk.PlaceOffchainOrder` | src/conductor.rs:3044-3085 | an accepted claim makes one broker call under the prior key; an accepting broker leaves the order Submitted with the accepted quantity and session, claimed and polled, a refusing one leaves it Failed and the claim released; the position's log gains exactly the claim of the requested shares and, on refusal, its failure; a refused claim recovers the existing one |
| `CheckPositions.HedgeDesk.CreateOffchainOrder` | src/conductor.rs:3375-3441 | a claimed order is recorded, offered once under the position's key, and ends Submitted with the accepted quantity and the claim kept when the broker accepts, Failed with the claim released and the key kept as anchor when it refuses |
| `CheckPositions.HedgeDesk.Perform` | src/position_check.rs:116-164 | from any state one tick leaves no claim on a missing, pending or recordable ended order; the books move by exactly the released fills; in regular hours every Submitted or PartiallyFilled extended-hours order of the configured executor claimed by an enabled symbol is Cancelling or ended unless it refused its cancel; a pending claimed order ends as the broker answers; every other order is unchanged |
| `DeskRuns.TickIsRun` | src/position_check.rs:116-164 | for every position a whole tick is a run of the hedge machine that obeys every rule, so the theorems about such runs hold over any number of ticks |
| `DeskRuns.PlacementIsRun` | src/conductor.rs:3044-3085 | so is a placement whose claim is accepted |
| `CheckPositions.CancelSettles` | src/position_check.rs:420-480 | an accepted cancel takes an order out of the sweep's sight, a refused one leaves it unchanged |
| `CheckPositions.AskOneMore` | src/position_check.rs:402-480 | asking an order again within a pass changes nothing, so symbols may come in any order |
| `Attribution.UncoveredFills` | src/performance.rs:415-487 | the queue-draining loop, over any query order of the cycles, returns the kept fills less the consumed total, and an error exactly when a consuming cycle has a negative count |
| `Attribution.UncoveredIsSuffix` | src/performance.rs:438-486 | for arbitrary tables the pool is a suffix of the reset-filtered fills and does not depend on cycle order |
| `Attribution.WindowIsTight` | src/performance.rs:489-501 | the covered window bounds every fill of the batch and both ends are attained |
| `AttributionTheorems.EveryRunConserves` | src/performance.rs:9-20 | with any number of open cycles, fills since the reset equal the pool plus the consuming cycles' counts, so the drain never clamps |
| `AttributionTheorems.RecomputeRefinesRulesIff` | src/performance.rs:9-20 | over every orderly stream with any number of batches in flight, recompute and rules agree after every event exactly when no batch is given back while a younger cycle still consumes |
| `AttributionTheorems.RecomputeRefinesRules` | src/performance.rs:409-487 | with at most one batch in flight the recompute is always the pool of the stated rules, in order, and the open cycle row records its batch's size and window |
| `AttributionTheorems.LateFillAgreesIff` | src/performance.rs:474-483 | a fill stamped on a failed cycle keeps recompute and rules equal exactly when its batch was empty, was reset away, or the pool is empty |
| `AttributionTheorems.GivesBackOwnBatchIff` | src/performance.rs:474-483 | a failed or cancelled cycle gets the batch the stream put in flight with it back exactly when that batch is empty or no cycle recorded after it still consumes |
| `AttributionExamples.OlderBatchComesBackWrong` | src/performance.rs:474-483 | a concrete stream: two batches in flight, the older fails, and recompute and rules differ |
| `AttributionExamples.LateFillLosesPool` | src/performance.rs:474-483 | a concrete stream: a fill reported after the failure, and recompute and rules differ |
| `AttributionTheorems.RetryIsIdempotent` | src/performance/projection.rs:123-325 | reacting to an event twice in a row is reacting once, whatever the tables hold |
| `AttributionTheorems.RedeliveryChangesIff` | src/performance/projection.rs:123-325 | redelivering any earlier event changes the tables exactly when it is a placement whose row is gone |
| `AttributionTheorems.FillRowCounts` | src/performance.rs:438-462 | one more fill row joins the pool's source, with its block and sighting times, exactly when both parse and the sighting is after every reset |
| `AttributionTheorems.CycleRowConsumes` | src/performance.rs:463-486 | one more cycle row adds its count exactly when it was placed after every reset and is filled or not failed |
| `AttributionTheorems.OutcomeWrites` | src/performance/projection.rs:204-325 | a fill stamps an unfilled row, a failure stamps and a cancellation deletes a row neither filled nor failed, at that row only |
| `JobTheorems.CleanupIsExact` | src/conductor.rs:1044-1067 | a cleanup pass deletes every row, counted with repeats, that is a resume or unrelated job and is Done, Killed or Failed out of attempts, and no other; transfer rows always stay |
| `JobQueue.JobStore.PushEligible` | src/conductor.rs:1874-1937 | the two loops push, in order, exactly the eligible aggregates up to the cut-off or the first one missing; eligibility is spelled out in `CompletedMints` and `CompletedRedemptions` |
| `JobQueue.JobStore.RecoverInterruptedTokenizationAggregates` | src/conductor.rs:1823-1942 | a restart cut off after any durable update leaves the queue of its specification, whose rows are spelled out in `RowsFound`, `PushedIff` and `PushedRowIsFresh`, and reports completion exactly when it ran to the end (`CompletesIff`) |
| `JobTheorems.RestartKeepsOneIff` | src/conductor.rs:1854-1942 | for any prior queue and any cut-off, both updates working, an aggregate has at most one active resume row exactly when the restart got past its cancel step or there was at most one before |
| `JobTheorems.RestartKeepsOnePendingIff` | src/conductor.rs:1854-1864 | with the orphan reset failing silently, the same of pending rows |
| `JobTheorems.RunKeepsOneIff` | src/conductor.rs:1823-1942 | from a queue with at most one active resume row for an aggregate, over every run of restarts cut off anywhere, cleanups, workers and operators, there is never more than one exactly when no worker takes up a stopped row beside one in flight |
| `JobTheorems.RetryAfterRestartDoublesIff` | src/conductor/job.rs:182-212 | retrying a stopped resume row after a completed restart doubles it exactly when the aggregate is still interrupted, no transfer job owns it and recovery does not hold it |
| `JobTheorems.RetryBesideFreshRow` | src/conductor/job.rs:182-212 | a concrete run: a failed row with attempts left, a restart, the retry, and two active rows for one mint |
| `JobTheorems.CompletedRestartIsExact` | src/conductor.rs:1823-1995 | a completed restart leaves exactly one active resume row for each interrupted aggregate neither owned nor held, and none for the rest |
| `JobTheorems.CompletedMints` | src/conductor.rs:1874-1942 | after a completed restart an interrupted mint has a fresh pending row, and only then an active one, exactly when no row's job is the market-making transfer of that mint and it is not a pre-wrap mint whose symbol is held for recovery |
| `JobTheorems.CompletedRedemptions` | src/conductor.rs:1905-1942 | the same of an interrupted redemption, exactly when no row's job is the hedging transfer of that redemption |
| `JobTheorems.CompletesIff` | src/conductor.rs:1823-1995 | a restart completes exactly when it has the steps, every equity transfer row parses, and every interrupted aggregate exists and is restored |
| `JobTheorems.RowsFound` | src/conductor.rs:1854-1864 | what a restart, both updates working, does to each row it finds, by job, status and cut-off |
| `JobTheorems.FailedCancelDoublesIff` | src/conductor.rs:1895-1911 | if the cancel fails silently, a target is doubled exactly when it is pushed while already active |
| `JobTheorems.CleanupOnlyRemoves` | src/conductor.rs:1044-1067 | cleanup never adds a resume row and never removes an owner |
| `JobTheorems.RestartRespectsOwner` | src/conductor.rs:1874-1970 | a restart, cut off anywhere and with any updates failing, neither adds a resume row for an owned aggregate nor loses its owner |
| `JobTheorems.OwnedMintIsLeftAlone` | src/conductor.rs:1874-1905 | no restart, however cut off, pushes a resume row for a mint that a market-making transfer row names |
| `JobTheorems.OwnedRedemptionIsLeftAlone` | src/conductor.rs:1905-1937 | nor for a redemption that a hedging transfer row names |
| `JobTheorems.DeadLetterIsLeftAlone` | src/conductor.rs:1944-1970 | a concrete queue: a dead-letter market-making transfer row keeps its interrupted mint from being resumed |
| `JobTheorems.DeadLettersStayDead` | src/conductor.rs:1944-1970 | over every interleaving of cleanups, restarts, worker and operator updates, a mint named by any market-making transfer row, and a redemption named by any hedging transfer row, whatever that row's status, never gains a resume job afterwards |
| `LogPaging.ReadFile` | src/api.rs:412-471 | collecting in reading order and reversing gives the file's matches newest first |
| `LogPaging.TakePage` | src/api.rs:473-480 | streaming matches one by one builds the slice of everything seen |
| `LogPaging.PageFile` | src/api.rs:376-480 | one file adds its matches, or nothing when it is skipped or cannot be opened |
| `LogPaging.ReadMatchingEntries` | src/api.rs:329-488 | page and has_more equal those of collecting all matches and slicing; total counts the shortest run of files that overflows the page, and is exact otherwise |
| `LogPaging.MatchIff` | src/api.rs:412-471 | a line matches exactly when its text holds one of the wanted levels in the level field, one of the wanted targets in the target field and the search text once lower-cased, it parses, and its timestamp, if any, lies in the window |
| `LogPaging.SliceMeans` | src/api.rs:473-488 | a page starts offset matches in and is full unless the matches run out |
| `LogPaging.SkippingIsSoundIff` | src/api.rs:377-405 | skipping a file by date is sound for every filter exactly when each of its JSON lines has a parseable timestamp between the start of its day and 23:59:59 |
| `LogPaging.SkippingKeepsMatches` | src/api.rs:377-464 | over such files skipping never changes the matching sequence |
| `LogPaging.LastSecondIsLost` | src/api.rs:381-391 | a line half a second before midnight, inside the window, whose file is skipped |
| `StuckTransfers.StuckMintInfo` | src/api.rs:979-1046 | a mint is stuck exactly when nothing resolves it, a stranding failure stands after the last provider recovery and a quantity is known; the diagnosis is that of the last such failure |
| `StuckTransfers.MintWords` | src/api.rs:979-1046 | what resolving, stranding and deciding events of a mint are, event by event |
| `StuckTransfers.StuckRedemptionInfo` | src/api.rs:1048-1138 | a redemption is stuck exactly when nothing resolves it, a failure came after a send and an amount is known; the diagnosis is that of the last such failure |
| `StuckTransfers.RedemptionWords` | src/api.rs:1048-1138 | what resolving and losing events of a redemption, its last unwrap, last withdrawal and first request are, event by event |
| `StuckTransfers.AmountIsDetermined` | src/api.rs:1062-1131 | the amount is that of the last unwrap if it converts, else of the last withdrawal if it converts, else the first request, wherever those stand in the log |

## Left out

- HTTP handlers, routing, JSON shapes, telemetry, metrics and alerts: input and output plumbing.
- Startup wiring, supervision, shutdown, vault discovery, approvals, wallets and bridges.
- Float errors and rounding: quantities and prices are reals, so a failing float operation has no counterpart.
- Event timestamps of positions and orders, `last_updated`, broker prices of hedge fills, and reasons and error texts carried by events.
- Legacy events and the operator-only states they lead to; an unpriced retained fill is modelled as a state of an order although no command produces one.
- Lag of the position and order projections: passes read the aggregates' current state. A stale read ends in a rejected finalization, which the model has (`Positions.CloseEffect`).
- DeskRuns.TickIsRun: no placement of the position is in flight during the tick, which the shared submission lock ensures for recovery; a refused claim of a placement is recovery, covered by the tick.
- Operator commands that fail an order or its claim by hand (src/cli/repair.rs:153 and src/cli/trading.rs:931-958): they are not actions of `HedgeClaims`, and the rules its theorems assume say nothing of them.
- The part of the tick that scans for new hedges: preflight, share clamping and the enqueueing of hedge and poll jobs. It changes no order and no claim.
- `CounterTradeBatchBudget`: its commit half and the batch loop are compiled for tests only.
- SQL, SQLite locking and the apalis runtime: updates are atomic, and a worker may set any row to any status.
- CheckPositions.HedgeDesk.Perform: store and broker calls of the tick succeed, as the convergence statement requires; failures of single calls are the crashes of `HedgeClaims`.
- CheckPositions.HedgeDesk.PlaceOffchainOrder: the returned order id and the job errors on unexpected post-placement states are not modelled; nothing is written in those cases.
- CheckPositions.HedgeDesk.RecoverClaimedOffchainOrder: the returned order id is not modelled.
- FillDelivery.FillStore.WitnessOrResume: other deliveries interfere at one point, a rival witness right behind the load; all other interleavings are those of `FillAccounting`.
- JobTheorems.RunKeepsOneIff: the two queue updates of each restart work; their failures are `RestartKeepsOnePendingIff` and `FailedCancelDoublesIff`.
- JobQueue.JobStore.PushEligible: a failed read of the interrupted ids is a cut-off after two updates; inventory updates of the same loops are not modelled.
- Attribution: one symbol; a reset row that does not parse fails the whole recompute and is not modelled; submission times and the report itself are not part of this model.
- LogPaging.ReadMatchingEntries: takes the files in reverse name order; directory errors and overflow of offset plus limit are not modelled; lower-casing is a parameter.
- StuckTransfers.StuckRedemptionInfo: the conversion from an 18-decimal amount to a displayed quantity is a parameter that may fail; the USDC bridge kind never reports.
