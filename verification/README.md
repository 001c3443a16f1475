# Verification model of LongBridgePlatform

A Dafny model of the order-execution runtime, with proofs of what its protocols and its money
arithmetic promise. Check everything with `dafny verify dfyconfig.toml`.

## What is modelled

**The durable live-command protocol.** A run of `run_strategy` is the sequence of atomic steps it
takes on the command store and the broker (`LiveProtocol`); a crash leaves a prefix of it. Legal
steps keep an invariant of the store and of what really happened at the broker
(`ProtocolSafety`), every run takes legal steps only (`ProtocolRuns`), and so every history of
runs that do not overlap is safe (`Histories`). `Interruptions` says what a lost outcome blocks for
ever and what a command cancelled from outside opens; `Overlaps` says when two overlapping runs
that decide on one store leave two active commands. `RunEffects` says exactly what one run writes:
the states it reconciles to, what it mints and claims, and what follows the claim.
`LiveRun` is the same run as a class that updates its store step by step, proved to take exactly
the steps of the specification.

**The order fence.** Owner and marker claims are create-if-absent; any number of runs interleave
step by step, and a store call may raise before or after its effect (`OrderFence`).
`ClaimedOrderPort` is `submit_claimed_order` as a class over the two stores. `SessionFence` says
which two commands of one session the fence lets through.

**The rebalance cycle.** `RebalanceCycle` specifies `execute_rebalance_cycle` as a function of its
inputs and of every answer from outside; `RebalanceRun` is the cycle in the form of the source,
with mutable cash, halt flag and broker facts, proved to compute that function. `CycleFacts`,
`CycleTrades`, `CycleCash`, `CycleQuotes`, `CycleSells`, `CycleRefresh` and `CycleGates` prove its
ledger, exactly what it sells and buys, its cash bound, the same at quoted prices, its sell bound,
refresh fold and gates. `LiveCycle` joins the cycle
to the command protocol; `DecisionMapper` joins it to the reserve policy and to the execution
block.

**The notification candidate.** `CandidateMerge` is the merge of one call, `CandidateLaws` its
meaning, `CandidateOrder` that arrival order does not matter, `CandidateRepeat` what repeating a
call does, `CandidateExport` the two-object compare-and-set protocol with any number of concurrent
producers, `CandidateDigest` what its publications say of the calls, `CandidateStore` the call as a
class over the two objects.

**The funding verifier and the execution reader.** `Phase5Funding` and `Phase5Verifier` model the
greedy funding loop and the check by recomputation; `Executions` models the merge of broker
executions, `ExecutionTuple` what is returned of it, and `ExecutionWindows` chained forward
windows.

Money and quantities are real numbers; dates, times and digests are compared and so are
represented by numbers in their order, or by the content they are taken from.

Some obvious claims do not hold, and the model says exactly when they do:

- The tail rebuy of the cash-sweep symbol is not stopped by the new-risk, negative-cash and
  pending-release gates (`CycleGates.GatesStopAllButRebuy`, witness `ProhibitedCycleBuys`).
- At quoted prices a cycle can be charged more than its cash, by quotes above their rounding to
  cents and by no others (`CycleQuotes.QuoteKeepsCashWhenHarmless`, witness `HarmfulQuote`).
- Two overlapping runs of one scope leave two active commands when the profile is the
  completed-session one, nothing was stored for the session and they mint different commands, and
  in no other case (`Overlaps.OverlappingRunsBothClaim`); both commands can then reach the broker
  iff they differ in timing or signal date (`SessionFence.OverlapReachesBroker`).
- Persisting an event again changes no fact but can write once more: the store lists an object's
  members in key order, so a row whose newest fact sorts before another one of its run is
  rewritten (`CandidateRepeat.RepeatWritesOnlyWhenDisplaced`, witness `SomeRepeatWrites`).
- The slack of the funding loop can leave settled cash a few billionths below zero, and then the
  recomputed proposal itself is refused (`Phase5Verifier.ValidPlansAreAccepted`, witness
  `ThinPlanIsRefused`).
- In forward mode the executions returned depend on the order of rows that give one trade two time
  texts (`ExecutionTuple.TupleIsArrangementFree`, witness `ForwardReadDependsOnOrder`).

## Model

| member | source | states |
|---|---|---|
| Quantity.FloorBounds | application/execution_service.py:506-529 | a floored quantity is a non-negative number of steps, not above the quantity and less than a step below it |
| Quantity.FloorUnique | application/execution_service.py:506-529 | no other multiple of the step lies within a step below the quantity |
| Quantity.FloorWholeThenLot | application/execution_service.py:506-522 | flooring to whole shares and then to a board lot equals flooring once to the lot |
| Quantity.RoundCentsNearest | application/execution_service.py:1176-1209 | a price rounds to a number of cents iff that is the nearest one, the even one of two as near |
| Histories.ClaimIsBound | application/rebalance_service.py:162-192 | a run claims only a command bound to its own account, runtime, expected release, dates and timing, and takes no step while an unresolved command of its scope is not so bound |
| LiveCommands.BoundAsBuilt | application/rebalance_service.py:162-192 | a command passes the binding checks iff enqueueing some value targets, under this account, runtime and any expected release, would have built it |
| LiveCommands.ReconciliationEndsCommand | application/rebalance_service.py:248-289 | reconciliation ends a command iff every order is closed, and as filled iff every order is filled |
| LiveCommands.OutcomeEndsCommand | application/rebalance_service.py:195-245 | a recorded outcome is FILLED iff all pending orders are filled; REJECTED or CANCELLED iff nothing was done, the former iff the cycle must not execute; SUBMITTED or ACCEPTED iff all orders were taken with an id, the latter iff all are accepted; and else RECONCILIATION_REQUIRED |
| ProtocolSafety.StepKeepsInv | application/rebalance_service.py:780-940 | every legal step keeps: one active command per scope, one command per session, logs that repeat the true orders, closed orders behind every finished command |
| ProtocolRuns.ReconciliationLegal | application/rebalance_service.py:248-289 | reconciling any set of commands takes legal steps only: it finishes a command only when all of its orders were just seen closed |
| ProtocolRuns.SendsUnclaimedIffGap | application/rebalance_service.py:801-1016 | a run reaches the broker without a claim iff, outside the completed-session profile, exactly one command was signalled today, all commands of the scope are finished, the fresh decision needs no durable command, and neither identity nor an earlier record stops the run |
| ProtocolRuns.GapIsUnreachable | application/rebalance_service.py:865-905 | that situation cannot be reached: a command signalled today takes effect later, so it is not finished |
| ProtocolRuns.RunIsLegal | application/rebalance_service.py:648-1241 | every step of every live run is legal where it is taken |
| RunEffects.ReconcilesExactly | application/rebalance_service.py:248-289 | reconciliation appends to each submitted, unfinished command of the scope the state that the statuses of its orders call for, iff all can be read, it is another state, and the store does not refuse; no other log moves |
| RunEffects.MintsExactly | application/rebalance_service.py:801-905 | a run mints a command iff none of the scope is stored for the session and the evaluated plan is for it and not blocked; the command carries that plan |
| RunEffects.ClaimsExactly | application/rebalance_service.py:801-940 | a run claims a command iff the session's selection goes on, it alone is open and due, no open command of the scope was claimed before or is overdue, at most one is for today, it is bound, its frozen plan was resolved and is not blocked, and the store grants the claim; both profiles, stored or just minted |
| RunEffects.RunsExactly | application/rebalance_service.py:648-1241 | a run is its reconciliation, mint and claim, and only a claim is followed by anything: orders and outcome if the execution is the first, an outcome of nothing done if it is known, nothing if that or the identity cannot be told |
| RunEffects.BlockedPlanSendsNothing | application/rebalance_service.py:925-940 | without a resolved, unblocked frozen plan a run claims nothing and sends nothing |
| Histories.HistorySafety | application/rebalance_service.py:780-940 | after every history of possibly crashing runs: at most one active command per scope, each claimed at most once and not before its effective date, order lists unchanged by later events, no order outside a claim, all orders of a finished command closed |
| Histories.OneCommandPerSession | application/rebalance_service.py:806-905 | no second command is ever minted for a session that has one |
| Histories.ClaimOnlyAfterAllClosed | application/rebalance_service.py:906-940 | whenever a command is claimed it was queued, is effective in this session, and every order any command of the scope ever sent is known to be closed |
| Histories.SendOnlyWhileClaimed | application/rebalance_service.py:936-1016 | every order handed to the broker belongs to a command claimed earlier in the same run, with no outcome recorded yet |
| Interruptions.StuckForEver | application/rebalance_service.py:248-260 | a command whose run died after the claim, or with an order without broker id, is never moved again, and no order is ever sent again for its scope |
| Interruptions.StuckBlocks | application/rebalance_service.py:906-915 | an active unresolved command blocks every run of its scope |
| Interruptions.IdentityBlockStrandsClaim | application/rebalance_service.py:936-1016 | an account identity block comes after the claim and leaves the claimed command stuck |
| Interruptions.OperatorCancelOpensGap | application/rebalance_service.py:865-1016 | from a store that no run leaves, where somebody outside the repository cancelled a queued command in its signal session, the next run reaches the broker without a claim |
| Overlaps.OverlappingRunsBothClaim | application/rebalance_service.py:801-940 | two runs of one scope and session, told alike what is due, decide on one store that keeps the invariant and both claim, in any interleaving with atomic claims: at most one command is active afterwards iff they claim the same one; they differ iff the profile is the completed-session one, nothing was stored for the session, and they minted different commands |
| Overlaps.MintsAndClaimsFirst | application/rebalance_service.py:801-940 | from every store whose commands of the scope are finished, or queued and bound for a later session, an approved completed-session plan for today is minted and claimed before any other step |
| Overlaps.OverlappingMints | application/rebalance_service.py:801-940 | two whole runs from such a store, in any interleaving of their first steps: at most one command is active afterwards iff both minted the same command |
| LiveRun.LiveDesk.ReconcileCommand | application/rebalance_service.py:248-289 | the method appends exactly the steps of the specified reconciliation |
| LiveRun.LiveDesk.RecordOutcome | application/rebalance_service.py:195-245 | the method appends exactly the specified outcome events, stopping at the first refusal |
| LiveRun.LiveDesk.RunStrategy | application/rebalance_service.py:648-1241 | the whole run takes exactly the specified steps and keeps the invariant |
| OrderFence.StepKeepsInv | application/rebalance_service.py:1130-1181 | any step of any run, with any answer of the stores, keeps the fence invariant |
| OrderFence.OneRunPerMarkerDelegates | application/rebalance_service.py:1163-1181 | under every interleaving at most one run per execution marker ever delegates an order |
| OrderFence.OneOwnerPerAccountDelegates | application/rebalance_service.py:1145-1162 | under every interleaving all delegated orders of an account come from one owner |
| OrderFence.DelegationFollowsClaims | application/rebalance_service.py:1143-1181 | every delegated order comes after an allowed owner claim and a won marker claim of its own run |
| OrderFence.FailedClaimIsFinal | application/rebalance_service.py:1141-1180 | once a run's claim attempt failed, that run never delegates an order |
| OrderFence.WonClaimIsFinal | application/rebalance_service.py:1177-1181 | once a run holds its marker it leaves no mark but delivered orders, one for every two turns of the run, under every schedule |
| OrderFence.ClaimedRunIsNeverRefused | application/rebalance_service.py:1141-1181 | a run that won its claim is never refused an order and never fails, before or after |
| OrderFence.LostMarkerShutsOut | application/rebalance_service.py:1163-1178 | a marker written by a call that raised shuts out every run of its key that does not hold it, under every later schedule |
| OrderFence.BothDelegateWhenAdmitted | application/rebalance_service.py:1135-1181 | some schedule lets two runs both reach the broker iff the stores admit each, they do not contend for an account, and their markers differ |
| SessionFence.SessionReachesBrokerTwice | application/rebalance_service.py:456-471 | two runs of commands of one session can both reach the broker iff the commands differ in timing or in the date that the session does not fix |
| SessionFence.OverlapReachesBroker | application/rebalance_service.py:456-471 | two overlapping runs of one scope and session that both claim on one store that keeps the invariant, of either profile: two commands are active iff they claim different ones, and both can reach the broker iff those differ in timing or signal date |
| ClaimedOrderPort.Port.SubmitOrder | application/rebalance_service.py:1135-1181 | one call of the port behaves as the fence run alone from the stores' present state |
| RebalanceRun.CycleRun.SubmitOrderViaPort | application/execution_service.py:1030-1124 | the submission computes the specified book and tells whether the broker took the order |
| RebalanceRun.CycleRun.ObserveRefreshes | application/execution_service.py:1347-1400 | the refresh loop computes the specified fold and its last attempt |
| RebalanceRun.CycleRun.SelectBuys | application/execution_service.py:1483-1567 | the gates and the cost estimate yield the specified candidates |
| RebalanceRun.CycleRun.ExecuteRebalanceCycle | application/execution_service.py:787-1799 | the imperative cycle computes the specified cycle, keeps its ledger and its cash bound |
| CycleFacts.CycleReportsFacts | application/execution_service.py:928-940 | for every cycle: pending orders list exactly the calls not rejected, in order; only the last can be unknown or have a failed hook; live action implies a pending order; dry or blocked cycles call nobody |
| CycleTrades.CycleInTurn | application/execution_service.py:787-1799 | what a cycle trades, in full: every asset in excess sold, the sweep symbol sold if found worth it, after the refresh every allowed short asset bought, then the rebuy, each in its turn and plan order; only a halt leaves turns out |
| CycleTrades.SellOneTurns | application/execution_service.py:1154-1251 | an asset is sold iff it is in excess, quoted, and a lot fits: the largest number of lots of the holding (target zero) or worth the excess, at market or at the discounted limit |
| CycleTrades.SellSweepTurns | application/execution_service.py:1254-1333 | the sweep holding is sold whole iff no sell was submitted, a buy needs funding, it is quoted, and the sale is found worth it |
| CycleTrades.CandidatesInOrder | application/execution_service.py:1483-1488 | the buy candidates are the assets short by more than threshold and least order, each once, in plan order |
| CycleTrades.BuyOneTurns | application/execution_service.py:1569-1690 | a candidate is bought iff it is quoted, affordable, estimated, and a step fits: the largest number of steps within money and estimate, at market or at its limit price, charged when taken |
| CycleTrades.TopUpIsNearer | application/execution_service.py:263-286 | a share is topped up iff it leaves a whole holding no farther from its target |
| CycleTrades.CandidateCostExactly | application/execution_service.py:1512-1556 | the expected cost of a candidate is its budget, the steps that the budget pays, or one topped-up share |
| CycleTrades.EstimateAdds | application/execution_service.py:1512-1556 | the expected costs of the candidates add up, one quote each |
| CycleTrades.LotOfMarketSymbol | application/execution_service.py:532-539 | a plain symbol and its market symbol have one lot unless one is set for the market symbol itself; none, or one below one, means single shares |
| CycleTrades.RebuyTurns | application/execution_service.py:1715-1799 | the rebuy is placed iff it is open, enough cash is left at its quote, and a lot fits: the largest number of lots within cash and estimate, at its limit price |
| CycleCash.PlannedPayable | application/execution_service.py:289-323 | a planned whole-share quantity is paid for by the budget, a top-up share by the buying power |
| CycleCash.BuyTicketPayable | application/execution_service.py:1569-1690 | every buy ticket costs at most the investable cash at its reference price |
| CycleCash.RebuyTicketPayable | application/execution_service.py:1736-1766 | the tail rebuy costs at most what is left, at its limit price |
| CycleCash.PlaceBuyWithinLimit | application/execution_service.py:1569-1690 | one buy keeps committed money plus remaining cash within the limit, whatever the broker answers |
| CycleCash.BuysWithinInvestableCash | application/execution_service.py:1569-1799 | all buys of a cycle, the rebuy included, commit at most the investable cash at the start of the buy phase, market buys counted at the lower of quote and reference price |
| CycleQuotes.BuysAtQuoteNearInvestableCash | application/execution_service.py:1600-1690 | at the quoted prices a cycle exceeds that cash by at most half a cent per share bought at market |
| CycleQuotes.HarmlessQuotesKeepCash | application/execution_service.py:1600-1690 | if every market buy that the broker took was quoted not above its rounding to cents, or at a price that rounds to nothing, the buys are charged no more than that cash, whatever sells and limit buys were quoted |
| CycleQuotes.QuoteKeepsCashWhenHarmless | application/execution_service.py:1600-1690 | for each price: every cycle quoted at it stays within its cash iff the price is not above its rounding to cents or rounds to nothing |
| CycleQuotes.HarmfulQuote | application/execution_service.py:1600-1690 | a concrete cycle with 100 in cash that is charged 100.004 |
| CycleSells.SellQuantityBounds | application/execution_service.py:542-564 | a sell quantity is positive only if something is sellable, at most that, and worth at most the excess over a positive target; the skip at line 1226 is unreachable |
| CycleSells.SellsWithinHoldings | application/execution_service.py:1154-1333 | per asset a cycle sells at most what is sellable, and every asset keeps its target value at the quoted price, but for the sweep symbol when it is sold to fund buys |
| CycleRefresh.RefreshFolds | application/execution_service.py:1347-1400 | the loop folds every observation it makes and stops at the first with more cash, or at the last attempt |
| CycleRefresh.RefreshedTakesAll | application/execution_service.py:1347-1462 | after refreshing: halt and buy block are the OR of all observations, the scale is the least seen, investable cash the greatest of earlier, observed, and earlier plus greatest release; targets and liquid cash come from the last refresh, which is the first with more cash or the last attempt |
| CycleRefresh.RefreshedOnlyAfterSell | application/execution_service.py:1335-1478 | a refresh follows exactly a submitted sell in a cycle not halted; a paper sale adds its proceeds instead; nothing else changes |
| CycleRefresh.ReleasesAdd | application/execution_service.py:326-369 | released is the filled quantity times price of every order with an id and a fill read, whatever its status |
| CycleRefresh.SubmittedSellsMembers | application/execution_service.py:1092-1112 | the orders read after a sell are the pending sells of known outcome |
| CycleGates.GatesStopAllButRebuy | application/execution_service.py:1483-1799 | when the main buys are cleared, the buy side calls the broker iff it is no dry run, the tail is open, the next quote leaves more than two shares and the threshold in cash, an estimate comes, and a lot fits; then it makes that one limit buy |
| CycleGates.ShutBuysNothing | application/execution_service.py:1489-1799 | a halt, a small account and a lack of cash stop the rebuy as well |
| CycleGates.HeldBackRebuysAlike | application/execution_service.py:1502-1799 | two buy sides whose main buys are cleared, and that differ only in new-risk block, liquid cash, waited-for sells and quotes asked for, leave the same broker calls and pending orders when the rebuy is quoted alike |
| CycleGates.ProhibitedCycleBuys | application/execution_service.py:1715-1799 | concrete cycles that buy with new risk prohibited, and with negative cash |
| LiveCycle.RecordedAsTheCallsWent | application/rebalance_service.py:195-245 | a claimed command is recorded ended without fill iff every broker call of its cycle was rejected, and FILLED iff some was not and all of those were filled |
| LiveCycle.LostOrderStrandsCommand | application/rebalance_service.py:214-245 | a cycle in which the broker took an order without an id, and took an order not reported filled (as an unknown last outcome without id is), leaves its command stuck however much of the outcome is stored; when all of it is stored, a command is stuck iff its cycle was such |
| LiveCycle.LostOrderEndsScope | application/rebalance_service.py:214-260 | after a run with such a cycle, wherever it crashed after its claim, the command is never moved and no order is ever sent again for the scope, over every later history |
| LiveCycle.OrdersFollowClosedCommands | application/rebalance_service.py:648-1241 | over histories of runs that execute real cycles, an order is sent only under a claim of the same run, on its effective date, made when all earlier orders of the scope were closed |
| DecisionMapper.ReserveIsKept | decision_mapper.py:229-369 | spending all investable cash leaves the greater of strategy and platform reserve, or all liquid cash; nothing more is kept back without a smaller wish of the strategy |
| DecisionMapper.PlatformReserveIsLeast | decision_mapper.py:229-240 | the platform reserve is the least sum not below zero, the policy's floor, and its share of the equity |
| DecisionMapper.InvestsTheMost | decision_mapper.py:342-369 | the reserve is the greater of both, and a sum may be invested iff it is wished for and leaves the reserve |
| DecisionMapper.ReserveSurvivesCycle | decision_mapper.py:342-369 | in a cycle without a submitted sell the buys leave the reserve untouched |
| DecisionMapper.ExecutesExactlyWhenApproved | decision_mapper.py:473-614 | a decision reaches the broker iff it has targets, equity, no blocking fact, and exactly the approval the executor looks for |
| DecisionMapper.MarkedExactly | decision_mapper.py:473-484 | a decision is marked not to be executed iff a flag forbids it, no order was decided, execution was not authorized, its gate says reject in any case and spacing, or its weights have no equity; the payload it is attached to is then marked too |
| DecisionMapper.ActsExactly | application/execution_service.py:178-203 | the executor acts iff the execution payload is approved, the allocation payload is approved or silent, and neither carries a fact against it |
| DecisionMapper.BlockedDecisionCallsNoBroker | decision_mapper.py:244-262 | a blocked decision, over any earlier payload, makes the cycle return at entry without a broker call |
| CandidateMerge.MergeKeepsEvidence | notifications/unified.py:180-228 | no merge drops a fact, a conflict or an executed run, and it takes in the new fact |
| CandidateLaws.RowByObservations | notifications/unified.py:214-258 | a count is shown iff exactly one value was observed for it, and is that value; the row is an alert iff some count was contradicted or some fact is not routine |
| CandidateOrder.AcceptedWhenAgree | notifications/unified.py:189-228 | all calls are accepted iff each stands alone and no two contradict each other about a run |
| CandidateOrder.ArrivalOrderIsIrrelevant | notifications/unified.py:189-263 | when some calls are all accepted, the same calls in any order are too, and lead to rows for the same runs with the same kind, counts, status, plugin observations and facts |
| CandidateOrder.PermutationIsIrrelevant | notifications/unified.py:189-263 | a permutation of the calls is accepted iff the calls are, and then leads to the same rows |
| CandidateRepeat.RepeatKeepsFacts | notifications/unified.py:184-268 | the second of two equal calls succeeds and changes nothing but the listing of facts in rows |
| CandidateRepeat.RepeatWritesOnlyWhenDisplaced | notifications/unified.py:264-268 | repeating the last event writes the private object iff the event was new, its run executed, and it is filed before another fact of that run; a third call never writes |
| CandidateRepeat.SomeRepeatWrites | notifications/unified.py:264-268 | two routine facts of one executed run: the one filed first, arriving second, is written again when repeated |
| CandidateExport.PublishKeepsInv | notifications/unified.py:138-155 | a publication succeeds only forward in commit order |
| CandidateExport.PublishedInCommitOrder | notifications/unified.py:138-155 | under every interleaving publications are projections of commits in strictly increasing order, and keep every fact once carried |
| CandidateExport.ReturnedFactIsPublic | notifications/unified.py:158-270 | when a call for an executed run has returned, the public digest carries its fact, whatever other calls did |
| CandidateDigest.DigestByCalls | notifications/unified.py:138-155 | for any calls the digest has a run iff some accepted call told whether it executed; orders and fills are shown iff one value was observed, and are that value; status, time, dry-run flag, plugin observations, facts, and the idle time and reason are those of the calls |
| CandidateDigest.PublishedTells | notifications/unified.py:138-270 | under every interleaving the committed calls form one serial history, and every publication says exactly that of the calls up to its commit |
| CandidateStore.Candidate.PersistCandidate | notifications/unified.py:158-270 | an uninterrupted call raises exactly when the merge does, writing nothing, and else stores the merged state and its projection, each written only when it changes |
| Phase5Funding.FillIsLargest | research/phase5_offline_adapter.py:139-144 | each fill is the largest whole number of shares within the gap that free cash, with its slack, can pay including fees |
| Phase5Funding.FundedShares | research/phase5_offline_adapter.py:135-156 | each symbol in turn is bought up to its target or as far as its free money goes, cash, fees and rows being those of the shares; it is recorded short iff it stayed below its target, with both numbers |
| Phase5Funding.SpentInFull | research/phase5_offline_adapter.py:141-152 | shares cost their price and the fee rate on it |
| Phase5Funding.FundingConservesWorth | research/phase5_offline_adapter.py:135-156 | cash and holdings after funding plus all fees equal the opening cash |
| Phase5Funding.FundingKeepsCash | research/phase5_offline_adapter.py:139-156 | final cash is at least the lesser of opening cash and restricted cash plus target, less 3e-9; after an outer purchase from free cash the unspent member budget is left too |
| Phase5Verifier.FundPlan | research/phase5_offline_adapter.py:135-156 | the loop computes the specified funding |
| Phase5Verifier.ConvertFundedProposal | research/phase5_offline_adapter.py:53-231 | evidence is returned iff the plan is valid and every field of the proposal agrees |
| Phase5Verifier.ValidPlansAreAccepted | research/phase5_offline_adapter.py:157-213 | every valid plan has an accepted proposal; the recomputed one is accepted iff its settled cash is not negative |
| Phase5Verifier.AcceptedPlansAreFirstOpens | research/phase5_offline_adapter.py:59-131 | some proposal is accepted iff the plan is a first open: identity, causal dates, positive prices, nothing held or pending, targets of the owners only, known fee, restricted cash that is there |
| Phase5Verifier.AcceptedProposalsAreSound | research/phase5_offline_adapter.py:157-213 | the numbers an accepted proposal states satisfy the cash bounds, the member reserve and the account identity up to the tolerance, and each row states symbol, shares, owner, price and fee as funded |
| Phase5Verifier.AcceptedShortfallsAreTrue | research/phase5_offline_adapter.py:153-173 | an accepted proposal is feasible iff every stated share count is its target in whole shares, and lists as unfilled exactly the symbols below target, with both numbers |
| Phase5Verifier.AcceptedProposalsAgree | research/phase5_offline_adapter.py:157-213 | two accepted proposals of one plan agree in everything but money, and in money up to twice the tolerance |
| Phase5Verifier.IdentityHolds | research/phase5_offline_adapter.py:202-213 | the identity error is zero, so the identity check never fires |
| Phase5Verifier.ThinPlanIsRefused | research/phase5_offline_adapter.py:139-152 | a concrete valid plan whose recomputed proposal is refused |
| Executions.CollectExecutions | application/broker_reconciliation.py:449-483 | the merge fails iff a row is unreadable or two rows in the window disagree on a trade, and else holds exactly the trades told |
| Executions.DisagreeOnFacts | application/broker_reconciliation.py:471-483 | counted rows of a trade disagree iff order, symbol, time, quantity or price differ, or in forward mode side or currency |
| Executions.CountsByEnds | application/broker_reconciliation.py:449-466 | a complete row counts iff its time is in the window, both ends belonging to a legacy window and the later one only to a forward window |
| Executions.MeetingWindows | application/broker_reconciliation.py:449-465 | a row where two windows meet is counted by both in legacy mode and by the earlier only in forward mode |
| Executions.MergeIgnoresArrangement | application/broker_reconciliation.py:449-483 | row order, repeats and the split between history and today do not matter |
| ExecutionTuple.ReadExecutions | application/broker_reconciliation.py:449-483 | a read returns the outputs of all trades, each once, in canonical order, or fails as the merge does |
| ExecutionTuple.TupleIgnoresArrangement | application/broker_reconciliation.py:449-483 | in legacy mode, or with one time text per trade, order, repeats and split of the rows do not change the returned tuple |
| ExecutionTuple.TupleIsArrangementFree | application/broker_reconciliation.py:464-483 | no reordering changes the returned tuple iff the mode is legacy or the rows of each trade share one time text |
| ExecutionTuple.ForwardReadDependsOnOrder | application/broker_reconciliation.py:480-482 | one execution reported with two time texts: the two orders of its rows return different tuples |
| ExecutionWindows.WindowsPartition | application/broker_reconciliation.py:372-399 | chained forward windows put every time of the span in exactly one window |
| ExecutionWindows.SpanFailsAsWindows | application/broker_reconciliation.py:449-483 | one read of the span fails iff some window's read fails or a trade has rows in two windows |
| ExecutionWindows.SpanIsUnionOfWindows | application/broker_reconciliation.py:449-483 | each window holds exactly its share of what the span holds, the first time texts included |

## Left out

- The command, marker and owner stores, `is_due_on` and the strategy evaluation are outside libraries; the model takes atomic create-if-absent, append and claim steps, and that a command is due only from its effective date on.
- The listing order of commands follows their digests; the model takes any order. The lower-casing of scope and profile when commands are matched is not modelled.
- The paper command queue, dry-run marker bypass and validation-cycle mode of `run_strategy`; the model covers live runs with durable commands.
- `apply_small_account_cash_compatibility`, bootstrap targets and safe-haven substitution: the cycle starts from the targets they produce, and the rescaling after a refresh is an arbitrary function of plan and scale.
- `should_sell_cash_sweep_to_fund_whole_share_buy`: its answer is an arbitrary boolean, so the sweep sale is proved for every answer.
- A reference price that rounds to zero makes the source raise a division error; the model sizes a zero quantity there.
- The broker's fill facts after a cycle enter the model as statuses and fills read; price text, quote snapshots, logs, notes, translations and notifications are not modelled.
- `build_value_target_runtime_plan`: that the plan passes the investable cash through is a premise of the reserve theorem, and translating weights to values is taken to keep flags and diagnostics.
- The idle path of `emit_archived`, the archive scan and incident tracking; evidence laws are stated for `persist_candidate` only.
- Symbols, gates of payloads and lot keys are taken as stripped and in upper case; only the gate of a decision is normalized in the model.
- Rows of the candidate are a map by run instead of a list sorted by run id; a fact's remaining fields are one text.
- Missing or extra symbol keys and non-finite numbers in a funding plan; the model has one value per symbol, negative ones included.
- Positions, cash, orders, digests and capture times of the reconciliation reader; they are field-by-field normalizations.
- Binary floating-point rounding: money is real, `round(x, 2)` is exact with ties to even.
