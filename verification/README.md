# CL8Y bots in Dafny

A verified model of four stateful components of the CL8Y bot systems, one group of modules each.

**Limit-grid vault** (`LimitGrid`, `LimitChain`, `LimitInvariant`, `LimitSteps`, `LimitTheorems`, `LimitPages`,
`LimitSolvency`, `LimitFees`, `LimitProceeds`, `LimitExit`, `LimitWitness`, `LimitCalls`, `LimitOutcomes`,
`GridVault`). The vault and the pair it trades on are two state machines whose steps interleave: handlers queue
submessages, each submessage runs on the pair, each reply comes back to the vault, and between transactions the pair
fills, drops, expires and places orders and anyone may send tokens. One invariant (custody, order counting, disjoint
pages, agreement with the pair, shares) is kept by every step. From it follow that an order the pair no longer knows
was really executed, that reconciling every order balances the books, and how an exit ends.

**Market-grid vault** (`GridPlan`, `NavShares`, `Settlement`, `GridMarket`, `GridMarketRuns`, `GridMarketCalls`,
`GridVaultSwap`). Shares minted against floored net asset value, the fixed-point grid cell, the planned offer, and a
rebalance in two phases with a bounded loss.

**Rebalancer** (`ParityPlan`, `BotPair`, `BotRuns`, `BotCalls`, `BotContracts`). `bot-liquidity` issues the LP token
and authorizes, `bot-vault` holds the tokens and trades; transactions are the messages they exchange. The vault's
token transfers are kept in a list, which stands for the CW20 messages it sends.

**Operator keeper** (`KeeperTables`, `KeeperMachine`, `KeeperCalls`, `KeeperSafety`, `KeeperEvents`, `KeeperEffects`,
`KeeperWitness`, `Keeper`). Every database transaction and every network call is one step, and the process may die
between any two. A batch is never broadcast twice by accident, and every fill is accounted for once.

`Arithmetic`, `Tokens`, `Ledger`, `ProRata`, `FeeMint` and `Trades` are shared.

Each component comes in two forms. Functions on values say what a handler does, and lemmas about them hold the
properties. Classes (`GridVault.Contract`, `GridVaultSwap.Contract`, `BotContracts.BotLiquidity` with
`BotContracts.BotVault`, `Keeper.Operator`) update their fields in place with the loops of the program, and every
method is proved equal to its function, errors included. A `Decimal` is its integer atomics.

What a whole call answers is stated once more without those functions (`LimitCalls`, `LimitOutcomes`,
`GridMarketCalls`, `BotCalls`, `KeeperEffects`): in storage fields, balances, exact values and inequalities, as
"commits exactly when ..., and then ..., otherwise nothing changes".

## What the code does not do

Four statements one would expect are false of the code. Each has a run from a fresh state in which it fails and a
lemma with the exact condition.

- Per token, expected assets may exceed actual ones between a fill and its reconcile (`ExpectedCanExceedActual`):
  by exactly the fills not yet seen less the arrivals not yet synchronised (`SolvencyGap`).
- The order count may exceed its cap, because recovering an order does not look at it (`RecoveryCanExceedCap`). A
  run stays within the cap exactly when every recovery that succeeds began below it (`CapHoldsIffRecoveriesFit`).
- An exit may never complete (`ExitCanBeStranded`). Emergency cancellation refuses an absent order although
  reconcile would retire it, reconcile needs the active mode, and exit mode is final, so nothing is ever paid out
  again (`ExitWithExecutedOrderNeverPays`). Without an executed order among the tracked ones, with any share
  outstanding and no pair step in between, everything is paid out (`ExitPaysEverything`); without a share, nothing
  ever is (`ExitWithoutSharesNeverPays`). The repository's limit-grid README calls an absent order fully executed;
  the code path for exits does not.
- Freezing may fail on the uniqueness of `batch_events` (`LateConfirmationClashes`). A confirmation marks all events
  its batch froze exactly when it was included at or above the batch's through height (`ConfirmationMarksAllIff`),
  and then freezing never fails (`FreezeNeverClashes`).

In exact rationals a market deposit may lower NAV per share; it survives every token-0 deposit exactly when the
prior token-1 value needed no flooring (`ExactNavSurvivesIffNothingFloored`). In the code's floored valuation it never
falls. Accepting a market deposit while a swap is pending is what the code does, and the model follows it.

## Assumptions

CW20 amounts are exact. The pair hands out order ids in order and never reuses one, only the vault cancels or
claims its orders, a skipped placement is refunded, no submessage calls back into the vault, and an order query
fails only when the order is absent. The TWAP, pool quote, pool safety verdict, swap return and resolved fee (any
basis points up to one whole) are parameters. The keeper is one process at a time. In the rebalancer the liquidity
contract itself sends none of the LP messages.

## Model

| member | source | states |
|---|---|---|
| FeeMint.FeeSharesAreLargestFair | limit-grid-system/contracts/grid-vault/src/contract.rs:1799-1822 | the fee mint is the largest x with x*A <= F*(S+x) |
| FeeMint.FairMintIsNothingIff | rebalancer-system/contracts/bot-vault/src/contract.rs:1338-1352 | a fee mints nothing exactly when there is none, nobody to dilute, it would eat the assets, or one share would claim more |
| FeeMint.FeeClaimIsTight | market-grid-system/contracts/grid-vault-swap/src/contract.rs:1444-1468 | the minted shares redeem at most the fee, and less than one share's worth below it |
| FeeMint.IncumbentsKeepTheRest | rebalancer-system/contracts/bot-vault/src/contract.rs:1338-1352 | over any sequence of mints at fixed assets the prior holders keep at least assets minus the sum of the fees |
| FeeMint.CollectorNeverOverclaims | limit-grid-system/contracts/grid-vault/src/contract.rs:1871-1950 | over any sequence of mints at fixed assets the collector's claim is at most the sum of the fees |
| ProRata.BurnKeepsBacking | rebalancer-system/contracts/bot-liquidity/src/contract.rs:234-300 | a floored payout never lowers what stands behind each remaining share |
| ProRata.BurnAllKeepsBacking | market-grid-system/contracts/grid-vault-swap/src/contract.rs:292-351 | the same for any sequence of burns |
| ProRata.PiecewiseBurnPaysNoMore | market-grid-system/contracts/grid-vault-swap/src/contract.rs:314-349 | burning in pieces pays at most what one burn of the total pays |
| ProRata.BurningEverythingPaysInFull | market-grid-system/contracts/grid-vault-swap/src/contract.rs:314-349 | burning the whole supply in any pieces pays the balance out exactly |
| Settlement.ValidateSettlement | rebalancer-system/contracts/bot-vault/src/contract.rs:547-563 | accepts exactly the balances that spent the planned amount and gained at least the minimum |
| Settlement.BoundedLoss | market-grid-system/contracts/grid-vault-swap/src/contract.rs:1261-1274 | an accepted settlement loses at most offered value times the execution deviation plus two smallest units |
| Settlement.BoundedLossOfPortfolio | market-grid-system/contracts/grid-vault-swap/src/contract.rs:977-1007 | hence at most portfolio times both limits plus two smallest units |
| GridPlan.CellWithoutFallback | market-grid-system/contracts/grid-vault-swap/src/contract.rs:1065-1083 | neither zero fallback is ever taken: the cell is a plain floored quotient |
| GridPlan.CellWithinGrid | market-grid-system/contracts/grid-vault-swap/src/contract.rs:1065-1083 | the cell lies in 0..grid_count |
| GridPlan.CellMonotone | market-grid-system/contracts/grid-vault-swap/src/contract.rs:1065-1083 | the cell is monotone in price |
| GridPlan.CellNearIdeal | market-grid-system/contracts/grid-vault-swap/src/contract.rs:1065-1083 | with span >= grid_count^2 atomics the cell is the ideal quotient or one more, capped |
| GridPlan.CellIdealIffCountDividesSpan | market-grid-system/contracts/grid-vault-swap/src/contract.rs:1065-1083 | the cell is the ideal one at every price exactly when grid_count divides the span (or the span is one atomic) |
| GridPlan.PlannedOfferIsAimed | market-grid-system/contracts/grid-vault-swap/src/contract.rs:1122-1154 | the offer always converts, fits the cap, never crosses the target ideally, and is the largest such |
| NavShares.DepositNeverDilutes | market-grid-system/contracts/grid-vault-swap/src/contract.rs:1390-1426 | floored NAV per share never falls on a deposit: V'*S >= V*S' |
| NavShares.MintIsLargestFair | market-grid-system/contracts/grid-vault-swap/src/contract.rs:1390-1426 | the mint is the most that keeps floored NAV per share from falling |
| NavShares.DepositRoundTrip | market-grid-system/contracts/grid-vault-swap/src/contract.rs:314-349 | withdrawing the minted shares at once returns floored value of at most D, D+1 for token 1 |
| NavShares.ExactNavSurvivesIffNothingFloored | market-grid-system/contracts/grid-vault-swap/src/contract.rs:1428-1442 | in exact rationals NAV per share survives every token-0 deposit exactly when the prior token-1 value was not floored |
| NavShares.PayoutCovered | market-grid-system/contracts/grid-vault-swap/src/contract.rs:318-330 | a payout is covered by the balances; all the shares get all of both |
| GridMarketRuns.SharesConserved | market-grid-system/contracts/grid-vault-swap/src/contract.rs:186-238 | in every run the recorded total is the sum of all holdings, with pending_admin != admin |
| GridMarketRuns.SelfAcceptDropsShares | market-grid-system/contracts/grid-vault-swap/src/contract.rs:618-645 | accepting one's own transfer would drop the shares, so the invariant needs pending_admin != admin |
| GridMarketRuns.OwnSharesAlwaysBurnable | market-grid-system/contracts/grid-vault-swap/src/contract.rs:292-315 | a holder's balance never exceeds the total, so its own withdrawal cannot fail on it |
| GridMarketRuns.PayoutsKeepBacking | market-grid-system/contracts/grid-vault-swap/src/contract.rs:784-845 | over runs of withdrawals, redemptions and gifts neither token's backing per share falls |
| GridMarketRuns.LastBurnEmptiesVault | market-grid-system/contracts/grid-vault-swap/src/contract.rs:314-349 | the burn that brings the total to zero leaves nothing in the vault, whatever the order |
| GridMarketRuns.DepositThenWithdraw | market-grid-system/contracts/grid-vault-swap/src/contract.rs:240-351 | deposit and immediate withdrawal as two transactions return at most D, D+1 for token 1 |
| GridMarketRuns.DepositKeepsNavPerShare | market-grid-system/contracts/grid-vault-swap/src/contract.rs:240-290 | a deposit transaction never lowers floored NAV per share |
| GridMarketRuns.RebalanceLossBounded | market-grid-system/contracts/grid-vault-swap/src/contract.rs:417-485 | over a whole rebalance: offered value times the execution deviation, hence the portfolio bound, plus two units of the token received |
| GridMarketRuns.RebalancingTerminates | market-grid-system/contracts/grid-vault-swap/src/contract.rs:427-444 | at constant TWAP at most deviation + 1 rebalances commit in a row |
| GridMarketCalls.DepositAnswers | market-grid-system/contracts/grid-vault-swap/src/contract.rs:240-290 | exactly when a deposit commits, and then the most shares leaving value per share where it was go to the admin; else nothing changes |
| GridMarketCalls.WithdrawalAnswers | market-grid-system/contracts/grid-vault-swap/src/contract.rs:292-351 | exactly whoever owns what it burns is paid, of each token the most its shares claim; nothing else changes |
| GridMarketCalls.RedemptionAnswers | market-grid-system/contracts/grid-vault-swap/src/contract.rs:784-845 | the same for the collector's whole holding, and for nobody else |
| GridMarketCalls.DeviationIs | market-grid-system/contracts/grid-vault-swap/src/contract.rs:1096-1120 | the deviation is at least any given number of basis points exactly when token 1's worth is that far from its target |
| GridMarketCalls.RequiredIffDue | market-grid-system/contracts/grid-vault-swap/src/contract.rs:964-965 | a rebalance is required exactly when the cell moved or token 1 is worth more than the tolerance off its target |
| GridMarketCalls.OfferIsAimed | market-grid-system/contracts/grid-vault-swap/src/contract.rs:1122-1154 | the planned offer is the one amount within the cap that is the most not to cross the target; none exactly when there is no such |
| GridMarketCalls.RebalanceAnswers | market-grid-system/contracts/grid-vault-swap/src/contract.rs:353-485 | exactly when a rebalance commits, and what it then sells, gains, records and charges; else nothing changes |
| GridMarketCalls.RebalanceFeeIsLargest | market-grid-system/contracts/grid-vault-swap/src/contract.rs:445-469 | the fee is taken on what was bought, at the captured price against the settled holdings: the most shares claiming no more, all the collector's, none exactly where stated |
| GridMarketCalls.RebalanceFeeIsFair | market-grid-system/contracts/grid-vault-swap/src/contract.rs:702-779 | so the collector's new shares claim at most the fee |
| GridMarketCalls.PendingBlocks | market-grid-system/contracts/grid-vault-swap/src/contract.rs:300-302 | between a swap and its reply nobody is paid, no second rebalance starts, no setting changes |
| GridMarketCalls.HoldingsShrinkByOwner | market-grid-system/contracts/grid-vault-swap/src/contract.rs:186-238 | whatever is sent, a holding shrinks only by its owner's withdrawal or redemption, or when an admin is succeeded |
| GridMarketCalls.AcceptanceAnswers | market-grid-system/contracts/grid-vault-swap/src/contract.rs:618-645 | only the proposed admin accepts, and takes over the old one's whole holding; everybody else's stays |
| GridMarketCalls.AdminAnswers | market-grid-system/contracts/grid-vault-swap/src/contract.rs:597-668 | the admin alone proposes somebody else, pauses and resumes |
| GridMarketCalls.UpdateAnswers | market-grid-system/contracts/grid-vault-swap/src/contract.rs:488-595 | with settings in bounds the admin gets exactly what it asks for when that is in bounds, else nothing changes |
| GridMarketCalls.BoundsHold | market-grid-system/contracts/grid-vault-swap/src/contract.rs:1336-1366 | settings that start in bounds stay in bounds over every run |
| GridMarketCalls.RebalanceLosesAtMostATwentieth | market-grid-system/contracts/grid-vault-swap/src/contract.rs:1344-1366 | so after any run a committed rebalance loses at most a twentieth of the portfolio plus two smallest units |
| GridVaultSwap.Contract.ExecuteReceive | market-grid-system/contracts/grid-vault-swap/src/contract.rs:240-290 | deposit: new storage or revert as specified, invariant kept |
| GridVaultSwap.Contract.ExecuteWithdraw | market-grid-system/contracts/grid-vault-swap/src/contract.rs:292-351 | withdrawal: both floored claims leave, shares burn |
| GridVaultSwap.Contract.ExecuteRedeemShares | market-grid-system/contracts/grid-vault-swap/src/contract.rs:784-845 | the collector burns all it holds |
| GridVaultSwap.Contract.RebalanceTransaction | market-grid-system/contracts/grid-vault-swap/src/contract.rs:353-485 | start, swap and reply commit together or not at all |
| GridVaultSwap.Contract.ExecuteUpdateConfig | market-grid-system/contracts/grid-vault-swap/src/contract.rs:488-595 | collector, grid and limits change together or not at all, within their bounds, never while a swap is pending |
| GridVaultSwap.Contract.ExecuteAcceptAdmin | market-grid-system/contracts/grid-vault-swap/src/contract.rs:618-645 | the new admin takes over the old one's shares |
| GridVault.Contract.ScanRequested | limit-grid-system/contracts/grid-vault/src/contract.rs:598-692 | the loop over requested ids, statement by statement, against its recursive specification |
| GridVault.Contract.AssetTotals | limit-grid-system/contracts/grid-vault/src/contract.rs:1826-1849 | free plus recorded remaining of every tracked order |
| GridVault.Contract.CollectEntries | limit-grid-system/contracts/grid-vault/src/contract.rs:1144-1198 | the loop that sorts orders into cancels and claims |
| GridVault.Contract.AddConfirmablePages | limit-grid-system/contracts/grid-vault/src/contract.rs:1963-2007 | chunks of at most the pair's limit, cancels first, one reply id each |
| GridVault.Contract.AddPages | limit-grid-system/contracts/grid-vault/src/contract.rs:1974-2005 | one kind of pages |
| GridVault.Contract.HandlePendingPage | limit-grid-system/contracts/grid-vault/src/contract.rs:2009-2066 | on success refunds, ledger and retired orders; on failure nothing but the page goes |
| GridVault.Contract.Reply | limit-grid-system/contracts/grid-vault/src/contract.rs:1445-1512 | pages, then placements: restore, record or fail |
| GridVault.Contract.RecordReported | limit-grid-system/contracts/grid-vault/src/contract.rs:1483-1507 | tracks reported ids one by one against their rungs |
| GridVault.Contract.QuerySolvency | limit-grid-system/contracts/grid-vault/src/contract.rs:2117-2211 | expected, actual and the five counters over all orders |
| GridVault.Contract.Execute | limit-grid-system/contracts/grid-vault/src/contract.rs:131-188 | every message does what its function says, and a failed one leaves the storage as it was |
| LimitSteps.RunKeeps | limit-grid-system/contracts/grid-vault/src/contract.rs:131-188 | the whole invariant over every run of calls, submessages, replies and pair steps |
| LimitSteps.StepKeeps | limit-grid-system/contracts/grid-vault/src/contract.rs:131-188 | the same for one step, revert included |
| LimitSteps.PairPaysRefunds | limit-grid-system/contracts/grid-vault/src/contract.rs:1996-2003 | a page that runs pays exactly its recorded refunds, token by token |
| LimitSteps.PageReplyNeverFails | limit-grid-system/contracts/grid-vault/src/contract.rs:2041-2045 | a page's reply never underflows the order count |
| LimitSteps.ConfirmEntriesFacts | limit-grid-system/contracts/grid-vault/src/contract.rs:2018-2040 | what confirming a page does to balances, orders and ledger, as a whole |
| LimitSteps.RecordOrdersFacts | limit-grid-system/contracts/grid-vault/src/contract.rs:1483-1507 | exactly the reported ids become tracked, each as the pair holds it |
| LimitInvariant.HandlerKeeps | limit-grid-system/contracts/grid-vault/src/contract.rs:131-188 | every handler leaves the invariant with its submessages queued and can pay what it transfers |
| LimitInvariant.ScanFacts | limit-grid-system/contracts/grid-vault/src/contract.rs:598-692 | in reach of the invariant a scan fails only on a repeated or untracked id |
| LimitInvariant.InspectSucceeds | limit-grid-system/contracts/grid-vault/src/contract.rs:647-661 | a tracked order always validates, is never found cancelled, and executed means executed |
| LimitTheorems.CustodyAlways | limit-grid-system/contracts/grid-vault/src/contract.rs:1376-1546 | custody identity at every step, submessages in flight included |
| LimitTheorems.CustodyAtRest | limit-grid-system/contracts/grid-vault/src/contract.rs:2085-2096 | between transactions real balance = free + unsynchronised, so `actual < free` never fires |
| LimitTheorems.DepositCheckMeansUnsynced | limit-grid-system/contracts/grid-vault/src/contract.rs:407-411 | the deposit balance check refuses exactly when an arrival was never synchronised |
| LimitTheorems.UnknownMeansExecuted | limit-grid-system/contracts/grid-vault/src/contract.rs:647-661 | an absent tracked order was filled to zero, or its own cancel or claim awaits its reply; it is never a cancelled one |
| LimitTheorems.ScanNeverStuck | limit-grid-system/contracts/grid-vault/src/contract.rs:598-692 | reconcile's cancelled branch is dead and its count never underflows |
| LimitTheorems.ActiveOrdersCount | limit-grid-system/contracts/grid-vault/src/contract.rs:1395-1405 | active_orders = tracked orders + rungs awaiting reply, at every step |
| LimitTheorems.PendingPagesAreDisjoint | limit-grid-system/contracts/grid-vault/src/contract.rs:1963-2007 | pending pages are pairwise-disjoint subsets of the tracked orders |
| LimitTheorems.RepliesNeverUnderflow | limit-grid-system/contracts/grid-vault/src/contract.rs:1445-1546 | every reply is a recorded one; pages and restores are never refused |
| LimitTheorems.EmergencyResetIsNoOp | limit-grid-system/contracts/grid-vault/src/contract.rs:1282-1282 | the reset to zero changes nothing |
| LimitTheorems.SharesConserved | limit-grid-system/contracts/grid-vault/src/contract.rs:897-1012 | total is the sum of holdings and only owner and collector hold any |
| LimitTheorems.CapHoldsIffRecoveriesFit | limit-grid-system/contracts/grid-vault/src/contract.rs:1395-1397 | a run stays within the order cap at every point exactly when each successful recovery began below it |
| LimitTheorems.RecoveryWithinCapIff | limit-grid-system/contracts/grid-vault/src/contract.rs:809-812 | a recovery stays within the cap exactly when one more order fitted |
| LimitPages.PagesSucceed | limit-grid-system/contracts/grid-vault/src/contract.rs:1963-2066 | with no pair step in between every queued page succeeds and removes exactly its orders |
| LimitSolvency.SolvencyGap | limit-grid-system/contracts/grid-vault/src/contract.rs:2117-2211 | expected - actual = fills not yet seen - arrivals not yet synchronised, per token; nothing unverifiable or cancelled |
| LimitSolvency.FillOpensGap | limit-grid-system/contracts/grid-vault/src/contract.rs:2136-2158 | `expected <= actual` per token fails by the filled amount until the order is reconciled |
| LimitSolvency.ClearMeansSolvent | limit-grid-system/contracts/grid-vault/src/contract.rs:2117-2211 | nothing unsynchronised and every record matching the pair makes the books balance |
| LimitSolvency.ReconcileBatch | limit-grid-system/contracts/grid-vault/src/contract.rs:580-742 | one reconcile with its claims makes its batch match the pair and keeps what matched |
| LimitFees.BatchKeepsCeiling | limit-grid-system/contracts/grid-vault/src/contract.rs:580-742 | reconciling a batch never raises balance plus recorded escrow |
| LimitFees.ReconcileRestoresSolvency | limit-grid-system/contracts/grid-vault/src/contract.rs:580-742 | reconciling every tracked order in batches gives expected = actual and no executed, parked or unverifiable order |
| LimitProceeds.AbsentOrderIsPaid | limit-grid-system/contracts/grid-vault/src/contract.rs:647-661 | an absent tracked order was executed and its proceeds are in the vault: balance = free + proceeds + gifts since the last synchronisation |
| LimitWitness.ExpectedCanExceedActual | limit-grid-system/contracts/grid-vault/src/contract.rs:2117-2211 | a run from a fresh vault in which a partial fill leaves expected above actual |
| LimitWitness.RecoveryCanExceedCap | limit-grid-system/contracts/grid-vault/src/contract.rs:809-812 | a run from a fresh vault in which a recovery exceeds the order cap |
| LimitWitness.ExitCanBeStranded | limit-grid-system/contracts/grid-vault/src/contract.rs:1104-1121 | a run from a fresh vault into exit mode with an executed order tracked |
| LimitExit.LeavingPaysEverything | limit-grid-system/contracts/grid-vault/src/contract.rs:984-1010 | where both hold shares, owner exit and collector redemption in either order pay both tokens out exactly in full |
| LimitExit.LeavingEmptiesVault | limit-grid-system/contracts/grid-vault/src/contract.rs:984-1010 | whoever holds the shares, at most two calls empty a vault with no orders left in exit mode |
| LimitExit.ExitWithoutSharesNeverPays | limit-grid-system/contracts/grid-vault/src/contract.rs:1249-1254 | without a share outstanding exit mode never pays anything out, in any later run |
| LimitExit.EmergencyCancelBlockedIff | limit-grid-system/contracts/grid-vault/src/contract.rs:1146-1198 | emergency cancellation is refused exactly when a taken-up order was executed |
| LimitExit.EmergencyCancelCompletes | limit-grid-system/contracts/grid-vault/src/contract.rs:1123-1219 | with no tracked order executed, enough emergency cancellations leave none |
| LimitExit.ExitPaysEverything | limit-grid-system/contracts/grid-vault/src/contract.rs:1123-1285 | with no tracked order executed and any share outstanding, whoever holds them, the exit pays everything out |
| LimitExit.ExitWithExecutedOrderNeverPays | limit-grid-system/contracts/grid-vault/src/contract.rs:1193-1195 | exit with an executed order still tracked never pays out again, in any later run |
| LimitCalls.WithdrawalAnswers | limit-grid-system/contracts/grid-vault/src/contract.rs:897-957 | exactly when an owner's withdrawal commits; it pays of each token the most the burned shares claim of the free balance, and the rest is untouched |
| LimitCalls.RedemptionAnswers | limit-grid-system/contracts/grid-vault/src/contract.rs:962-1012 | the same for the collector's whole holding |
| LimitCalls.EmergencyWithdrawalAnswers | limit-grid-system/contracts/grid-vault/src/contract.rs:1221-1285 | the same for the owner's exit, out of the real balances, the rest becoming free |
| LimitCalls.DepositAnswers | limit-grid-system/contracts/grid-vault/src/contract.rs:375-447 | exactly when a deposit commits; it mints the most shares it is worth and offers asks for token 0, bids for token 1, out of the new free balance |
| LimitCalls.AllocationOffers | limit-grid-system/contracts/grid-vault/src/contract.rs:559-578 | a side is offered in one placement of all its rungs, evenly, exactly when it has a unit per rung and room under the cap |
| LimitCalls.AllocationAnswers | limit-grid-system/contracts/grid-vault/src/contract.rs:510-557 | exactly when an allocation commits; bids first, then asks with what the cap leaves |
| LimitCalls.SyncAnswers | limit-grid-system/contracts/grid-vault/src/contract.rs:211-229 | the owner can always synchronise, and then free is real |
| LimitCalls.ModeAnswers | limit-grid-system/contracts/grid-vault/src/contract.rs:1084-1121 | the admin pauses and resumes, only the owner leaves, nobody comes back |
| LimitCalls.PlacementReplyAnswers | limit-grid-system/contracts/grid-vault/src/contract.rs:1458-1546 | a placement that came back refunds its rung, one whose report fits tracks exactly those orders, anything else reverts the transaction |
| LimitCalls.PageReplyAnswers | limit-grid-system/contracts/grid-vault/src/contract.rs:2009-2066 | a confirmed page frees its refunds and files each cancelled order as tracked with what came back; a failed one is forgotten |
| LimitOutcomes.PagesSettle | limit-grid-system/contracts/grid-vault/src/contract.rs:1963-2066 | pages run to the end settle their orders: off vault and pair, all that was held comes back, cancelled ones on file |
| LimitOutcomes.ReconcileAnswers | limit-grid-system/contracts/grid-vault/src/contract.rs:580-742 | exactly when a reconcile commits; with its claims every record of the batch is what the pair holds, nothing owned changes, and the collector's fee is fair |
| LimitOutcomes.ScanReviews | limit-grid-system/contracts/grid-vault/src/contract.rs:598-692 | the loop over requested ids accepts exactly distinct tracked ones and leaves the records a comparison with the pair gives |
| LimitOutcomes.ChargeAnswers | limit-grid-system/contracts/grid-vault/src/contract.rs:1871-1950 | the fee computes exactly when the token-1 holdings convert, and mints the most shares claiming no more, all the collector's |
| LimitOutcomes.FirstTrackedAreLeast | limit-grid-system/contracts/grid-vault/src/contract.rs:854-858 | a batch is the least tracked ids, as many as one call takes |
| LimitOutcomes.CancellationAnswers | limit-grid-system/contracts/grid-vault/src/contract.rs:842-895 | the owner's cancellation settles the first batch exactly when each order in it rests untouched |
| LimitOutcomes.EmergencyCancellationAnswers | limit-grid-system/contracts/grid-vault/src/contract.rs:1123-1219 | in exit mode it settles the first batch exactly when no order in it was executed |
| LimitOutcomes.RecoveryAnswers | limit-grid-system/contracts/grid-vault/src/contract.rs:744-838 | exactly when an order is recovered; it is on record with what the pair holds, or settled at once when parked |
| LimitOutcomes.SolvencyAnswers | limit-grid-system/contracts/grid-vault/src/contract.rs:2117-2211 | expected is free plus recorded, actual is really held plus held by the pair, each order counted once where the pair has it |
| LimitOutcomes.PagesAreRuns | limit-grid-system/contracts/grid-vault/src/contract.rs:1974-2005 | page i holds the entries from i times the limit on: none empty or over the limit, none lost, twice or out of order |
| Keeper.Operator.FreezeBatch | grid-operator-system/services/grid-operator/grid_operator/keeper.py:77-116 | reuse, idle, uniqueness failure with rollback, or the frozen batch, by its loop over chosen orders |
| Keeper.Operator.ProcessBatch | grid-operator-system/services/grid-operator/grid_operator/keeper.py:132-216 | result and run of the keeper machine are those the signer, network and clock determine, with a crash after any commit or call |
| Keeper.Operator.SendSigned | grid-operator-system/services/grid-operator/grid_operator/keeper.py:163-216 | from the committed signature on: mark and send, then what the answer leads to |
| Keeper.Operator.Poll | grid-operator-system/services/grid-operator/grid_operator/keeper.py:218-267 | the polling loop looks until the first look that settles and ends as that look says |
| Keeper.Operator.RecordAnswer | grid-operator-system/services/grid-operator/grid_operator/keeper.py:180-216 | the answer is stored: unknown, a recorded check failure, or polled |
| Keeper.Operator.HandleLook | grid-operator-system/services/grid-operator/grid_operator/keeper.py:230-262 | one turn of the loop: confirm, fail, time out or sleep |
| Keeper.Operator.RecordFailure | grid-operator-system/services/grid-operator/grid_operator/keeper.py:57-75 | failure count, backoff and intervention |
| Keeper.Operator.Confirm | grid-operator-system/services/grid-operator/grid_operator/keeper.py:269-295 | marks events, settles attempt and batch, rebuilds aggregates |
| Keeper.Operator.RebuildAggregates | grid-operator-system/services/grid-operator/grid_operator/db.py:161-179 | the dictionary loop computes the totals of unmarked rows |
| Keeper.Operator.ScanBlock | grid-operator-system/services/grid-operator/grid_operator/indexer.py:109-136 | a block's new rows, repeats ignored, the cursor and the aggregates in one transaction |
| Keeper.Operator.ClearIntervention | grid-operator-system/services/grid-operator/grid_operator/cli.py:100-136 | only an intervention whose recorded failure is named and not contradicted by the chain is cleared |
| KeeperTables.Select | grid-operator-system/services/grid-operator/grid_operator/keeper.py:83-91 | at most the limit of distinct candidate orders, empty only when there is none |
| KeeperTables.OrderEvents | grid-operator-system/services/grid-operator/grid_operator/keeper.py:97-101 | exactly the order's unmarked events, in id order |
| KeeperCalls.PollEndsAtFirstSettled | grid-operator-system/services/grid-operator/grid_operator/keeper.py:218-267 | polling ends as the first settling look says, after one look per turn, and dies exactly when none settles |
| KeeperCalls.CallDiesIff | grid-operator-system/services/grid-operator/grid_operator/keeper.py:132-216 | exactly when a call is cut short, given the answers and how far the process gets |
| KeeperSafety.BackoffHoldsOff | grid-operator-system/services/grid-operator/grid_operator/keeper.py:61-73 | 60 seconds after the first failure, 120 after the second, nothing happens before and it signs anew after; the third stops it |
| KeeperSafety.RunKeepsInv | grid-operator-system/services/grid-operator/grid_operator/keeper.py:132-216 | batch states stay tied to their latest attempts over every run with crashes |
| KeeperSafety.BroadcastIsSafe | grid-operator-system/services/grid-operator/grid_operator/keeper.py:167-179 | an attempt goes out once, durably marked, and only when every other one was refused or never sent |
| KeeperSafety.UnknownIsNeverRebroadcast | grid-operator-system/services/grid-operator/grid_operator/keeper.py:144-155 | once unknown, a batch stays unknown and nothing more is sent for it |
| KeeperSafety.BroadcastsAreBounded | grid-operator-system/services/grid-operator/grid_operator/keeper.py:57-75 | a batch is broadcast at most three times per clearing |
| KeeperEvents.SelectTakesForemost | grid-operator-system/services/grid-operator/grid_operator/keeper.py:86-91 | the chosen orders come in order and none left out comes strictly before one taken |
| KeeperEvents.FreshItemsAreAggregates | grid-operator-system/services/grid-operator/grid_operator/keeper.py:92-115 | a fresh batch's items are the aggregate rows of its orders |
| KeeperEvents.SnapshotFacts | grid-operator-system/services/grid-operator/grid_operator/keeper.py:92-106 | the snapshot holds exactly the chosen orders' unmarked events and their greatest height |
| KeeperEvents.TotalsSumUp | grid-operator-system/services/grid-operator/grid_operator/db.py:161-179 | per order: sums, count, first and last height of its unmarked rows; no row without any |
| KeeperEvents.AggregatesAlwaysSumUp | grid-operator-system/services/grid-operator/grid_operator/db.py:161-179 | the stored aggregates are those sums after every commit, with least and greatest height |
| KeeperEvents.FillsAreRecordedOnce | grid-operator-system/services/grid-operator/grid_operator/db.py:27-35 | no two rows share transaction, event index and order, over every run |
| KeeperWitness.LateConfirmationClashes | grid-operator-system/services/grid-operator/grid_operator/keeper.py:279-287 | a run from fresh tables in which a confirmation below the through height ends in the uniqueness failure |
| KeeperEvents.OneBatchAtATime | grid-operator-system/services/grid-operator/grid_operator/keeper.py:77-85 | at most one unconfirmed batch per vault, no event in two batches |
| KeeperEvents.MarksAreFinal | grid-operator-system/services/grid-operator/grid_operator/keeper.py:279-287 | an event is marked by at most one batch and never unmarked |
| KeeperEvents.ConfirmationMarksAllIff | grid-operator-system/services/grid-operator/grid_operator/keeper.py:279-287 | a confirmation marks all its batch froze exactly when included at or above its through height |
| KeeperEvents.RunKeepsAccounts | grid-operator-system/services/grid-operator/grid_operator/keeper.py:77-295 | the accounting invariant over every run |
| KeeperEvents.FreezeNeverClashes | grid-operator-system/services/grid-operator/grid_operator/keeper.py:113-115 | with such confirmations the uniqueness of batch_events is never violated |
| KeeperEvents.IdleIffNothingUnmarked | grid-operator-system/services/grid-operator/grid_operator/keeper.py:86-93 | a settled vault is idle exactly when it has no unmarked event |
| KeeperEvents.LeftoverBlocksFreezing | grid-operator-system/services/grid-operator/grid_operator/keeper.py:96-115 | an unmarked frozen event makes freezing fail once its order is chosen again |
| KeeperEffects.ConfirmationMarksExactly | grid-operator-system/services/grid-operator/grid_operator/keeper.py:276-287 | a confirmation marks exactly the unmarked events of the batch's vault and orders up to the inclusion height, whenever indexed |
| KeeperEffects.ConfirmationLeavesLater | grid-operator-system/services/grid-operator/grid_operator/keeper.py:276-295 | so those orders have no unmarked event left up to that height, and their aggregates add up only what is above it |
| KeeperEffects.ChosenAreOldest | grid-operator-system/services/grid-operator/grid_operator/keeper.py:83-91 | orders are taken up by least first pending height, then pair and order; none left out is older than one taken |
| KeeperEffects.FreezeAnswers | grid-operator-system/services/grid-operator/grid_operator/keeper.py:77-116 | exactly when a batch is added, and all its fields; nothing else is written |
| KeeperEffects.FreezeReports | grid-operator-system/services/grid-operator/grid_operator/keeper.py:77-116 | the caller gets the unconfirmed batch there is, the new one, or none when nothing is pending |
| KeeperEffects.BlockAnswers | grid-operator-system/services/grid-operator/grid_operator/indexer.py:109-136 | a block above the cursor adds one row for each fill that has none, moves the cursor and counts the rows; any other changes nothing |
| KeeperEffects.BeginDecides | grid-operator-system/services/grid-operator/grid_operator/keeper.py:132-166 | what taking up a batch does, by its state |
| KeeperEffects.AnswerDecides | grid-operator-system/services/grid-operator/grid_operator/keeper.py:180-216 | the answer's code and hash decide between polling, refusal and unknown |
| KeeperEffects.RefusalDecides | grid-operator-system/services/grid-operator/grid_operator/keeper.py:213-216 | a refused answer is one more failure of the batch |
| KeeperEffects.LookDecides | grid-operator-system/services/grid-operator/grid_operator/keeper.py:230-267 | confirmed exactly by a deep transaction that did its work, refused by one that did not, under the reason's name; else it waits until time is up |
| KeeperEffects.ClearingAnswers | grid-operator-system/services/grid-operator/grid_operator/cli.py:100-136 | exactly when an intervention ends, and the batch then starts afresh |
| ParityPlan.PlannedOfferIsAimed | rebalancer-system/contracts/bot-vault/src/contract.rs:889-916 | the offer always converts, fits the cap, never crosses parity ideally, and is the largest such |
| ParityPlan.IdealFillNeverWorsens | rebalancer-system/contracts/bot-vault/src/contract.rs:877-916 | an ideal fill never raises the allocation deviation |
| BotRuns.BackingNeverFalls | rebalancer-system/contracts/bot-liquidity/src/contract.rs:160-593 | over runs of deposits, both withdrawals, LP moves and donations no token's balance per share falls |
| BotRuns.SupplyStaysPositive | rebalancer-system/contracts/bot-liquidity/src/contract.rs:466-480 | the locked first shares keep the supply positive for ever |
| BotRuns.StepKeepsInv | rebalancer-system/contracts/bot-liquidity/src/contract.rs:106-136 | no operation or rebalance stays pending, supply is the sum of balances, the lock is untouched |
| BotRuns.ProRataSucceedsIff | rebalancer-system/contracts/bot-liquidity/src/contract.rs:257-300 | exactly when a pro-rata withdrawal goes through, and what it leaves |
| BotRuns.SingleRefinesProRata | rebalancer-system/contracts/bot-liquidity/src/contract.rs:378-564 | a completed single-token withdrawal leaves the pro-rata books, a failed swap the old ones |
| BotRuns.DepositKeepsBacking | rebalancer-system/contracts/bot-liquidity/src/contract.rs:796-817 | an established deposit lowers neither token's backing |
| BotRuns.DepositRoundTrip | rebalancer-system/contracts/bot-liquidity/src/contract.rs:796-817 | redeeming the minted shares at once returns at most what the deposit added, token by token |
| BotRuns.TransfersLeave | rebalancer-system/contracts/bot-liquidity/src/contract.rs:566-593 | the authorized transfers leave exactly, and the operation with the last |
| BotRuns.RebalanceLossBounded | rebalancer-system/contracts/bot-vault/src/contract.rs:803-833 | over a whole rebalance: offered value times the execution deviation, hence the portfolio bound, plus two units of the token received |
| BotRuns.ProportionalSharesAreLargest | rebalancer-system/contracts/bot-liquidity/src/contract.rs:796-817 | an established deposit mints the most shares both added amounts back |
| BotRuns.FirstDepositSetsPar | rebalancer-system/contracts/bot-liquidity/src/contract.rs:466-490 | the first deposit leaves supply equal to post-deposit NAV and locks prior NAV plus 1000 shares |
| BotRuns.RebalancingTerminates | rebalancer-system/contracts/bot-vault/src/contract.rs:1085-1092 | at constant TWAP at most deviation + 1 rebalances commit in a row |
| BotCalls.ProRataAnswers | rebalancer-system/contracts/bot-liquidity/src/contract.rs:234-300 | exactly when a pro-rata withdrawal commits; the claims, the most the shares are worth, all go to the recipient |
| BotCalls.SingleAnswers | rebalancer-system/contracts/bot-liquidity/src/contract.rs:378-564 | exactly when a single-token withdrawal completes, minimum included, with one transfer of claim plus gain to the recipient; and what every other case leaves |
| BotCalls.DepositAnswers | rebalancer-system/contracts/bot-liquidity/src/contract.rs:160-497 | exactly when a deposit completes, tolerance and minimum shares included, and then the most shares both tokens back |
| BotCalls.DeviationIs | rebalancer-system/contracts/bot-vault/src/contract.rs:877-887 | the deviation is at least any given number of basis points exactly when the two sides' values are that far apart |
| BotCalls.RequiredIffDue | rebalancer-system/contracts/bot-vault/src/contract.rs:1085-1092 | a rebalance is required exactly when the price moved by the threshold or the sides are out of tolerance |
| BotCalls.OfferIsAimed | rebalancer-system/contracts/bot-vault/src/contract.rs:889-916 | the planned offer is the one amount within the cap that is the most not to cross parity; none exactly when there is no such |
| BotCalls.RebalanceAnswers | rebalancer-system/contracts/bot-vault/src/contract.rs:391-545 | exactly when a rebalance commits, and what it then sells, gains, records and charges; else nothing changes |
| BotCalls.RebalanceFeeIsLargest | rebalancer-system/contracts/bot-vault/src/contract.rs:500-545 | the fee is taken on what was bought, at the captured price against the settled holdings: the most shares claiming no more, all the collector's |
| BotCalls.RebalanceFeeIsFair | rebalancer-system/contracts/bot-vault/src/contract.rs:1242-1336 | so the collector's new shares claim at most the fee |
| BotCalls.SyncAnswers | rebalancer-system/contracts/bot-vault/src/contract.rs:461-483 | the keeper moves the reference without a trade exactly when the price moved enough and the vault is balanced |
| BotCalls.OwnSharesAnswers | rebalancer-system/contracts/bot-liquidity/src/contract.rs:595-677 | a holder moves or burns what it has; no other balance changes |
| BotCalls.AllowedMoveAnswers | rebalancer-system/contracts/bot-liquidity/src/contract.rs:595-677 | who was allowed it moves another's shares within allowance and balance, using the allowance up |
| BotCalls.AllowedBurnAnswers | rebalancer-system/contracts/bot-liquidity/src/contract.rs:595-677 | and burns them on the same terms |
| BotCalls.ApprovalAnswers | rebalancer-system/contracts/bot-liquidity/src/contract.rs:595-677 | a holder changes another's allowance, never below nothing |
| BotCalls.SharesShrinkByOwner | rebalancer-system/contracts/bot-liquidity/src/contract.rs:106-136 | whatever is sent, LP shares shrink only by their owner or by somebody it allowed as much |
| BotCalls.OperationBlocks | rebalancer-system/contracts/bot-liquidity/src/contract.rs:886-891 | while an operation is pending no other starts, no share moves, and the keeper neither rebalances nor moves the reference |
| BotCalls.VaultTradesAsPending | rebalancer-system/contracts/bot-vault/src/contract.rs:310-332 | the vault trades for a deposit or withdrawal exactly the pending swap |
| BotCalls.VaultPaysAsPending | rebalancer-system/contracts/bot-vault/src/contract.rs:334-376 | and sends exactly the pending transfers |
| BotContracts.BotLiquidity.Execute | rebalancer-system/contracts/bot-liquidity/src/contract.rs:106-136 | one transaction commits whole or changes neither contract, invariant kept |
| BotContracts.BotLiquidity.DepositTransaction | rebalancer-system/contracts/bot-liquidity/src/contract.rs:160-497 | start, swap or finalize, complete |
| BotContracts.BotLiquidity.WithdrawTransaction | rebalancer-system/contracts/bot-liquidity/src/contract.rs:234-300 | authorize, burn, transfer |
| BotContracts.BotLiquidity.SingleTransaction | rebalancer-system/contracts/bot-liquidity/src/contract.rs:378-564 | swap, then pay out or give up |
| BotContracts.BotLiquidity.RebalanceTransaction | rebalancer-system/contracts/bot-vault/src/contract.rs:391-545 | start, swap, reply |
| BotContracts.BotLiquidity.RunTransfers | rebalancer-system/contracts/bot-liquidity/src/contract.rs:284-299 | the queued transfers one after the other |

## Left out

- Limit grid: amounts are unbounded integers; where the contract aborts on a 128-bit overflow the model goes on,
  except for the reference-price conversions, whose error is modelled.
- Limit grid: `InvalidOrderOwner` and `InvalidOrder` are one error, as are the aborts of a missing storage key.
- GridVault.Contract.Execute: the refusals for too little gas credit, a changed pair code, and quarantined or
  disallowed tokens, and the keeper's reward, are left out; they only refuse more.
- LimitExit.EmergencyCancelBlockedIff: a changed pair code is a further refusal, left out with the pair-code check.
- LimitCalls.DepositAnswers: a changed pair code is a further refusal, left out.
- LimitCalls.AllocationAnswers: a changed pair code is a further refusal, left out.
- LimitOutcomes.ReconcileAnswers: a changed pair code and too little gas credit are further refusals, left out.
- LimitOutcomes.CancellationAnswers: a changed pair code is a further refusal, left out.
- LimitOutcomes.EmergencyCancellationAnswers: a changed pair code is a further refusal, left out.
- LimitOutcomes.RecoveryAnswers: a changed pair code is a further refusal, left out.
- LimitCalls.WithdrawalAnswers: states what leaves the vault; the recipient the caller may name is left out.
- LimitCalls.RedemptionAnswers: states what leaves the vault; the recipient the caller may name is left out.
- LimitCalls.EmergencyWithdrawalAnswers: states what leaves the vault; the recipient is left out.
- GridMarketCalls.WithdrawalAnswers: states what leaves the vault; the recipient the caller may name is left out.
- GridMarketCalls.RedemptionAnswers: states what leaves the vault; the recipient the caller may name is left out.
- Limit grid: creating bots, gas credit, keeper, admin and pair-code changes, allowed and quarantined tokens.
- Limit grid: order expiry times, placement hints and price adjustment by the pair; the pair's matching engine is
  replaced by arbitrary fills.
- Limit grid: several bots in one vault; balances are per contract, so the model keeps one, as the manager deploys.
- Limit grid: the `CancelledOrders` paging query; its `next_cursor` is the first unreturned id under an exclusive
  bound, so following it does not visit every order.
- Market grid: the configuration's proxy, pool and spread limits, which no modelled branch reads; whether an update
  of them is within bounds is a parameter.
- BotContracts.BotLiquidity.DepositTransaction: an expired deadline, or a swap deadline after it, is left out.
- BotContracts.BotLiquidity.WithdrawTransaction: an expired deadline is left out.
- BotContracts.BotLiquidity.SingleTransaction: deadlines are left out; the vault's own checks of swap parameters
  count as a failing swap.
- BotRuns.ProRataSucceedsIff: an expired deadline is a further refusal, left out.
- BotCalls.ProRataAnswers: an expired deadline is a further refusal, left out.
- BotCalls.SingleAnswers: an expired deadline is a further refusal, left out; the vault's checks of swap parameters
  count as a failing swap.
- BotCalls.DepositAnswers: an expired deadline is a further refusal, left out.
- Rebalancer: threshold and admin updates, revoking the liquidity contract, allowance expiry.
- All contracts: TWAP observation, pool simulation and depth, fee registry and its cache, code ids, migrations,
  instantiation, attributes, the factory, manager, proxy, collector and registry contracts.
- Keeper.Operator.ScanBlock: which events of a block are fills of known orders is decided outside; a block brings
  any list of fills.
- Keeper.Operator.ClearIntervention: the recorded failure is read from the latest attempt, which is written together
  with the error text the code reads it from.
- Keeper.Operator.Confirm: the `confirmed:` cursor row, which no program code reads, is left out.
- Keeper: the message built from a batch's items, signing and RPC internals, error texts, file locks, `keep_once`,
  database restore and backup, and the JSON trackers of the two other keepers.
- Keeper: pair addresses are numbers in the order their text sorts.
