# Verified models of a DeFi and bridge suite

A Dafny 4.11 project that models the core of a suite of Solidity contracts and non-EVM bridge programs, and proves
what they keep over whole runs. `dafny verify dfyconfig.toml` checks everything.

Most components have the same shape. A datatype is the contract's storage and a function `Apply` says what a committed
call does to it; `None` is a revert. Lemmas about `Apply` and `Run` state what holds after any sequence of calls,
reverted ones included. A class with the fields of the source carries the imperative code, and each of its methods is
proved to reach exactly the state `Apply` specifies, or to leave everything as it was.

| file | component |
|---|---|
| Foundations.dfy | options, integer quotients, sums over maps |
| AMMV2Pair.dfy, AMMV2Router.dfy | constant-product pairs with a Newton square root; quotes and multi-hop swaps over them |
| StableSwap.dfy, StableEffects.dfy, StableCover.dfy | the D and y solvers of the stable curve, the token ledger with its fees; what its operations pay; exactly which pools stay covered |
| AmplificationRamp.dfy | the moving coefficient of a stable pool |
| ConcentratedLiquidity.dfy | ticks and positions of the concentrated-liquidity pool |
| YieldVault.dfy, VaultEffects.dfy | shares, debt and strategies of the lending vault; what its calls do for users and strategies |
| DailyLimiter.dfy, NonceBitmap.dfy, BridgeMessages.dfy | the mint limiter, the replay bitmaps, the signed byte strings |
| BridgeProtocol.dfy | the Solana program on two chains that exchange signed messages |
| OmnichainRouter.dfy, XChainVault.dfy | the EVM bridge router with its batches; the vault released by threshold signatures |
| Governance.dfy, CouncilTimeline.dfy | a charter's votes and a council's proposals as one timed state machine; the life of one proposal |
| Futures.dfy, FuturesEffects.dfy | a futures book with its trader array; what its calls cost and pay |
| ForexForward.dfy | collateralised currency forwards |

## What the code turned out to do

- `StableSwap._exchange` adds the admin's share of a fee to `balances` as well as to `adminBalances`. Because the rest
  of the fee stays out of both records, holdings still cover them as long as the share is at most half; the
  constructor accepts up to all of it (`StableCover.FullAdminFeeBreaksSolvency` is an exchange that breaks cover).
  A token with more than 18 decimals loses amounts below one recorded unit. Cover is kept exactly without either
  (`StableCover.CoverKeptIff`).
- The y solver converges in every pool above dust: after a step of two or more the next one is at most half as long
  (`StableCurve.StepHalves`, `StableCurve.SolverAnswersIff`).
- In `Vault.liquidate` the test and the cap on the reward are the same comparison, and by
  `VaultModel.NeverLiquidatable` the test is never met in a run with exact adapters.
- `Vault.removeStrategy` leaves `deposited` behind in the removed record, and `addStrategy` takes an adapter it has
  seen before. Removing such a record again draws its amount a second time, out of what the adapter holds for another
  record: recorded assets rise above what is there, early leavers are paid too much and the last cannot leave
  (`VaultModel.SecondRemovalStrandsFunds`). Nothing else makes the vault unable to pay
  (`VaultModel.AssetsPayableIffNoSecondRemoval`).
- `AMMV3Pool.mint` and `burn` cast a 128-bit amount to a signed word unchecked; the tick ledger is right if and only
  if amounts stay below 2^127 (`TickLedger.StepBalancedIff`; `TickLedger.HugeMintUnbalances` is a first mint beyond).
- `liquidityGross` grows on burns as well as on mints, so a tick wears out: a mint and burn of almost 2^127 and a mint
  of one leave that one unit in the pool for good (`TickLedger.WornTickStrandsLiquidity`; `TickLedger.BurnCommitsIff`
  says when a burn goes through).
- A paused `OmnichainRouter` reverts an empty batch; no calls at all would succeed
  (`OmnichainModel.BatchRefinesSingles` states the exact condition).
- `Council.activeProposalCount` is lowered only by the last execution of a non-empty proposal, so failed, expired and
  empty ones hold their slot for good (`CouncilModel.ActiveCountsLiveIffNoneStuck`,
  `CouncilModel.SlotsAreNeverGivenBack`); `CouncilModel.IgnoredProposalLocks` is a run that locks a council. The test
  of the counter for being above zero never fails.
- `ForexForward` lets the fee rate exceed 100%, and a settlement whose fee exceeds its gain reverts
  (`ForwardModel.SettlesIff`, `ForwardModel.FeeFitsIff`; `ForwardModel.FeeAboveAllBlocks` is such a run).
- `Futures.closePosition` counts gains from the entry price, also after daily settlement has credited them, so they are
  paid twice (`FuturesModel.ClosePaysSettledGainAgain`), and the tokens can run short: `FuturesModel.SettledGainBlocksClose`
  shows a close that reverts, `FuturesModel.OpenCanCloseIff` when one goes through.
- `XChainVault` keeps used burn nonces per vault and not per source chain, so a burn on one chain uses up the same number
  of every other (`CrossChainVault.NonceServesOneChain`).
- The XRPL hook truncates the source to 32 bits and the nonce to 40, so pairs beyond are taken for others
  (`HookNonces.AliasedOutOfRange`).

## Model

| member | source | states |
|---|---|---|
| PairModel.Sqrt | contracts/amm/AMMV2Pair.sol:152-163 | the Newton loop returns the exact floor of the square root, the same as the reference definition by counting |
| PairModel.NewtonStepAboveRoot | contracts/amm/AMMV2Pair.sol:152-163 | one floored Newton step from any positive start never falls below the root |
| PairModel.FloorSqrtUnique | contracts/amm/AMMV2Pair.sol:152-163 | the floor root is the only number that brackets, which ties the loop to the reference definition |
| PairModel.MintKeeps | contracts/amm/AMMV2Pair.sol:56-75 | a committed mint keeps reserve0*reserve1 >= supply^2, and no existing share loses value; the first mint locks 1000 |
| PairModel.MintGivesAllItCan | contracts/amm/AMMV2Pair.sol:60-69 | a later mint hands out the most shares that both of its sides pay for, to the payee, and makes the balances the reserves |
| PairModel.FirstMintGives | contracts/amm/AMMV2Pair.sol:56-75 | the first mint makes the exact floor root of the product paid in, all but 1000 of it for the payee |
| PairModel.BurnPaysAllItCan | contracts/amm/AMMV2Pair.sol:77-97 | a committed burn pays the most of each balance that the liquidity the pair holds is worth, and takes exactly that liquidity out of the supply |
| PairModel.BurnCommitsIff | contracts/amm/AMMV2Pair.sol:77-97 | in a sound pool a burn commits exactly when both payments are at least one unit and what is left fits 112 bits |
| PairModel.BurnKeeps | contracts/amm/AMMV2Pair.sol:77-97 | a committed burn never leaves the remaining shares with less of reserve0*reserve1 per squared share, and never empties the supply |
| PairModel.SwapKeeps | contracts/amm/AMMV2Pair.sol:99-128 | the fee-adjusted check implies that reserve0*reserve1 does not fall, whoever is paid |
| PairModel.StepKeeps | contracts/amm/AMMV2Pair.sol:56-150 | no committed call, including skim, sync and plain transfers in, lowers the value behind a share |
| PairModel.RunKeeps | contracts/amm/AMMV2Pair.sol:56-150 | over any run: the pool invariant holds and shares only gain value |
| PairModel.ReachableReservesCoverSupply | contracts/amm/AMMV2Pair.sol:56-163 | in every reachable state reserve0*reserve1 >= supply^2, and once there is liquidity neither reserve is ever zero again |
| PairContract.AMMV2Pair.LiquidityFor | contracts/amm/AMMV2Pair.sol:60-69 | both branches price a deposit as specified, reverts included |
| PairContract.AMMV2Pair.Mint | contracts/amm/AMMV2Pair.sol:56-75 | whole new state, the liquidity handed out, and the pool invariant |
| PairContract.AMMV2Pair.Burn | contracts/amm/AMMV2Pair.sol:77-97 | whole new state; both amounts are the most the own liquidity is worth, the supply falls by it, and the pool stays sound |
| PairContract.AMMV2Pair.Swap | contracts/amm/AMMV2Pair.sol:99-128 | whole new state or full revert, a payment to one of the two tokens refused, and the product of the reserves never falls |
| PairContract.AMMV2Pair.Skim | contracts/amm/AMMV2Pair.sol:130-135 | surplus leaves, reserves stay |
| PairContract.AMMV2Pair.Sync | contracts/amm/AMMV2Pair.sol:137-150 | reserves become balances unless they overflow 112 bits |
| RouterQuotes.AmountOutIsLargest | contracts/amm/AMMV2Router.sol:192-203 | an output satisfies the fee-adjusted product rule if and only if it is at most `getAmountOut` |
| RouterQuotes.AmountInWithinOneOfLeast | contracts/amm/AMMV2Router.sol:205-215 | `getAmountIn` suffices, and exceeds the least sufficient input by one exactly when the division is exact, otherwise not at all |
| RouterQuotes.QuoteRoundTrip | contracts/amm/AMMV2Router.sol:192-215 | paying what was asked for an output buys at least that output |
| RouterPaths.PathRoundTrip | contracts/amm/AMMV2Router.sol:217-235 | over a whole path, feeding the input from `getAmountsIn` to `getAmountsOut` gives at least the wanted amount at every pool |
| RouterPaths.PairAcceptsQuote | contracts/amm/AMMV2Pair.sol:99-128 | a paid hop whose output the product rule allows passes every check of the pair |
| RouterPaths.QuoteIsPairLimit | contracts/amm/AMMV2Router.sol:192-203 | on a synced pool paid exactly the input, the pair lets an output out if and only if it is at most the quote of the router |
| RouterPaths.PathExecutes | contracts/amm/AMMV2Router.sol:269-279 | on a ready path every swap commits, the recipient gets exactly the last amount, each pool ends as quoted and others are untouched |
| RouterPaths.ForwardAffordable | contracts/amm/AMMV2Router.sol:217-225 | the amounts of `getAmountsOut` are affordable at every hop |
| RouterPaths.BackwardAffordable | contracts/amm/AMMV2Router.sol:227-235 | the amounts of `getAmountsIn` are affordable at every hop |
| RouterPaths.PaidPathReady | contracts/amm/AMMV2Router.sol:127-151 | paying the first pool makes a path of distinct pools ready |
| RouterPaths.HopKeepsReady | contracts/amm/AMMV2Router.sol:269-279 | one hop leaves the rest of the path ready, its next pool paid |
| RouterPaths.HopsKeepSound | contracts/amm/AMMV2Router.sol:269-279 | whatever the hops, committed ones keep every pair sound |
| RouterPaths.HopsDeliver | contracts/amm/AMMV2Router.sol:269-279 | whatever the hops, committed ones send the recipient exactly the last amount |
| RouterPaths.CarriedPathRuns | contracts/amm/AMMV2Router.sol:127-151 | paying the first pool of an affordable path that its pools can carry runs every hop and leaves each pool as quoted |
| RouterPaths.QuotedMeans | contracts/amm/AMMV2Router.sol:269-279 | as quoted: the pool took in its amount of one token, gave out the next of the other, and remembers both balances |
| RouterContract.AMMV2Router.GetAmountsOut | contracts/amm/AMMV2Router.sol:217-225 | returns the chain of output quotes, and fails exactly when no such chain exists |
| RouterContract.AMMV2Router.GetAmountsIn | contracts/amm/AMMV2Router.sol:227-235 | returns the chain of input quotes, and fails exactly when no such chain exists |
| RouterContract.AMMV2Router.SwapHop | contracts/amm/AMMV2Router.sol:269-279 | one hop of the loop, transfer included, or a revert |
| RouterContract.AMMV2Router.SwapAlong | contracts/amm/AMMV2Router.sol:269-279 | the loop runs the hops in order or reverts as a whole, and keeps every pair sound |
| RouterContract.AMMV2Router.PayAndSwap | contracts/amm/AMMV2Router.sol:136-137 | commits exactly when, after the first pool took in the first amount, the hops run; then that is the new state, the recipient has the last amount, and a path the pools can carry ends as quoted at every pool |
| RouterContract.AMMV2Router.SwapExactTokensForTokens | contracts/amm/AMMV2Router.sol:127-138 | with quotes that meet the minimum and pools that can carry them the call cannot fail; whenever it commits the first pool was paid, the hops ran, and the last quote was received; carried paths end as quoted at every pool |
| RouterContract.AMMV2Router.SwapTokensForExactTokens | contracts/amm/AMMV2Router.sol:140-151 | the same for an exact output, for at most the maximum input |
| StableCurve.GetY | contracts/amm/StableSwap.sol:631-669 | the whole of `_getY`, D solver included: the coefficient loop and Newton loop compute the specified answer, and any answer solves the curve |
| StableCurve.GetD | contracts/amm/StableSwap.sol:596-629 | the whole of `_getD`; an empty pool gives 0, and any other answer solves the equation of D: some z within a unit of it leaves less than two divisors over |
| StableCurve.ExitTestSufficesForD | contracts/amm/StableSwap.sol:611-625 | one floored Newton step that moves at most one unit starts at a z where z times the rest of the equation lies between the step and the next, in divisors |
| StableCurve.AnswersSolveD | contracts/amm/StableSwap.sol:596-629 | whenever `_getD` answers for a non-empty pool its answer solves the equation of D, whatever steps led to it |
| StableCurve.RootIsNear | contracts/amm/StableSwap.sol:611-625 | that equation has one root, and such a z is no further from it than two divisors over (Ann - 1) z |
| StableCurve.ProductBrackets | contracts/amm/StableSwap.sol:612-615 | the floored product chain is at most the exact D^(n+1) over the n x + 1, and short of it by no more than its floors lose |
| StableCurve.StepHalves | contracts/amm/StableSwap.sol:655-669 | after a floored Newton step of two or more the next one is at most half as long |
| StableCurve.Converges | contracts/amm/StableSwap.sol:655-669 | so from any point of positive slope the loop answers within one step more than the bits of its first move |
| StableCurve.SolverAnswersIff | contracts/amm/StableSwap.sol:631-669 | for numerators of up to 254 bits in a pool above dust, 255 iterations always suffice: the solver answers if and only if no coefficient divides by zero |
| StableCurve.ExitTestSuffices | contracts/amm/StableSwap.sol:655-669 | one floored Newton step that moves at most one unit lands on y with f(y) <= 1 and f(t) > 0 for all t > y, whether or not the loop was converging |
| StableCurve.AnswersSolveCurve | contracts/amm/StableSwap.sol:631-669 | whenever `_getY` returns y, f(y) <= 1 and f is positive everywhere past y, so the y+1 units left by an exchange are above the root |
| StableCurve.FRises | contracts/amm/StableSwap.sol:655-669 | past a point of positive slope and value the curve polynomial stays positive |
| StableEffects.CoefficientsAre | contracts/amm/StableSwap.sol:636-653 | b is the other balances and the floored D / Ann; c is D^(m+1) over Ann n and n times each of the m other balances, short of it by no more than the floors lose |
| StableLedger.StepSolvent | contracts/amm/StableSwap.sol:261-492 | every operation keeps held tokens (at 18 decimals) >= balances + adminBalances for every token, whatever the solvers returned |
| StableLedger.RunSolvent | contracts/amm/StableSwap.sol:261-561 | the same over every run in which the admin fee stays at most half |
| StableLedger.ExitsAlwaysPaid | contracts/amm/StableSwap.sol:374-399 | in every such run a proportional withdrawal within the supply and a fee collection always go through |
| StableLedger.ExchangeSolventIffHalf | contracts/amm/StableSwap.sol:672-685 | exchanges preserve cover for all states if and only if the admin fee is at most half |
| StableCover.CoverKeptIff | contracts/amm/StableSwap.sol:261-492 | every operation with the numbers its solvers return keeps every pool of a configuration covered if and only if no token has more than 18 decimals and the admin part of the fees is at most half |
| StableCover.WhaleExchangeBreaks | contracts/amm/StableSwap.sol:672-685 | for every admin part above a half, an exchange that the solver answers leaves some pool with records above holdings |
| StableCover.DustWithdrawalBreaks | contracts/amm/StableSwap.sol:440-492 | for every configuration with a token of more than 18 decimals, an exact withdrawal of one unit of it, with the numbers of its three solver calls, leaves records above holdings |
| StableCover.FullAdminFeeBreaksSolvency | contracts/amm/StableSwap.sol:672-685 | at balances 1001 and 1001 the solver answers 66 for an input of 1000; with the largest admin fee the records end at 158 and the holdings at 113 |
| StableCover.EvenPoolD | contracts/amm/StableSwap.sol:596-629 | in a balanced pool D is the sum of the balances |
| StableCover.DoubledAnswer | contracts/amm/StableSwap.sol:631-669 | in a balanced pool of any size the solver answers an exchange that doubles one side with at most half of the other |
| StableLedger.BoughtCovered | contracts/amm/StableSwap.sol:672-685 | the bought side stays covered although the admin share is credited twice, because twice half a fee is at most the fee |
| StableLedger.AddedCovered | contracts/amm/StableSwap.sol:301-365 | a deposit with its imbalance fee keeps a token covered |
| StableLedger.RedeemedCovered | contracts/amm/StableSwap.sol:374-399 | a proportional withdrawal is always payable and keeps a token covered |
| StableLedger.TakenOneCovered | contracts/amm/StableSwap.sol:409-431 | a one-coin withdrawal keeps its token covered |
| StableLedger.TakenExactCovered | contracts/amm/StableSwap.sol:440-492 | an exact withdrawal with its imbalance fee keeps a token covered |
| StableLedger.CollectedCovered | contracts/amm/StableSwap.sol:548-561 | collecting admin fees is always payable and keeps a token covered |
| StableLedger.DenormalizeFloors | contracts/amm/StableSwap.sol:761-778 | converting down to token units and back never exceeds the amount, up to 18 decimals |
| StableEffects.DenormalizeIsLargest | contracts/amm/StableSwap.sol:761-778 | token units are the most that a recorded amount covers |
| StableEffects.ExchangeMoves | contracts/amm/StableSwap.sol:672-685 | an exchange takes dx in, records y and the admin share, and pays the rest of the balance less one unit and less the floored fee |
| StableEffects.RedemptionPays | contracts/amm/StableSwap.sol:374-399 | a proportional withdrawal takes from every balance the most that its part of the supply is worth, and pays that |
| StableEffects.RedemptionKeepsShares | contracts/amm/StableSwap.sol:374-399 | so no balance per share falls |
| StableEffects.DepositMoves | contracts/amm/StableSwap.sol:301-365 | a deposit adds exactly its units, less a floored fee on the distance from the ideal balance after the first one |
| StableEffects.ExactWithdrawalMoves | contracts/amm/StableSwap.sol:440-492 | an exact withdrawal pays exactly its units and charges the same fee |
| StableEffects.DepositKeepsSharesWorth | contracts/amm/StableSwap.sol:301-365 | a deposit mints the most shares that keep D per share from falling, D taken after its fees |
| StableEffects.FirstDepositMintsD | contracts/amm/StableSwap.sol:301-365 | the first deposit mints exactly D |
| StableEffects.ExactWithdrawalKeepsSharesWorth | contracts/amm/StableSwap.sol:440-492 | an exact withdrawal burns more than D per share asks for, by at most one share |
| StableEffects.OneCoinMeans | contracts/amm/StableSwap.sol:731-758 | D falls by the floored part the shares are of it; the amount is what the reduced balance has over the answer at the lower D less one, the fee what it falls short of the unreduced one |
| StableEffects.DepositIdealsAre | contracts/amm/StableSwap.sol:334-343 | the ideal balances of a later deposit are the old ones scaled to D of the filled ones, which must have grown |
| StableEffects.WithdrawalIdealsAre | contracts/amm/StableSwap.sol:455-476 | those of an exact withdrawal are scaled to D of what it leaves before fees |
| StableEffects.KillingStopsNoExit | contracts/amm/StableSwap.sol:374-492 | and lets every withdrawal and collection through as before |
| StableContract.StableSwap.Exchange | contracts/amm/StableSwap.sol:261-288 | whole new state of `exchange` and `_exchange` with the answer of the solver, or full revert; a safely configured pool stays solvent |
| StableContract.StableSwap.AddLiquidity | contracts/amm/StableSwap.sol:301-365 | three D solver calls, the ideal balances and the shares minted as the code computes them, or full revert; a safely configured pool stays solvent |
| StableContract.StableSwap.RemoveLiquidity | contracts/amm/StableSwap.sol:374-399 | the per-token loop gives the specified state |
| StableContract.StableSwap.RemoveLiquidityOneCoin | contracts/amm/StableSwap.sol:409-431 | the D and y solver calls of the one-coin formula and the state they lead to, or full revert; a safely configured pool stays solvent |
| StableContract.StableSwap.CalcOneCoin | contracts/amm/StableSwap.sol:731-758 | the loop over the reduced balances and the two answers past it give the amount and its fee, or fail |
| StableContract.StableSwap.RemoveLiquidityImbalance | contracts/amm/StableSwap.sol:440-492 | three D solver calls, the fees and the shares burned as the code computes them, or full revert; a safely configured pool stays solvent |
| StableContract.StableSwap.CollectAdminFees | contracts/amm/StableSwap.sol:548-561 | the per-token loop gives the specified state |
| AmplificationRamp.NoJump | contracts/amm/StableSwap.sol:503-533 | starting or stopping a ramp leaves the coefficient the same at that instant |
| AmplificationRamp.CurrentMovesTowardsFuture | contracts/amm/StableSwap.sol:578-593 | the coefficient stays between its two ends and only moves towards the future one |
| AmplificationRamp.CurrentIsLinear | contracts/amm/StableSwap.sol:578-593 | between its ends the coefficient has moved by the most that the elapsed part of the time gives of the whole distance |
| AmplificationRamp.AlwaysLegal | contracts/amm/StableSwap.sol:503-593 | in every run it stays positive and at most its maximum |
| AmplificationRamp.AtMostTenfold | contracts/amm/StableSwap.sol:503-522 | a ramp changes it at most tenfold either way |
| AmplificationRamp.RampArrives | contracts/amm/StableSwap.sol:503-522 | a ramp starts exactly a day or more after the last call, to end a day or more later at a legal value within a factor of ten, and left alone arrives there at its time |
| AmplificationRamp.TenfoldPerRamp | contracts/amm/StableSwap.sol:503-533 | over a whole run: one factor of ten per ramp started, either way, and a day between ramps |
| AmplificationRamp.TenfoldPerDay | contracts/amm/StableSwap.sol:503-533 | so the whole days a run lasts bound how far the coefficient has moved: at most a factor of ten for each |
| AmplificationRamp.Amplification.StartRamp | contracts/amm/StableSwap.sol:503-522 | commits exactly under the guards of `rampA`, without a jump |
| AmplificationRamp.Amplification.StopRamp | contracts/amm/StableSwap.sol:525-533 | freezes the coefficient at its present value for all later times |
| VaultModel.RunKeeps | contracts/core/Vault.sol:121-282 | in every run shares and debt equal their sums over users, everyone keeps 150% cover, and `liquidate` reverts for everyone, however often adapters are shared between records |
| VaultModel.RunKeepsPrice | contracts/core/Vault.sol:121-391 | while shares are outstanding assets per share never fall |
| VaultModel.WithdrawalAlwaysPaid | contracts/core/Vault.sol:153-186 | in every run of a new vault in which no strategy is removed a second time, a user without debt can withdraw any part of their shares |
| VaultModel.AssetsPayableIffNoSecondRemoval | contracts/core/Vault.sol:291-324 | in every run of a new vault the recorded assets can all be paid out if and only if no committed `removeStrategy` hit a removed record that still carried an amount |
| VaultModel.LastHolderPaidIff | contracts/core/Vault.sol:153-186 | whoever holds all shares without debt can redeem them all if and only if there was no such second removal |
| VaultModel.SecondRemovalStrandsFunds | contracts/core/Vault.sol:291-324 | a run from deployment with one adapter listed twice: the second removal makes the vault count 300 where there are 200, one user leaves with 150 and the other cannot leave |
| VaultModel.RunShortfall | contracts/core/Vault.sol:291-324 | over a run adapters only become shorter of what active records say, and some does if and only if there is a second removal |
| VaultModel.ShortfallMoves | contracts/core/Vault.sol:121-391 | per call: nothing but a second removal makes an adapter short, and that by exactly what it draws |
| VaultModel.AllPayableIffCovered | contracts/core/Vault.sol:501-519 | all recorded assets can be pulled together if and only if no adapter is short |
| VaultModel.PullAllCovers | contracts/core/Vault.sol:501-519 | the withdrawal loop can take everything recorded from a strategy on if and only if the adapters hold it |
| VaultModel.NeverLiquidatable | contracts/core/Vault.sol:238-282 | no position ever meets the test in `liquidate` |
| VaultModel.StepKeeps | contracts/core/Vault.sol:121-391 | every call keeps the invariant and the price of a share |
| VaultModel.DepositKeeps | contracts/core/Vault.sol:121-148 | floored shares never dilute: invariant and price are kept |
| VaultModel.WithdrawKeeps | contracts/core/Vault.sol:153-186 | floored payouts never dilute, and the 150% test protects the position that withdraws |
| VaultModel.DebtKeeps | contracts/core/Vault.sol:194-230 | minting and burning debt keep every position at 150% |
| VaultModel.FundsKeep | contracts/core/Vault.sol:291-391 | strategy changes, harvests, rebalancing and fees keep everyone healthy and lower no recorded total |
| VaultModel.FairShares | contracts/core/Vault.sol:457-465 | a deposit buys the most shares it pays for at the price before, and shares are worth the most they cover |
| VaultEffects.DebtIsMintedLessBurned | contracts/core/Vault.sol:194-230 | in every run a user owes what they owed before and minted since, less what they burned |
| VaultEffects.CallMovesDebt | contracts/core/Vault.sol:121-391 | per call: a mint or burn moves the debt of its caller by exactly its amount, a burn down to nothing at most, and nothing else moves any debt |
| VaultEffects.MintCommitsIff | contracts/core/Vault.sol:194-212 | a mint commits if and only if three times the old and new debt is less than twice one more than the worth of the shares; then both debts grow by the amount and nothing else moves |
| VaultEffects.MintBindsWithdrawals | contracts/core/Vault.sol:153-212 | right after a mint every withdrawal that leaves less than 150% of old debt and minted amount reverts |
| VaultEffects.DepositBuys | contracts/core/Vault.sol:121-148 | a deposit less its floored fee buys the most shares it pays for at the price before, the first one a share per unit, and the funds take in all of the rest |
| VaultEffects.WithdrawPays | contracts/core/Vault.sol:153-186 | a withdrawal takes out the most that its part of the shares is worth |
| VaultEffects.DepositCommitsIff | contracts/core/Vault.sol:121-148 | a deposit commits if and only if it is of something and no shares are out without assets: deployment never lacks the tokens |
| VaultEffects.WithdrawCommitsIff | contracts/core/Vault.sol:153-186 | a withdrawal commits if and only if the user has the shares, the rest covers the debt by 150% and the funds can pay |
| VaultEffects.DeployGoesThrough | contracts/core/Vault.sol:484-499 | floored parts never ask for more than is deployed |
| VaultEffects.HarvestAdds | contracts/core/Vault.sol:335-364 | harvests add the gains of the active strategies less the floored performance fee |
| VaultEffects.DeploysProRata | contracts/core/Vault.sol:484-499 | a deployment reaches every active strategy by the most that its part of the allocation gives, and no other |
| VaultEffects.RebalanceIsProRata | contracts/core/Vault.sol:367-391 | after a rebalance every active strategy holds the most that its part of the allocation gives it of all assets |
| VaultModel.DeployConserves | contracts/core/Vault.sol:484-499 | deployment moves funds without changing the total |
| VaultModel.PullFinds | contracts/core/Vault.sol:501-519 | the withdrawal loop finds exactly what is needed whenever the adapters hold what their active records say |
| VaultModel.RebalanceConserves | contracts/core/Vault.sol:367-391 | rebalancing moves funds without changing the total |
| VaultModel.RemovalMoves | contracts/core/Vault.sol:312-324 | a first removal moves a deposit home; a second one raises the recorded assets and the shortfall of its adapter by the amount it draws again |
| VaultContract.YieldVault.TotalAssets | contracts/core/Vault.sol:467-474 | the loop sums idle and active deposits |
| VaultContract.YieldVault.TotalAllocation | contracts/core/Vault.sol:476-482 | the loop sums active allocations |
| VaultContract.YieldVault.DeployToStrategies | contracts/core/Vault.sol:484-499 | the loop deploys as specified or fails |
| VaultContract.YieldVault.WithdrawFromStrategies | contracts/core/Vault.sol:501-519 | the loop pulls as specified or fails |
| VaultContract.YieldVault.Deposit | contracts/core/Vault.sol:121-148 | commits exactly under the guards of the source and reaches exactly the specified state; a revert changes nothing |
| VaultContract.YieldVault.Withdraw | contracts/core/Vault.sol:153-186 | whole new state or full revert, and the amount paid |
| VaultContract.YieldVault.Mint | contracts/core/Vault.sol:194-212 | commits exactly under the guards of the source; then the debt of the caller and the total debt grow by exactly the amount; a revert changes nothing |
| VaultContract.YieldVault.Burn | contracts/core/Vault.sol:216-230 | commits exactly under the guards of the source; then both debts fall by exactly the amount, at most to nothing for the caller; a revert changes nothing |
| VaultContract.YieldVault.Liquidate | contracts/core/Vault.sol:238-282 | whole new state or full revert; under the invariant always a revert |
| VaultContract.YieldVault.AddStrategy | contracts/core/Vault.sol:291-308 | commits exactly under the guards of the source and reaches exactly the specified state; a revert changes nothing |
| VaultContract.YieldVault.RemoveStrategy | contracts/core/Vault.sol:312-324 | commits exactly under the guards of the source and reaches exactly the specified state; a revert changes nothing |
| VaultContract.YieldVault.HarvestAll | contracts/core/Vault.sol:353-364 | whole new state |
| VaultContract.YieldVault.Rebalance | contracts/core/Vault.sol:367-391 | the loop rebalances as specified or reverts as a whole |
| DailyLimit.DayGrantsAtMostTwice | programs/solana-bridge/programs/knt-bridge/src/state/token_config.rs:42-58 | with a fixed limit and time that never goes back, each period grants at most the limit and any stretch of 86400 seconds at most twice it |
| DailyLimit.TwiceIsReached | programs/solana-bridge/programs/knt-bridge/src/state/token_config.rs:42-58 | twice the limit is reached, so the bound is exact |
| DailyLimit.ServeKeeps | programs/solana-bridge/programs/knt-bridge/src/state/token_config.rs:42-58 | one request keeps both bounds |
| DailyLimit.DayCovered | programs/solana-bridge/programs/knt-bridge/src/state/token_config.rs:42-58 | a day around the latest grant reaches into at most two periods |
| DailyLimit.TokenConfig.CheckDailyLimit | programs/solana-bridge/programs/knt-bridge/src/state/token_config.rs:42-58 | accepts exactly within the limit of the period in force, and the state on either outcome |
| NonceTracking.MarkInserts | programs/solana-bridge/programs/knt-bridge/src/state/token_config.rs:76-94 | marking a nonce processes that nonce and no other |
| NonceTracking.RunRefinesSet | programs/solana-bridge/programs/knt-bridge/src/state/token_config.rs:76-94 | over any run the bitmap is a plain set, except that nonces from 8192 on are never processed |
| NonceTracking.NonceTracker.MarkProcessed | programs/solana-bridge/programs/knt-bridge/src/state/token_config.rs:85-94 | adds exactly the nonce to the set when it is below 8192; otherwise fails and changes nothing |
| NonceTracking.NonceTracker.IsProcessedNonce | programs/solana-bridge/programs/knt-bridge/src/state/token_config.rs:76-83 | membership in the set |
| Bits.SetBitSets | programs/solana-bridge/programs/knt-bridge/src/state/token_config.rs:85-94 | setting one bit of a byte changes that bit only |
| HookNonces.CollideIffSameBit | programs/xrpl-bridge/src/knt_bridge.c:208-223 | two deposits share key, byte and bit if and only if sources agree in 32 bits and nonces in 40 |
| HookNonces.RunMarks | programs/xrpl-bridge/src/knt_bridge.c:208-223 | over any run a deposit is seen exactly when it, or one colliding with it, was remembered |
| HookNonces.RefinesSetInRange | programs/xrpl-bridge/src/knt_bridge.c:208-223 | for sources below 2^32 and nonces below 2^40 the bitmaps are exactly a plain set of pairs |
| HookNonces.AliasedOutOfRange | programs/xrpl-bridge/src/knt_bridge.c:208-223 | every pair outside that range is already seen after another one was remembered |
| HookNonces.RememberMarks | programs/xrpl-bridge/src/knt_bridge.c:219-223 | remembering one deposit marks exactly those that collide with it |
| HookNonces.XrplHook.CheckNonce | programs/xrpl-bridge/src/knt_bridge.c:208-223 | rolls back exactly when the deposit was seen, otherwise remembers it |
| BridgeMessages.DecodeInverts | programs/cosmos-bridge/contracts/knt-bridge/src/contract.rs:459-475 | a decoder recovers chain, nonce, recipient and amount although the recipient has any length |
| BridgeMessages.BuildInverts | programs/cosmos-bridge/contracts/knt-bridge/src/contract.rs:459-475 | whatever decodes was built from exactly the decoded transfer |
| BridgeMessages.MessagesInjective | programs/cosmos-bridge/contracts/knt-bridge/src/contract.rs:459-475 | equal messages have equal fields |
| BridgeMessages.MintIsNeverRelease | programs/cosmos-bridge/contracts/knt-bridge/src/contract.rs:459-475 | no mint message equals a release message |
| BridgeMessages.NeverBoth | programs/cosmos-bridge/contracts/knt-bridge/src/contract.rs:459-475 | a byte string decodes under at most one of the two prefixes |
| BridgeMessages.ReadsBack | programs/cosmos-bridge/contracts/knt-bridge/src/contract.rs:459-475 | little-endian words read back |
| BridgeMessages.WritesBack | programs/cosmos-bridge/contracts/knt-bridge/src/contract.rs:459-475 | and every word of the width writes back |
| BridgeMessages.BuildMintMessage | programs/cosmos-bridge/contracts/knt-bridge/src/contract.rs:459-466 | the built message decodes to its arguments, and not as a release |
| BridgeMessages.BuildReleaseMessage | programs/cosmos-bridge/contracts/knt-bridge/src/contract.rs:468-475 | the built message decodes to its arguments, and not as a mint |
| BridgeMessages.BuildSolanaMessage | programs/solana-bridge/programs/knt-bridge/src/instructions/mint_bridged.rs:120-136 | the fixed-width Solana layout decodes to its arguments |
| BridgeModel.RunConserves | programs/solana-bridge/programs/knt-bridge/src/instructions/lock_and_bridge.rs:48-105 | in every interleaving on two chains with honest signers: vault = wrapped supply + locks not yet minted + burns not yet released + surplus (tokens sent straight to the vault, wrapped ones burned past the bridge) |
| BridgeModel.SignedReleasesArePaid | programs/solana-bridge/programs/knt-bridge/src/instructions/release.rs:60-112 | in every reachable state a signed release commits exactly when the program runs, the asset is native, its nonce is new and below 8192: it is never short of tokens |
| BridgeModel.SignedMintsAreMinted | programs/solana-bridge/programs/knt-bridge/src/instructions/mint_bridged.rs:59-115 | in every reachable state a signed mint commits exactly when the program runs, its nonce is new and below 8192 and the daily limit has room: the supply never overflows |
| BridgeModel.LockCrosses | programs/solana-bridge/programs/knt-bridge/src/instructions/lock_and_bridge.rs:48-105 | a lock for the other chain adds the amount less the fee to the vault and lets the signers attest exactly that for its recipient under the next nonce; the mint then commits under the conditions of any signed one and creates that amount |
| BridgeModel.BurnCrosses | programs/solana-bridge/programs/knt-bridge/src/instructions/burn_bridged.rs:44-79 | the way back: the attested release commits under the conditions of any signed one and pays the burned amount out of the vault |
| BridgeModel.NoReplay | programs/solana-bridge/programs/knt-bridge/src/instructions/mint_bridged.rs:59-115 | a signed message is honoured at most once in any continuation |
| BridgeModel.ProcessedForever | programs/solana-bridge/programs/knt-bridge/src/instructions/release.rs:60-112 | a processed nonce stays processed |
| BridgeModel.OutboundConserves | programs/solana-bridge/programs/knt-bridge/src/instructions/burn_bridged.rs:44-79 | a lock, burn or foreign event moves its amount between the books and what is pending |
| BridgeModel.InboundConserves | programs/solana-bridge/programs/knt-bridge/src/instructions/mint_bridged.rs:59-115 | a mint or release consumes the one event its nonce names |
| BridgeModel.PendingMark | programs/solana-bridge/programs/knt-bridge/src/state/token_config.rs:85-94 | marking a nonce takes exactly its event out of what is pending |
| BridgeModel.StepKeeps | programs/solana-bridge/programs/knt-bridge/src/instructions/lock_and_bridge.rs:48-105 | every step of either chain or of the signers keeps conservation and attestation |
| BridgeProgram.KntBridge.NextNonce | programs/solana-bridge/programs/knt-bridge/src/state/bridge_config.rs:59-63 | returns the old nonce and advances by one; the event sits at that position |
| BridgeProgram.KntBridge.LockAndBridge | programs/solana-bridge/programs/knt-bridge/src/instructions/lock_and_bridge.rs:48-105 | whole new state or no change; the vault grows by the amount less the fee, and the event carries destination, recipient and that amount; the sender must have it, with the fee only where it is charged |
| BridgeProgram.KntBridge.BurnBridged | programs/solana-bridge/programs/knt-bridge/src/instructions/burn_bridged.rs:44-79 | whole new state or no change; the supply falls by the amount, and the event carries destination, recipient and amount |
| BridgeProgram.KntBridge.MintBridged | programs/solana-bridge/programs/knt-bridge/src/instructions/mint_bridged.rs:59-115 | whole new state or no change, the limiter included |
| BridgeProgram.KntBridge.Release | programs/solana-bridge/programs/knt-bridge/src/instructions/release.rs:60-112 | whole new state or no change |
| OmnichainModel.BatchRefinesSingles | contracts/bridge/OmnichainRouter.sol:326-438 | a batch and the same deposits one by one agree in success and state exactly when the batch is non-empty or the router is not paused |
| OmnichainModel.RunBalances | contracts/bridge/OmnichainRouter.sol:326-464 | in every run, per token: totalMinted = processed deposits - burns = tokens in circulation, and no deposit counts twice |
| OmnichainModel.ExitGuaranteed | contracts/bridge/OmnichainRouter.sol:448-464 | in every run a holder can burn any part of their balance, paused or not: the counter never underflows |
| OmnichainModel.SplitCreatesAmount | contracts/bridge/OmnichainRouter.sol:361-382 | recipient part and both fee shares together create exactly the deposited amount |
| OmnichainModel.MintPays | contracts/bridge/OmnichainRouter.sol:361-382 | the recipient gets the amount less the floored fee, the stakeholders their floored share of the fee, the treasury the rest, nobody else anything |
| OmnichainModel.MintCommitsIff | contracts/bridge/OmnichainRouter.sol:326-386 | a mint commits if and only if the router is not paused, the token registered, the deposit new and positive, signed by the group for this chain, and within the limit |
| OmnichainModel.BurnTakes | contracts/bridge/OmnichainRouter.sol:448-464 | a burn takes exactly the amount from its sender and from nobody else |
| OmnichainModel.FeesStayCapped | contracts/bridge/OmnichainRouter.sol:361-382 | in every run the fee stays at most 1% and its share at most all of it |
| OmnichainModel.LimiterRefines | contracts/bridge/OmnichainRouter.sol:616-627 | per token the router limiter is the common limiter and touches no other token |
| OmnichainModel.DayProcessesAtMostTwice | contracts/bridge/OmnichainRouter.sol:326-438 | in every run whose mints come in order of time, while the limit of a token is fixed, its deposits processed within any 86400 seconds total at most twice the limit |
| OmnichainModel.MintBalances | contracts/bridge/OmnichainRouter.sol:326-386 | a committed mint keeps the books balanced |
| OmnichainModel.BatchBalances | contracts/bridge/OmnichainRouter.sol:403-438 | a committed batch keeps the books balanced |
| OmnichainModel.RecordBalances | contracts/bridge/OmnichainRouter.sol:326-464 | every call keeps the books balanced |
| OmnichainContract.OmnichainRouter.MintDeposit | contracts/bridge/OmnichainRouter.sol:326-386 | commits exactly under the guards of the source and reaches exactly the specified state; a revert changes nothing |
| OmnichainContract.OmnichainRouter.BatchMintDeposit | contracts/bridge/OmnichainRouter.sol:403-438 | the loop gives the specified state or reverts as a whole; non-empty batches equal successive single mints |
| OmnichainContract.OmnichainRouter.BurnForWithdrawal | contracts/bridge/OmnichainRouter.sol:448-464 | whole new state or full revert, without looking at the pause flags |
| OmnichainContract.OmnichainRouter.CheckLimit | contracts/bridge/OmnichainRouter.sol:616-627 | accepts exactly within the limit |
| OmnichainContract.OmnichainRouter.Process | contracts/bridge/OmnichainRouter.sol:335-386 | what one deposit does, in order |
| VaultProofs.CountSignatures | contracts/bridge/XChainVault.sol:305-341 | early exit, duplicate scan and malformed signatures included, accepts if and only if some readable prefix carries the threshold of distinct oracles |
| VaultProofs.SufficientIff | contracts/bridge/XChainVault.sol:277-341 | without malformed signatures that is: as many distinct oracles as the threshold signed exactly this chain, vault, amount and nonce |
| CrossChainVault.ReleaseIsSigned | contracts/bridge/XChainVault.sol:212-225 | in every run a release takes the signatures of at least the threshold of distinct oracles over exactly its chain, vault, amount and nonce |
| CrossChainVault.ProofBindsBurn | contracts/bridge/XChainVault.sol:277-341 | in every run signatures over one burn are refused for any other vault, amount, chain or nonce |
| CrossChainVault.ThresholdHolds | contracts/bridge/XChainVault.sol:388-392 | from the setting of a threshold until the next, in every run, each release takes that many oracles |
| CrossChainVault.NonceServesOneChain | contracts/bridge/XChainVault.sol:296-303 | nonces are kept per vault: a used one is refused for good, whatever source chain it comes from |
| CrossChainVault.SoundKeeps | contracts/bridge/XChainVault.sol:96-225 | every call keeps the tokens held equal to the vaults of each token |
| CrossChainVault.DepositCommitsIff | contracts/bridge/XChainVault.sol:96-128 | a deposit commits if and only if token and chain are supported and the amount positive, and fills a vault of its own |
| CrossChainVault.OnlyOwnerSets | contracts/bridge/XChainVault.sol:346-392 | in a run without calls of the owner no setting changes |
| CrossChainVault.RevokedDoesNotCount | contracts/bridge/XChainVault.sol:378-382 | a revoked oracle counts for no release until it is authorised again |
| CrossChainVault.ReleasesWithinDeposits | contracts/bridge/XChainVault.sol:96-128 | in every run no burn nonce of a vault releases twice and releases from a vault never exceed its deposit |
| CrossChainVault.ReleaseIsFunded | contracts/bridge/XChainVault.sol:212-225 | in every run the bridge can release from a known vault if and only if the proof is accepted and the amount is in the vault |
| CrossChainVault.ReleaseKeeps | contracts/bridge/XChainVault.sol:212-225 | a release keeps vault records, deposits, releases and holdings in agreement |
| CrossChainVault.DepositKeeps | contracts/bridge/XChainVault.sol:96-128 | a deposit keeps them in agreement |
| CrossChainVault.XChainVault.VerifyBurnProof | contracts/bridge/XChainVault.sol:277-341 | accepts if and only if the proof is present, its nonce unused and enough distinct oracles signed its chain, vault, amount and nonce; marks the nonce exactly then |
| CrossChainVault.XChainVault.DepositERC20 | contracts/bridge/XChainVault.sol:96-128 | commits exactly for supported tokens and chains and positive amounts, reaches the specified state and keeps the vaults backed; a revert changes nothing |
| CrossChainVault.XChainVault.ReleaseFromVault | contracts/bridge/XChainVault.sol:212-225 | whole new state or full revert, the nonce mark included; keeps the vaults backed |
| TickLedger.RunBalanced | contracts/amm/AMMV3Pool.sol:125-199 | after any mints and burns below 2^127, the net changes up to every tick sum to the liquidity of the positions in range there, and all together cancel |
| TickLedger.StepBalancedIff | contracts/amm/AMMV3Pool.sol:125-199 | a committed call keeps the ledger in balance if and only if its amount is below 2^127 |
| TickLedger.StepShifts | contracts/amm/AMMV3Pool.sol:125-199 | by exactly how much a call changes both sides at every tick |
| TickLedger.RangeShifts | contracts/amm/AMMV3Pool.sol:329-341 | two tick updates shift the prefix sums from the lower and from the upper tick on |
| TickLedger.BurnUndoesMint | contracts/amm/AMMV3Pool.sol:125-199 | a burn undoes a mint in positions and net changes; gross keeps counting |
| TickLedger.TickShifts | contracts/amm/AMMV3Pool.sol:329-341 | an update of one tick moves every prefix sum from that tick on by the change, and no other |
| TickLedger.BurnCommitsIff | contracts/amm/AMMV3Pool.sol:168-199 | a burn within its position commits if and only if the amount has a signed negation, gross has room for it at both ticks and the nets stay words; the last is implied while gross plus the amount stays below 2^127 |
| TickLedger.PositionIsItsLedger | contracts/amm/AMMV3Pool.sol:125-199 | in every run a position holds exactly what its owner put in and has not taken out |
| TickLedger.ExhaustedForGood | contracts/amm/AMMV3Pool.sol:329-341 | gross never falls: once a tick has no room left, in every run the positions that end there keep their liquidity and none of it can be burned |
| TickLedger.WornTickStrandsLiquidity | contracts/amm/AMMV3Pool.sol:125-199 | that state is reached from an empty pool by a mint, its burn and a mint of one unit, which can then never be burned |
| TickLedger.HugeMintUnbalances | contracts/amm/AMMV3Pool.sol:125-165 | a first mint of 2^127 + 1 commits and breaks the balance |
| TickLedger.AMMV3Pool.MintPosition | contracts/amm/AMMV3Pool.sol:125-165 | whole new ledger or full revert; below 2^127 the ledger stays balanced |
| TickLedger.AMMV3Pool.BurnPosition | contracts/amm/AMMV3Pool.sol:168-199 | whole new ledger or full revert; below 2^127 the ledger stays balanced |
| CharterModel.BasisIsAMajority | contracts/governance/Charter.sol:273-280 | meeting the basis takes a strict majority of yes over no, and without a no vote any yes meets it |
| CharterModel.RecordedOnce | contracts/governance/Charter.sol:448-466 | a committed vote adds exactly the weight of its ballots, none of which its tracker had seen |
| CharterModel.RecordsIff | contracts/governance/Charter.sol:448-466 | the configuration loop goes through if and only if every vote names a tracker, weighs something, and has not been used before or earlier in the list |
| CharterModel.FreshVote | contracts/governance/Charter.sol:386-405 | a vote just opened accepts nothing for 12 seconds, passes at no time without votes, accepts while open exactly the votes its trackers have not seen, and leaves every other vote alone |
| CharterContract.CharterVotes.CastVote | contracts/governance/Charter.sol:414-484 | the configuration loop and the tally give the specified state, or full revert; the first late vote only leaves its flag |
| CouncilModel.ExecutesExactly | contracts/governance/Council.sol:350-425 | `executeProposal` commits if and only if the proposal is executable and it is given, in order, next transactions of the list that all succeed; it moves past exactly those |
| CouncilModel.ExecutionsInOrder | contracts/governance/Council.sol:350-425 | in every run the executed transactions of a proposal are a prefix of its list, each inside its execution window after a passed vote |
| CouncilModel.PhasesMoveForward | contracts/governance/Council.sol:178-212 | in every run the state of a proposal only moves forward; failed, executed and expired are final |
| CouncilModel.StepMovesForward | contracts/governance/Council.sol:178-212 | per step: calls move no state except the last execution, a timelocked proposal moves only with time, an empty one is only ever active, failed or executed |
| CouncilModel.VerdictFrozen | contracts/governance/Charter.sol:259-294 | once voting has ended tallies and verdict never change |
| CouncilModel.TalliesAreBallots | contracts/governance/Charter.sol:414-484 | in every run tallies equal the summed weight of ballots that were cast in time and counted once per tracker |
| CouncilTimeline.ProposalTimeline | contracts/governance/Council.sol:178-212 | from its submission on, in every run, the state of a proposal is a function of time, of the ballots counted for it against quorum and basis, and of whether all its transactions ran, with the timelock and execution period of its submission |
| CouncilTimeline.SubmissionStores | contracts/governance/Council.sol:307-348 | a submission stores the transactions given, the periods of the moment and a vote that opens 12 seconds later |
| CouncilTimeline.OnlyOwnerSets | contracts/governance/Council.sol:272-291 | in a run without calls of the owner the council keeps its periods, its limit and its charter |
| CouncilTimeline.SettingsGovernNext | contracts/governance/Council.sol:272-348 | what the owner sets is what the next submission stores, or is refused by |
| CouncilModel.ActiveCountsLiveIffNoneStuck | contracts/governance/Council.sol:307-376 | `activeProposalCount` is the number of live proposals if and only if none has failed, expired or passed empty |
| CouncilModel.SlotsAreNeverGivenBack | contracts/governance/Council.sol:307-376 | slots held by failed, expired and empty proposals are never given back |
| CouncilModel.LostSlotsLock | contracts/governance/Council.sol:307-348 | once lost slots fill the limit, no run submits anything until the owner sets another limit |
| CouncilModel.IgnoredProposalLocks | contracts/governance/Council.sol:307-376 | a run from deployment: a proposal nobody votes on fails, keeps the only slot, and locks the council for every continuation |
| CouncilModel.RunKeeps | contracts/governance/Council.sol:307-425 | every run of submissions, votes, executions, settings and time keeps the invariant |
| CouncilModel.SubmitKeeps | contracts/governance/Council.sol:307-348 | a submission keeps it |
| CouncilModel.VoteKeeps | contracts/governance/Charter.sol:414-484 | a counted vote keeps it |
| CouncilModel.ExecuteKeeps | contracts/governance/Council.sol:350-376 | an execution keeps it |
| CouncilContract.CouncilProgram.SubmitProposal | contracts/governance/Council.sol:307-348 | commits exactly under the guards of the source and reaches exactly the specified state; a revert changes nothing |
| CouncilContract.CouncilProgram.ExecuteProposal | contracts/governance/Council.sol:350-376 | the loop gives the specified state, or reverts as a whole after any bad or failing transaction |
| CouncilModel.SettingsReachLaterOnly | contracts/governance/Council.sol:272-291 | the settings of the owner change neither the state nor the execution of any proposal already made |
| FuturesModel.BooksAgree | contracts/futures/Futures.sol:158-289 | until final settlement, in every run: the trader array is duplicate-free and exactly the open positions, the index finds each, and open interest is the sum of open sizes per side |
| FuturesModel.SettledForGood | contracts/futures/Futures.sol:462-512 | after final settlement all sizes and both open interests are zero whatever follows |
| FuturesModel.FinalSettlesIff | contracts/futures/Futures.sol:462-512 | in every run settlement commits if and only if a keeper asks, from expiry on and once, and the tokens cover all payouts: no open interest underflows |
| FuturesModel.OpenCanCloseIff | contracts/futures/Futures.sol:231-289 | in every run a position can be closed by any part exactly at aligned prices and when the tokens cover what is due; array, index and open interest never block it, and a full close leaves the array |
| FuturesModel.ClosePaysSettledGainAgain | contracts/futures/Futures.sol:241-282 | a close counts from the entry price, so the gain that daily settlement credited is paid again, whole but for a unit of rounding |
| FuturesModel.PaysOnlyUnsettledIff | contracts/futures/Futures.sol:241-282 | the gain of a close is the gain not yet settled, at every price, if and only if nothing was settled since entry |
| FuturesModel.SettledGainBlocksClose | contracts/futures/Futures.sol:231-289 | a state with margins equal to the tokens in which a close at the mark is due 160 of 120 and reverts |
| FuturesModel.TwoSidedRun | contracts/futures/Futures.sol:158-394 | that state is reached by two openings and one daily settlement |
| FuturesModel.RemovalKeepsIndex | contracts/futures/Futures.sol:675-692 | swap-and-pop drops exactly the trader and keeps array and index inverse |
| FuturesModel.AdditionKeepsIndex | contracts/futures/Futures.sol:666-670 | adding keeps them inverse |
| FuturesModel.GrowthKeeps | contracts/futures/Futures.sol:158-228 | opening or increasing keeps all books in agreement |
| FuturesModel.ShrinkKeeps | contracts/futures/Futures.sol:231-289 | closing part or all, and liquidating, keep them in agreement and cannot underflow |
| FuturesModel.MarkingKeeps | contracts/futures/Futures.sol:350-394 | daily settlement touches margins only |
| FuturesModel.SettlementFlattens | contracts/futures/Futures.sol:462-512 | the settlement loop goes through if and only if the tokens cover the payouts still to come, and leaves every size and both interests zero |
| FuturesEffects.FreshPayout | contracts/futures/Futures.sol:158-228 | a position opened at one price and settled at another pays its margin and the truncated gain between them, or nothing |
| FuturesEffects.MarkingKeepsPayout | contracts/futures/Futures.sol:350-394 | marking in between changes what final settlement pays by at most a unit of rounding, unless the loss up to the mark took the whole margin |
| FuturesEffects.SettlementPaysAll | contracts/futures/Futures.sol:462-512 | final settlement pays everyone with an open position, once |
| FuturesEffects.SettlementClosesAll | contracts/futures/Futures.sol:462-512 | it closes every open position at its price with the last gain on its record, and that price stays the mark |
| FuturesEffects.DailyMarks | contracts/futures/Futures.sol:350-394 | daily settlement moves every open margin by its gain since the last one, a loss as far as the margin goes, and no tokens |
| FuturesEffects.OpenCommitsIff | contracts/futures/Futures.sol:158-228 | opening commits if and only if it is before expiry, aligned, with the initial margin, paid for, and on the same side as before |
| FuturesEffects.OpenTakesIn | contracts/futures/Futures.sol:158-228 | it takes in margin and fee, keeps the fee only without a receiver, and touches only the position of the caller |
| FuturesEffects.OpenAveragesEntry | contracts/futures/Futures.sol:192-194 | the entry price of a larger position is the floored average weighted by size |
| FuturesEffects.ClosePays | contracts/futures/Futures.sol:231-289 | a close releases the floored part of the margin, adds the gain since entry and takes the fee; what is missing comes out of the margin that stays |
| FuturesEffects.RoundTripCostsFees | contracts/futures/Futures.sol:158-289 | opening and closing in full at one price costs the two fees and nothing else |
| FuturesEffects.WithdrawalLeavesInitialMargin | contracts/futures/Futures.sol:312-340 | a margin withdrawal commits if and only if what is left, with the unsettled gain, is still an initial margin |
| FuturesEffects.LiquidationIff | contracts/futures/Futures.sol:403-454 | a position can be liquidated if and only if its margin and unsettled gain are less than the floored maintenance requirement and the tokens are there |
| FuturesEffects.LiquidationSplits | contracts/futures/Futures.sol:421-423 | the penalty is the floored 2.5% of the margin |
| FuturesEffects.PauseStopsNoExit | contracts/futures/Futures.sol:231-289 | nor any close or liquidation |
| FuturesEffects.PnlIsTruncated | contracts/futures/Futures.sol:634-650 | a gain has the sign of the price move for its side and is the most whole units that move covers |
| FuturesModel.ApplyKeeps | contracts/futures/Futures.sol:158-512 | every call keeps the invariant |
| FuturesModel.AverageBetween | contracts/futures/Futures.sol:192-194 | the weighted entry price lies between the old and the new price |
| FuturesModel.FreshIsSafe | contracts/futures/Futures.sol:403-419 | a position just opened cannot be liquidated at its own price |
| FuturesModel.PnlIsZeroSum | contracts/futures/Futures.sol:634-650 | with division towards zero, what one side gains the other loses |
| FuturesContract.FuturesBook.RemoveTrader | contracts/futures/Futures.sol:675-692 | swap-and-pop over the fields gives the specified array and index |
| FuturesContract.FuturesBook.OpenPosition | contracts/futures/Futures.sol:158-228 | commits exactly under the guards of the source, the payment of margin and fee included, reaches the specified state and keeps the books |
| FuturesContract.FuturesBook.ClosePosition | contracts/futures/Futures.sol:231-289 | whole new state or full revert, the profit returned, and what the trader and the fee receiver are paid; keeps the books |
| FuturesContract.FuturesBook.ReducePosition | contracts/futures/Futures.sol:241-282 | what closing does to the position |
| FuturesContract.FuturesBook.DailySettlement | contracts/futures/Futures.sol:350-394 | the loop over traders gives the specified state and keeps the books |
| FuturesContract.FuturesBook.Liquidate | contracts/futures/Futures.sol:403-454 | commits exactly under the guards of the source and when the tokens cover penalty and rest; says both, reaches the specified state and keeps the books |
| FuturesContract.FuturesBook.FinalSettlement | contracts/futures/Futures.sol:462-512 | the loop with its payouts gives the specified state, or the whole call reverts; keeps the books |
| FuturesContract.FuturesBook.SettleAll | contracts/futures/Futures.sol:476-508 | the settlement loop pays each trader as specified or fails |
| ForwardModel.RunStaysBacked | contracts/forex/ForexForward.sol:103-236 | in every run, per token: holdings = recorded collateral of open and active forwards + surplus (fees without receiver, tokens sent in) |
| ForwardModel.SettlesIff | contracts/forex/ForexForward.sol:162-172 | in every run an active forward settles if and only if it is due or a keeper asks, and the fee fits in the gain: tokens are never short |
| ForwardModel.CapsNeverBindIff | contracts/forex/ForexForward.sol:320-360 | no rate makes a settlement cap bind if and only if seller collateral >= base - 1 and buyer collateral >= floor(base*rate) |
| ForwardModel.FullRatioNeverCaps | contracts/forex/ForexForward.sol:103-159 | while the ratio is never below 100% no cap ever binds, at any rate |
| ForwardModel.WinnerIsPaid | contracts/forex/ForexForward.sol:311-388 | the winner gets back all collateral and the gain less the fee, at most the collateral of the loser, who gets the rest |
| ForwardModel.GainIs | contracts/forex/ForexForward.sol:320-360 | the gain of either side is the most that the move of the rate gives on the base amount |
| ForwardModel.CreateTakes | contracts/forex/ForexForward.sol:103-139 | an offer goes in if and only if its terms are allowed and the buyer has the floored collateral, which is taken from the buyer alone and recorded |
| ForwardModel.AcceptTakes | contracts/forex/ForexForward.sol:142-159 | taking an open offer asks the seller for the floored ratio of the base and changes nothing else of it |
| ForwardModel.CancelReturns | contracts/forex/ForexForward.sol:175-191 | only the buyer can cancel an open offer, and gets exactly the collateral back |
| ForwardModel.BatchCommitsIff | contracts/forex/ForexForward.sol:228-236 | in a backed desk a batch goes through if and only if, for the first entry of each due forward, the fee fits in the gain |
| ForwardModel.SettlementDelivers | contracts/forex/ForexForward.sol:311-388 | every account but the contract ends with exactly the payments made out to it |
| ForwardModel.PaymentsAddUp | contracts/forex/ForexForward.sol:311-388 | a settlement pays out all collateral of the forward but a fee without receiver |
| ForwardModel.SettlementKeeps | contracts/forex/ForexForward.sol:311-388 | a settlement always has the tokens and keeps every token backed |
| ForwardModel.BatchSettlesExactlyDue | contracts/forex/ForexForward.sol:228-236 | a batch settles exactly the listed forwards that are due, each once |
| ForwardModel.BatchKeeps | contracts/forex/ForexForward.sol:228-236 | a batch keeps every token backed |
| ForwardModel.CancelKeeps | contracts/forex/ForexForward.sol:175-191 | an open forward can always be cancelled by its buyer, and stays backed |
| ForwardModel.CreateKeeps | contracts/forex/ForexForward.sol:103-139 | creation keeps every token backed |
| ForwardModel.AcceptKeeps | contracts/forex/ForexForward.sol:142-159 | acceptance keeps every token backed |
| ForwardModel.TopUpKeeps | contracts/forex/ForexForward.sol:200-220 | a top-up keeps every token backed |
| ForwardModel.RecordKeeps | contracts/forex/ForexForward.sol:103-236 | every call keeps every token backed |
| ForwardModel.BuyerGainBounds | contracts/forex/ForexForward.sol:320-324 | the gain of the buyer is below the base amount and comes within one of it |
| ForwardModel.FeeFitsIff | contracts/forex/ForexForward.sol:332-333 | no gain is ever below its fee if and only if the rate is at most 100% |
| ForwardModel.FeeExceedsIff | contracts/forex/ForexForward.sol:332-333 | exactly which gains a higher rate exceeds |
| ForwardModel.SettlesAtFeeIff | contracts/forex/ForexForward.sol:162-172 | after the owner sets a fee, a due forward settles exactly at the rates where that fee fits in the gain |
| ForwardModel.FeeAboveAllBlocks | contracts/forex/ForexForward.sol:162-172 | a run from deployment: at a doubled rate a due deal settles under a fee of 5 and reverts under one of 20000 |
| ForwardModel.CallKeeps | contracts/forex/ForexForward.sol:103-236 | every call by others keeps the contract holding at least the collateral it records |
| ForwardContract.ForexForward.CreateForward | contracts/forex/ForexForward.sol:103-139 | commits exactly under the guards of the source, reaches exactly the specified state and stays solvent; a revert changes nothing |
| ForwardContract.ForexForward.AcceptForward | contracts/forex/ForexForward.sol:142-159 | commits exactly under the guards of the source, reaches exactly the specified state and stays solvent; a revert changes nothing |
| ForwardContract.ForexForward.CancelForward | contracts/forex/ForexForward.sol:175-191 | commits exactly under the guards of the source, reaches exactly the specified state and stays solvent; a revert changes nothing |
| ForwardContract.ForexForward.TopUpCollateral | contracts/forex/ForexForward.sol:200-220 | commits exactly under the guards of the source, reaches exactly the specified state and stays solvent; a revert changes nothing |
| ForwardContract.ForexForward.SettleInternal | contracts/forex/ForexForward.sol:311-388 | the payments in order give the specified state, or full revert |
| ForwardContract.ForexForward.SettleForward | contracts/forex/ForexForward.sol:162-172 | commits exactly under the guards of the source and reaches exactly the specified state; a revert changes nothing |
| ForwardContract.ForexForward.BatchSettle | contracts/forex/ForexForward.sol:228-236 | the loop settles exactly the due forwards of the list, or reverts as a whole |

## Left out

- Machine widths: amounts are unbounded naturals except where the source checks or casts a width (112-bit reserves, 128-bit ticks, 64-bit bridge counters); elsewhere an overflow would revert, so the models admit at least the runs the code does.
- Token contracts: plain balance ledgers; allowances, fee-on-transfer, rebasing and callbacks are not modelled, nor is the balance of the caller where the contract only pulls from it.
- Reentrancy, gas, events, proxies, upgrade slots and role administration beyond a caller or keeper flag.
- Slippage limits and deadlines, which only add reverts, apart from the minimum and maximum of the router swaps.
- Cryptography: hashes stand for their preimages, a signature that is over another message recovers to nobody's address, honest signers sign only emitted events.
- Native-coin and liquidity-adding functions of the AMMV2 router, and the price oracle accumulators and timestamp of the pair.
- StableCurve.GetD: that the loop always converges is not claimed, only what its answers are.
- Zero divisors and 256-bit overflow in the stable solvers: the first are reverts of the model too, the second only adds reverts.
- StableEffects.OneCoinMeans: says what the one-coin formula pays; that it is fair to the other holders is not claimed, as the solver is asked there with D1 in the place of the balance of token 0.
- StableContract.StableSwap.RemoveLiquidity: shares burned are checked against the supply, not against the balance of one holder; in the other two withdrawals likewise.
- `AMMV3Pool` swap, flash, collect and the tick price tables.
- TickLedger.AMMV3Pool.MintPosition: the token payments are not modelled; they only add reverts.
- TickLedger.AMMV3Pool.BurnPosition: the amounts owed and the global `liquidity` field are not modelled; subtracting from the latter can only add a revert.
- TickLedger.BurnCommitsIff: as far as ticks and positions go, for the same reason.
- VaultModel.RunKeepsPrice: for runs that always have shares outstanding; assets that remain after the last share is redeemed go to the next depositor.
- VaultContract.YieldVault.HarvestAll: adapters, one holding per adapter and vault, deliver what they report; a misreporting adapter is not modelled, in `Rebalance`, `Deposit` and `Withdraw` likewise.
- BridgeModel.RunConserves: one asset, native at home and wrapped away; other assets appear only as foreign events that share the counter and the bitmap. Signer rotation is not modelled. The `active` flag of a token is set at registration and cleared nowhere.
- BridgeMessages.BuildSolanaMessage: the message layout only; parsing of the Ed25519 instruction is not modelled.
- OmnichainModel.RunBalances: backing attestations, the automatic pause they trigger and signer rotation are outside; pausing is a free input.
- CrossChainVault.ReleasesWithinDeposits: ERC20 vaults only; ERC721 and ERC1155 vaults, message sending and the list of trusted source chains, which nothing reads, are not modelled.
- CouncilModel.RunKeeps: a charter's admin is taken to be the council, charters are values inside the council object, transactions executed do not call back into it, and the light-account lookup of a voter is an input. Proposer adapters, weight strategies and veto voters are inputs or absent.
- FuturesModel.ApplyKeeps: no conservation of cash is claimed: it is false (`FuturesModel.ClosePaysSettledGainAgain`). One contract id is modelled; tokens that others with the same quote move are the step `OtherTransfers`.
- ForwardModel.RunStaysBacked: the pair registry is fixed, and the oracle's rate is an input of each settlement.
- Account abstraction, DAO, Committee, DKNT, ReserveDTF, DID registry, FuturesMargin, StableSwapFactory, SolvencyStateMachine, TeleportProposalBridge and the Algorand, NEAR, Polkadot, ICP, Stellar and OP_NET bridges: simpler or separate components.
