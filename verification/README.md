# Verification of the staking program

A Dafny model of `staked`, the Solana program in `programs/staking` that lets holders of a
Pump.fun token lock it for a fixed term and shares the token's creator fees among them by
weighted stake. The model covers the reward accounting, the locks and the principal, the routing
of SOL fees between a launch and the main coin, the quote-token pools, both protocol-fee ledgers,
and the parsing of Pump Fees sharing configs with the shareholder account lists built from them.

`dafny verify dfyconfig.toml` checks the whole project.

## How it is built

A launch keeps one accumulator, `acc_reward_per_weight`, and each position keeps a debt. With `P`
for the precision of 10^18, everything rests on the scaled credit `c = weight * acc - P * debt`:
a position can be paid the whole part of `c / P`, and every step moves the sum of all credits by
an amount that can be written down exactly. Every rounding leaves dust, and the books of module
`History` record it where it arises: on a batch, when weight is opened, when weight is closed.

- `Types`, `Arithmetic`, `Sums`: machine integers whose checked operations never wrap, floor
  division, sums over maps.
- `Rewards`, `Pool`: the arithmetic, and one launch as a state machine. A step succeeds with a new
  pool or fails and changes nothing.
- `History`: runs of one launch with bookkeeping that only observes. `Positions`, `Solvency`,
  `Admission`, `Accrual`, `Fairness`, `Locks`, `NaiveLedger` prove what holds in every run.
- `Lamports`, `SolProgram`: any number of launches, every lamport balance, and the transactions.
  `Routing`, `FeeClaims`, `SolRuns`, `FeeLedger`, `DirectRoute` and `Joiners` are about its runs,
  with the cases of `WaitingFees`. `RouteGuard` is the choice of vaults the caller passes.
- `SolLaunches` shows that each launch in a run of the program is, at every moment, where its run
  alone comes over exactly the inputs it saw: its own staking calls, its shares of the fee claims
  on any launch, and the clock. `LaunchRuns` and `LaunchCalls` use it to state the single-launch
  results of the program's own transactions: reserve history, solvency, fairness, principal,
  locks, and exactly when each staking transaction succeeds.
- `FeeCalls` says exactly when each of the other transactions succeeds, in any state, in terms of
  balances, pools and arguments; `FeeRun` is a run of two launches in which a collecting claim pays
  both. `Refusals` says of every error what is true when it is reported.
- `Quote`, `QuoteRuns`, `QuoteHypothesis`: a quote-token pool beside a launch, its runs, and the
  hypothesis its solvency needs. `QuoteCalls`: exactly when each quote instruction succeeds.
- `Overflow`: how far the debt product can grow. `TightRun`, `QuoteTightRun`, `ShortLaunch` and
  `OverflowRun` are runs that reach the bounds, put together from the single transactions of `Scenes`.
- `Accounts`, `Handlers`, `QuoteHandlers`: the instruction handlers as the program runs them, on
  mutable account objects that are loaded, assigned field by field and stored, with the rollback
  of a failed transaction. Each is proved to end in the state the relations above give.
- `Shareholders`, `SharingConfig`: the cursor loops, and the byte parser with its printer.

## Results that are not what one might expect

- The reserve can be smaller than what stakers are owed. A debt is rounded down when weight is
  opened, so each stake or increase at a non-zero accumulator can add a fraction of a lamport to
  what is owed. `Solvency.BoundedSolvency` bounds the shortfall by the number of such calls less
  one, and `Solvency.SolventExactlyWhenDustCovers` says exactly when the reserve covers every
  lamport that could be claimed. `TightRun.BoundIsReached` reaches the bound for every such number
  up to 2767011611056433 with batches that claims can bring, `ShortLaunch.ALaunchEndsShort` does so
  by transactions of the program, and `ShortLaunch.LaunchCoverIsCertainExactly` says how many such
  calls are harmless. `QuoteTightRun` has the same for quote pools.
- A position can be lost for good. Every settling call computes weight times accumulator in 128
  bits; a staker may join when the product still fits, and a later batch can take it past the
  limit. `OverflowRun.StuckForever` proves that from then on no claim, increase or unstake of that
  position ever succeeds, `OverflowRun.OrdinaryRunSticks` gets there in six transactions with two
  claims that bring one SOL each, and `LaunchRuns.EveryHeldProductFits` is what a staker can check
  beforehand: with room for `more` lamports in the product, nothing overflows until more than that
  has been routed to the launch.
- `programs/staking/README.md` says at lines 118-120 that waiting creator fees must be claimed
  before weight can join. The code checks the two creator vaults. A claim also distributes what
  has already reached the fee owner and its wrapped-SOL account, by a deposit or by a collection
  outside a claim, and nobody checks those two when weight joins.
  `WaitingFees.CollectedFeesReachJoiners` is such a run. `Joiners.EveryRunIsBalanced` says what
  joiners can share in at most, `Joiners.JoinersEarnNoOlderFees` that they share in nothing older
  when those two balances are empty as they join, and `WaitingFees.WaitingDecides` that nothing
  weaker would do; both balances can be read before the call.
- A quote pool can owe more than it holds without any rounding: its batches are divided by the
  live total weight while the claimants are snapshots of weights that may have left.
  `QuoteHypothesis.HypothesisIsNeeded` is such a run of six steps; `QuoteRuns.QuoteBoundedSolvency`
  is the bound when the snapshots together never exceed the total, `QuoteRuns.FittingIsExact` shows
  when nothing weaker would do, `QuoteRuns.BatchCreditsExactly` when a single batch overclaims, and `QuoteHypothesis.SteadyRunsFit` names runs
  that meet it.
- On the shared route the two checks on joining weight can be passed with the fee owner's vaults,
  which are not the launch's own: they look at the vault the caller passes and ask about the route
  only when that is the sharing config's. `RouteGuard.DirectLaunchIsChecked` shows that the direct
  route is not concerned, and `RouteGuard.TrustworthyExactly` for which accounts acceptance vouches
  for the launch's own vaults.
- `programs/staking/README.md` says at lines 152-154 that a token distribution is passed token
  accounts. The code and its test (`instructions/fees.rs` 1101-1153 and 1279-1288) take wallets
  first and token accounts after them; the model follows the code.

## Model

| member | source | states |
|---|---|---|
| Rewards.SplitSucceedsExactly | programs/staking/src/rewards.rs:75-98 | A claim can be split exactly when it lies between 1 and 7378697629483820; below and above, the error is the documented one. |
| Rewards.SplitConserves | programs/staking/src/rewards.rs:75-98 | The three parts of a split add up to the claim; fee and main share are rounded down; the stakers' part is positive and from 71.25% of the claim to less than two units more. |
| Rewards.QuoteFeeLeavesReward | programs/staking/src/rewards.rs:348-351 | After the fee of a quote claim at least three quarters, and never nothing, is left, so the later non-zero check cannot fire. |
| Rewards.WeightBounds | programs/staking/src/rewards.rs:9-44 | For every offered lock the weight computes, is at least the amount and at most two and a half times it. |
| Rewards.WeightsMatchTerms | programs/staking/src/rewards.rs:9-44 | The four locks weigh 1, 1.25, 1.75 and 2.5 times the amount, rounded down; any other lock is refused as invalid. |
| Rewards.UnlockMatchesTerms | programs/staking/src/rewards.rs:19-28 | A lock of 7, 30, 90 or 180 days taken at a given time ends 604800, 2592000, 7776000 or 15552000 seconds later, and fails exactly when that exceeds the largest 64-bit timestamp. |
| Rewards.PendingIsWholeCredit | programs/staking/src/rewards.rs:221-236 | When the scaled credit is not negative, the pending amount is its whole part, and it can be computed exactly when the product fits 128 bits and the result 64. |
| Rewards.SettledCredit | programs/staking/src/rewards.rs:230-236 | A freshly computed debt leaves a credit of less than one unit, namely the rounded-off fraction. |
| Accounts.LaunchAccount.ApplyRewards | programs/staking/src/rewards.rs:46-66 | The accumulator rises by the largest step whose product with the total weight stays within the batch, the reserve by the batch, the weight not at all; the error cases in the program's order. |
| Accounts.LaunchAccount.TakeFromReserve | programs/staking/src/rewards.rs:238-251 | A payout comes out of the reserve, or is refused with the account untouched when the reserve is too small. |
| Accounts.PositionAccount.PendingReward | programs/staking/src/rewards.rs:221-228 | The method returns the most whole units the position's credit allows: P times the result is at most the credit, and P more exceeds it. It fails exactly when the product does not fit 128 bits or no such result fits 64. |
| Lamports.MoveConserves | programs/staking/src/rewards.rs:508-523 | A move takes from one account what it gives to the other, needs it to be there, touches no third account and keeps the sum, also when both accounts are the same. |
| Lamports.MoveSucceedsExactly | programs/staking/src/rewards.rs:508-523 | Between two accounts a move succeeds exactly when it is of nothing, or the amount is there and fits where it goes. |
| Lamports.TopUpReachesFloor | programs/staking/src/rewards.rs:417-494 | Topping up leaves the account at its floor, or as it was when already above; only the payer pays. |
| Lamports.TopUpSucceedsExactly | programs/staking/src/rewards.rs:417-494 | Topping up another account succeeds exactly when it is at its floor already or the payer holds the difference. |
| Solvency.EveryRunIsSound | programs/staking/src/instructions/staking.rs:89-228 | In every reachable state: the total weight is the sum of the weights, each weight between one and two and a half times its amount; the vault is the principal plus outside deposits; every debt is its weight valued at an earlier accumulator; reserve and credits balance with the dust. |
| Solvency.RunPreserves | programs/staking/src/instructions/staking.rs:89-228 | The same invariant survives any sequence of inputs from any state that has it. |
| Solvency.StakePreserves | programs/staking/src/instructions/staking.rs:88-101 | A stake keeps the invariant, adding only its own rounding to the entry dust. |
| Solvency.IncreasePreserves | programs/staking/src/instructions/staking.rs:139-176 | An increase, which settles the old weight and opens the new one, keeps the invariant. |
| Solvency.ClaimPreserves | programs/staking/src/instructions/rewards.rs:19-25 | A claim keeps the invariant and adds no dust: it pays whole units and keeps the fraction owed. |
| Solvency.UnstakePreserves | programs/staking/src/instructions/staking.rs:205-228 | An unstake keeps the invariant; only a fraction of a unit is forfeited. |
| Solvency.ApplyPreserves | programs/staking/src/rewards.rs:46-66 | A batch keeps the invariant: what it credits plus its undivided rest is the batch. |
| Solvency.SolventExactlyWhenDustCovers | programs/staking/src/rewards.rs:46-66 | In every run the reserve covers all that is owed, in whole lamports, if and only if the dust granted on entries is at most the dust kept on batches and exits plus the fractions the open positions cannot be paid yet. |
| Solvency.CreditsCoveredExactly | programs/staking/src/rewards.rs:46-66 | In every run the reserve covers all credits, fractions included, if and only if the dust granted on entries is at most the dust kept on batches and exits. |
| Solvency.BoundedSolvency | programs/staking/src/rewards.rs:221-254 | In every run, with K stakes and increases made at a non-zero accumulator, credits exceed P times the reserve by at most (P-1)K; all stakers together are owed at most the reserve when K is 0, and at most the reserve plus K-1 otherwise. |
| TightRun.BoundIsReached | programs/staking/src/rewards.rs:230-236 | For every K from 1 to 2767011611056433 there is a run of a launch, with two batches that claims can bring and K stakes at a non-zero accumulator, whose stakers are owed exactly K-1 more than the reserve. |
| TightRun.CoverIsCertainExactly | programs/staking/src/rewards.rs:238-254 | For K up to 2767011611056433, all runs of a launch with bringable batches and K such calls are covered by their reserve if and only if K is at most one. |
| ShortLaunch.ALaunchEndsShort | programs/staking/src/rewards.rs:128-182 | For each of these K, K+5 transactions of the program, from creating the launch to claiming two lamports, end with its stakers owed exactly K-1 more than its reserve. |
| ShortLaunch.LaunchCoverIsCertainExactly | programs/staking/src/rewards.rs:238-254 | For K up to 2767011611056433, every launch of every run of the program with K such calls is covered if and only if K is at most one. |
| Solvency.ClaimSucceedsExactly | programs/staking/src/instructions/rewards.rs:19-25 | In every run a claim succeeds exactly when the position exists, its product fits, and something is owed that the reserve covers. |
| Solvency.UnstakeSucceedsExactly | programs/staking/src/instructions/staking.rs:181-228 | In every run an unstake succeeds exactly when the lock has ended and the reward fits and is covered: taking off the weight and returning the principal never fail. |
| Admission.TotalWithinVault | programs/staking/src/instructions/staking.rs:96-99 | Twice the total weight is at most five times the staked principal, and so five times the vault. |
| Admission.StakeSucceedsExactly | programs/staking/src/instructions/staking.rs:42-102 | In every run, the exact condition for a stake to succeed; the 128-bit total cannot be what overflows. |
| Admission.IncreaseSucceedsExactly | programs/staking/src/instructions/staking.rs:104-179 | In every run, the exact condition for an increase to succeed; the principal sum, the weight taken off and the weight put on cannot be what fails. |
| Admission.BatchSucceedsExactly | programs/staking/src/rewards.rs:46-66 | In every run, the exact condition for a batch to be accepted; no batch of 47 lamports or more is ever too small to move the accumulator. |
| Accrual.EveryRunKeepsHistory | programs/staking/src/rewards.rs:56-63 | In every run the accumulator is the sum of the increments of all batches, and reserve plus everything paid is everything applied. |
| Accrual.RunKeepsHistory | programs/staking/src/rewards.rs:56-59 | Over any run the accumulator never decreases and no past batch is forgotten. |
| Accrual.PendingNeverUnderflows | programs/staking/src/rewards.rs:221-228 | In every run each debt is its weight valued at some earlier accumulator, so the subtraction in `pending_reward` cannot underflow. |
| Accrual.ProductWithinApplied | programs/staking/src/rewards.rs:230-236 | A weight that was at most the total at every batch has a product with the accumulator of at most P times the total applied. |
| Overflow.HeldProductGrows | programs/staking/src/rewards.rs:230-236 | While no increase or unstake of a position succeeds, its weight times the accumulator grows by at most P times what is applied to the launch meanwhile, whatever was applied before it joined. |
| Overflow.HeldProductFits | programs/staking/src/rewards.rs:230-236 | In every run, with room for a further amount in that product, the debt of a held position computes without overflow until more than that amount has been applied. |
| LaunchRuns.EveryHeldProductFits | programs/staking/src/rewards.rs:230-236 | The same for every launch in every run of the program, of what is routed to it. |
| Overflow.TooLargeIsForever | programs/staking/src/rewards.rs:221-236 | From any state in which the product of a position does not fit 128 bits, in every continuation the position stays as it is and every claim, increase and unstake of it fails. |
| OverflowRun.StuckForever | programs/staking/src/instructions/staking.rs:181-228 | The same of the transactions of the program: principal and rewards of such a position can never be taken out. |
| OverflowRun.OrdinaryRunSticks | programs/staking/src/rewards.rs:46-66 | Six transactions (one unit staked, a claim that brings one SOL, 340282366920 units staked, the same claim again) make such a position, whatever follows. |
| Accrual.HolderReceivesAccrual | programs/staking/src/instructions/rewards.rs:19-25 | While no increase or unstake of a position succeeds, its payouts plus what it is still owed depend only on the accumulator at both ends. |
| Accrual.ClaimScheduleIsIrrelevant | programs/staking/src/instructions/rewards.rs:19-25 | Any two claim schedules under the same accumulator give a holder the same total. |
| Fairness.PaidExactShare | programs/staking/src/rewards.rs:46-66 | From any point of any run, while no increase or unstake of a position of weight w succeeds, over m batches its payouts plus the growth of what it is owed lie strictly between its exact rational share less m*w/P + 1 and that share plus 1. |
| Fairness.SharesOfBatches | programs/staking/src/rewards.rs:49-59 | Over any batches, the credit of a weight is at most its exact share and misses it by at most w/P a batch. |
| Locks.EveryRunKeepsPromises | programs/staking/src/instructions/staking.rs:75-90 | In every run each finished episode paid back exactly what it deposited, not before call time plus lock days, of 86400 seconds each, of its stake and of every increase; open positions hold their deposits and are locked that long. |
| Locks.PrincipalLeavesOnlyUnlocked | programs/staking/src/instructions/staking.rs:181-228 | If any input lowers the vault, it is an unstake, it takes exactly the caller's deposits, and every time promised for them has passed. |
| Locks.UnlockNeverMovesBack | programs/staking/src/rewards.rs:30-36 | As long as no unstake of a position succeeds it stays open and its unlock time never decreases, whatever is attempted. |
| NaiveLedger.StepRefines | programs/staking/src/instructions/staking.rs:89-228 | Every accepted step is the same step of a ledger that visits every position on every batch, and pays the same. |
| NaiveLedger.RunRefines | programs/staking/src/rewards.rs:46-66 | From any sound state in step with the naive ledger, every run stays in step with it. |
| NaiveLedger.AccumulatorRefinesNaiveLedger | programs/staking/src/rewards.rs:221-236 | After every run each position's weight * acc - P * debt is its credit in the naive ledger, and both have paid the same in total. |
| Routing.SharesAddUp | programs/staking/src/rewards.rs:152-179 | Fee, the claimed launch's share and the main coin's share are the claim, whether or not the claimed launch is the main one; no other launch has a share. |
| Routing.RoutePools | programs/staking/src/rewards.rs:154-179 | After routing, each launch has taken exactly its share as one batch, and every launch without a share is as it was. |
| Routing.RouteLamports | programs/staking/src/rewards.rs:139-172 | Routing keeps the lamport sum; the launch gives up fee and main share; the vault ends at its old balance, or its floor if it was below, plus the fee; uninvolved accounts do not change. |
| Routing.RouteLaunches | programs/staking/src/rewards.rs:128-182 | Seen from the lamports, each launch ends with its share, the claimed one having given up the claim. |
| FeeClaims.PumpSweepEffect | programs/staking/src/rewards.rs:386-444 | The sweep moves everything above the rent floor, old or newly collected, into the launch and leaves the fee owner at the floor. |
| FeeClaims.CollectEffect | programs/staking/src/instructions/fees.rs:496-524 | A PumpSwap collection moves wrapped SOL, with its lamports, from the creator vault to the fee owner's account and changes nothing else. |
| FeeClaims.PumpSwapSweepEffect | programs/staking/src/instructions/fees.rs:526-540 | Closing the wrapped-SOL account moves all its lamports, rent and earlier collections included, into the launch and removes the account. |
| FeeClaims.PumpClaimShares | programs/staking/src/instructions/fees.rs:11-100 | A successful Pump.fun claim raises each launch's lamports and reserve by its share, pays the fee, and leaves the fee owner exactly at the rent floor. |
| FeeClaims.PumpSwapClaimShares | programs/staking/src/instructions/fees.rs:447-556 | The same for a PumpSwap claim, which leaves no wrapped-SOL account behind. |
| FeeClaims.FeeClaimShares | programs/staking/src/rewards.rs:128-182 | Either claim shares out exactly what it claimed. |
| FeeCalls.PumpClaimSucceedsExactly | programs/staking/src/instructions/fees.rs:11-100 | In any state a Pump.fun claim succeeds exactly when the launch has active stake, the payer funds the shortfalls of fee owner and fee vault, the creator vault holds its floor and what is collected, the amount lies between 1 and 7378697629483820, and each part fits where it goes; a launch other than the main one needs a non-empty account list, headed by the existing main launch if the main part is positive. A quarter is the fee and a twentieth of the rest the main part, rounded down. |
| FeeCalls.PumpSwapClaimSucceedsExactly | programs/staking/src/instructions/fees.rs:447-556 | The same for a PumpSwap claim: both wrapped-SOL accounts exist, what is collected is in the creator vault, and the amount is the closed account's lamports with what was collected. |
| FeeCalls.SharesAreParts | programs/staking/src/rewards.rs:75-98 | The fee is a quarter of the claim and the main coin's share a twentieth of what remains, both rounded down; the claimed launch has the rest. |
| FeeCalls.WrappedSucceedsExactly | programs/staking/src/instructions/fees.rs:496-524 | A wrapped-SOL account can be opened exactly where there is none, and a collection outside a claim succeeds exactly when both accounts exist, hold what is collected, and can take it. |
| FeeRun.BothLaunchesGain | programs/staking/src/rewards.rs:128-182 | A claim on a launch other than the main one collects one SOL, given the account list that names the main launch: 250000000 lamports go to the fee vault, 37500000 to the main launch and 712500000 to its own, in balances, in reserves and in what the stakers are owed. |
| FeeRun.FeesReachTheStaker | programs/staking/src/instructions/staking.rs:181-231 | Two launches are created, each gets a staker, fees are collected, and the second launch's staker takes its 712500000 lamports and, 604800 seconds after staking, its tokens; the launch ends empty. |
| Refusals.PumpSweepRefusal | programs/staking/src/rewards.rs:386-444 | A failed Pump.fun sweep names its reason: a payer that cannot fund the fee owner, a foreign failure when the vault lacks floor and amount or the sum does not fit, nothing above the floor, or a launch balance that would not fit. |
| Refusals.PumpSwapSweepRefusal | programs/staking/src/instructions/fees.rs:496-540 | The same for a PumpSwap sweep. |
| Refusals.RouteRefusal | programs/staking/src/rewards.rs:111-182 | A routing refused for want of an account for the main coin is reported as an invalid main reward pool, and that error always means an empty list, a wrong account or a missing main launch of a claim on another one. |
| Refusals.MainIsDemanded | programs/staking/src/rewards.rs:165-210 | Once fee and own share have gone where they go, a positive main part without the existing main launch to take it is refused as an invalid main reward pool. |
| Refusals.FeeClaimRefusal | programs/staking/src/instructions/fees.rs:11-100 | A fee claim reports a missing launch exactly when there is none, no active stake whenever there is none, and an invalid main reward pool only on a launch other than the main one whose list is empty or does not start with the existing main launch. |
| SolRuns.MainAccountIsChecked | programs/staking/src/rewards.rs:111-211 | A successful claim on any other launch named an account for the main coin, and when the main share is positive that account is the existing main launch; a claim on the main launch does the same whatever list is passed. |
| SolRuns.TransactionIsAccounted | programs/staking/src/rewards.rs:238-254 | Every successful transaction keeps the lamport sum up to outside deposits, and moves each launch's lamports exactly as its reserve, but for outside deposits to it and the rent of its creation. |
| SolRuns.EveryRunIsAccounted | programs/staking/src/rewards.rs:128-182 | Over every run the global lamport sum changes only by outside deposits, and lamports less reserve of each launch only by outside deposits to it and the rent of its creation, main launch and coinciding launches included. |
| SolRuns.ReserveIsHeld | programs/staking/src/rewards.rs:238-254 | In a program that started without launches, every launch account always holds its whole reserve on top of its rent-exempt minimum. |
| SolRuns.LaunchesAfter | programs/staking/src/instructions/staking.rs:10-40 | Only its creation brings a launch into being; no transaction removes one. |
| FeeCalls.CreationSucceedsExactly | programs/staking/src/instructions/staking.rs:10-40 | A launch is created exactly when there is none and the payer holds what its account is short of its rent; it starts without weight, rewards and positions, and nothing else changes but those lamports. |
| SolLaunches.EveryLaunchIsItsOwnRun | programs/staking/src/rewards.rs:128-182 | In every run of the program each launch, however routed into, is at every moment in the state that its run alone reaches over exactly the inputs it saw. |
| SolLaunches.AllSeenIsMirrored | programs/staking/src/rewards.rs:128-182 | The same between any two moments, from any state in which the launch exists. |
| LaunchRuns.OwnRunRecords | programs/staking/src/rewards.rs:46-66 | The batches, re-weightings and payouts in the books of that run are the program's own: routed shares with the totals they were divided by, successful stakes and increases, and lamports gained by wallets. |
| LaunchRuns.ReserveIsRoutedLessPaid | programs/staking/src/rewards.rs:238-254 | For every launch in every run, the accumulator is the sum of the increments of all shares ever routed to it, and the reserve is all those shares less every lamport its stakers' wallets were paid. |
| LaunchRuns.EveryLaunchIsBounded | programs/staking/src/rewards.rs:221-254 | Bounded solvency of every launch in every run of the program, with K its own successful stakes and increases at a non-zero accumulator. |
| LaunchRuns.EveryHolderGainsItsShare | programs/staking/src/instructions/rewards.rs:19-25 | From any moment of any run of the program, while no increase or unstake of a position succeeds, the lamports its wallet is paid plus the growth of what it is owed are within the fairness bound of its exact share of the fees routed to that launch. |
| LaunchRuns.EveryLaunchRefinesNaiveLedger | programs/staking/src/rewards.rs:221-236 | Every launch is the naive ledger over the steps it accepted, and has paid its stakers' wallets the same in total. |
| LaunchRuns.NoUnstakeBeforeItsTime | programs/staking/src/instructions/staking.rs:181-185 | In any state of the program, after a stake or an increase no unstake of that position succeeds before the call's time plus 86400 seconds for each of its lock days. |
| LaunchRuns.EpisodeReturnsDeposits | programs/staking/src/instructions/staking.rs:213-228 | The unstake that ends a position takes out of the vault exactly the tokens of the stake that opened it and of every increase in between. |
| LaunchCalls.EveryLaunchIsCovered | programs/staking/src/instructions/staking.rs:89-228 | In every run of the program, for each launch: total weight is the sum of weights, the vault covers all principal, no debt exceeds its accrual. |
| LaunchCalls.StakeTransactionSucceedsExactly | programs/staking/src/instructions/staking.rs:42-102 | In every run of the program, the exact condition for a stake transaction, with the creator-vault checks spelled out. |
| LaunchCalls.IncreaseTransactionSucceedsExactly | programs/staking/src/instructions/staking.rs:104-179 | In every run of the program, the exact condition for an increase transaction; the launch account never lacks the lamports of the payout. |
| LaunchCalls.ClaimTransactionSucceedsExactly | programs/staking/src/instructions/rewards.rs:12-28 | In every run of the program a claim transaction succeeds exactly when something is owed, is in the reserve, and fits the product and the wallet. |
| LaunchCalls.UnstakeTransactionSucceedsExactly | programs/staking/src/instructions/staking.rs:181-231 | In every run of the program an unstake transaction succeeds exactly when the lock has ended, the reward fits and is in the reserve, and the wallet can take it. |
| Refusals.StakeRefusal | programs/staking/src/instructions/staking.rs:42-102 | Every error of a stake is reported only for its reason, in any state of the launch. |
| Refusals.IncreaseRefusal | programs/staking/src/instructions/staking.rs:104-179 | The same for an increase. |
| Refusals.ClaimRefusal | programs/staking/src/instructions/rewards.rs:19-25 | The same for a claim. |
| Refusals.UnstakeRefusal | programs/staking/src/instructions/staking.rs:181-231 | The same for an unstake. |
| Refusals.BatchRefusal | programs/staking/src/rewards.rs:46-66 | The same for a batch. |
| FeeLedger.FeeClaimIsLedgered | programs/staking/src/rewards.rs:139-152 | A fee claim raises the claimable part of its own fee vault by exactly the fee, from an absent, a short or a full vault, and that of no other. |
| FeeLedger.ProtocolClaimIsLedgered | programs/staking/src/instructions/protocol.rs:89-106 | A protocol claim withdraws exactly the claimable part to the authority and leaves none. |
| FeeCalls.ProtocolClaimSucceedsExactly | programs/staking/src/instructions/protocol.rs:78-109 | In any state a protocol claim succeeds exactly when the launch exists, its fee vault holds more than its floor, and the authority's wallet can take the difference; then exactly that has moved. |
| FeeLedger.RunIsLedgered | programs/staking/src/rewards.rs:446-506 | Over every run, claimable plus withdrawn is what was claimable at the start plus fees charged plus what deposits lifted above the floor. |
| FeeLedger.FeesAreWithdrawnOrClaimable | programs/staking/src/instructions/protocol.rs:78-109 | From a vault at or below its floor and without outside deposits, withdrawn plus claimable is always the sum of all fees charged. |
| DirectRoute.CleanMeansNothingToCollect | programs/staking/src/guards.rs:203-291 | The two vaults pass as clean exactly when no positive amount could be collected from either, so rent alone passes. |
| DirectRoute.JoinNeedsCleanVaults | programs/staking/src/instructions/staking.rs:62-73 | Weight joins an active pool only while both creator vaults hold nothing claimable. |
| DirectRoute.TransactionStaysFresh | programs/staking/src/guards.rs:203-219 | Any transaction keeps the fact that whatever can still be collected from the two vaults, and whatever was, accrued after the last join. |
| DirectRoute.VaultCollectionsAreFresh | programs/staking/src/guards.rs:254-291 | In every run each collection from the vaults, in a claim or outside one, takes no more than accrued there, and was not yet collected, since weight was last added to the active pool. |
| Joiners.TransactionBalances | programs/staking/src/instructions/fees.rs:77-97 | All that claims on a launch could distribute (both vaults above their floors, the fee owner above its floor, its wrapped-SOL account) grows by exactly what arrives and shrinks by exactly what a claim distributes; a collection outside a claim leaves it unchanged. |
| Joiners.EveryRunIsBalanced | programs/staking/src/instructions/fees.rs:77-97 | In every run that stock plus everything distributed since weight last joined is what was waiting with the fee owner at that join plus everything that arrived since; so each whole claim is at most what had waited plus what was fresh. |
| Joiners.AllIsFreshExactly | programs/staking/src/instructions/staking.rs:62-73 | At any moment all that was, and all that still could be, distributed since the last join arrived since then if and only if nothing was waiting in the fee owner's two accounts at that join. |
| Joiners.JoinersEarnNoOlderFees | programs/staking/src/instructions/staking.rs:128-137 | In every run, from any state, in which nothing is waiting in those two accounts whenever weight joins, every claim after a join distributes no more than what arrived, and was not yet distributed, since the last join. |
| WaitingFees.WaitingDecides | programs/staking/src/instructions/staking.rs:62-73 | For every amount up to the 64-bit limit: after joins at which that amount was waiting, claims are certain to distribute only what arrived since if and only if the amount is zero. |
| WaitingFees.CollectedFeesReachJoiners | programs/staking/src/instructions/fees.rs:496-524 | A run in which one accrued SOL is collected outside a claim, weight joins, and the next claim distributes it: nothing of it arrived since the join, and the joiner is owed half of what the fee leaves. |
| RouteGuard.DirectLaunchIsChecked | programs/staking/src/guards.rs:221-252 | On the direct route the two checks succeed exactly when the fee owner's vaults are passed and clean. |
| RouteGuard.GuardSucceedsExactly | programs/staking/src/guards.rs:221-337 | Which accounts the two checks on joining weight accept, on either route. |
| RouteGuard.TrustworthyExactly | programs/staking/src/guards.rs:221-337 | For which accounts passed acceptance implies that the launch's own vaults are clean, on both routes: on the shared one, only when both vaults are the sharing config's or the call must fail. |
| QuoteRuns.RunKeepsQuoteSound | programs/staking/src/instructions/rewards.rs:157-176 | Over every run: snapshot debts come from earlier accumulators, reserve and credits balance with dust and what batches left unclaimed, both vaults match their reserves. |
| QuoteRuns.QuoteLedgersBalance | programs/staking/src/instructions/protocol.rs:47-73 | In every run the reward vault is the reserve plus outside deposits; the fee reserve never exceeds its vault, so a sweep always leaves it at zero; swept plus held is fees charged plus outside deposits. |
| QuoteRuns.QuotePendingNeverUnderflows | programs/staking/src/rewards.rs:284-297 | In every run no snapshot's debt exceeds its accrual, even after its weight and the position's have parted. |
| QuoteCalls.SettleSucceedsExactly | programs/staking/src/instructions/rewards.rs:157-176 | In every run a quote claim succeeds exactly when the owner has a position and a snapshot, both debt products fit 128 bits, and what is owed, zero included, fits 64 bits and is in the reserve; it then pays what was owed and records the position's current weight. |
| QuoteCalls.EnrollSucceedsExactly | programs/staking/src/instructions/rewards.rs:55-73 | Enrolling succeeds exactly when the owner has a position and no snapshot and the debt product fits; it records the weight and that debt. |
| QuoteCalls.BatchSucceedsExactly | programs/staking/src/rewards.rs:336-384 | In every run, the exact condition for a quote claim's batch to be distributed, and the new pool: a quarter is the fee, the rest the reward. |
| QuoteCalls.SweepSucceedsExactly | programs/staking/src/instructions/protocol.rs:47-73 | In every run a sweep succeeds exactly when the fee vault holds anything; it pays that out and leaves vault and reserve at zero. |
| Refusals.SettleRefusal | programs/staking/src/instructions/rewards.rs:157-176 | Every error of a quote claim is reported only for its reason. |
| Refusals.EnrollRefusal | programs/staking/src/instructions/rewards.rs:55-73 | The same for enrolling. |
| Refusals.QuoteBatchRefusal | programs/staking/src/rewards.rs:336-384 | The same for a quote batch. |
| QuoteRuns.QuoteSolventExactly | programs/staking/src/rewards.rs:256-297 | In every run the quote reserve covers all that is owed, in whole tokens, if and only if entry dust is at most exit dust plus what the batches left unclaimed plus the fractions the snapshots cannot be paid yet. |
| QuoteRuns.QuoteCreditsCoveredExactly | programs/staking/src/rewards.rs:256-282 | In every run the quote reserve covers all credits, fractions included, if and only if entry dust is at most exit dust plus what the batches left unclaimed. |
| QuoteRuns.QuoteBoundedSolvency | programs/staking/src/rewards.rs:256-297 | In every run whose batches all land with recorded weight at most the total, and with K enrolments and re-weightings at a non-zero accumulator, the pool is short by at most K-1 tokens, and not at all when K is 0. |
| QuoteTightRun.QuoteBoundIsReached | programs/staking/src/rewards.rs:256-297 | For every K from 1 to 2767011611056433 there is a run whose batches all fit, with K enrolments at a non-zero accumulator, that ends with exactly K-1 tokens more owed than held in reserve. |
| QuoteTightRun.QuoteCoverIsCertainExactly | programs/staking/src/rewards.rs:299-310 | For K up to 2767011611056433, all runs whose batches fit and with K such calls are covered by the reserve if and only if K is at most one. |
| QuoteRuns.FittingIsExact | programs/staking/src/rewards.rs:264-274 | Recorded weight at most the total keeps every batch a claim can bring from crediting more than it brings; for totals up to the largest such batch nothing weaker does, and for any total that batch overclaims once its increment on the excess weight comes to the total. |
| QuoteRuns.BatchCreditsExactly | programs/staking/src/rewards.rs:264-274 | For any one batch and any total: it credits no more than it brings if and only if the excess weight times the increment is at most the batch's undivided rest. |
| Rewards.BringableExactly | programs/staking/src/rewards.rs:348-351 | The amounts that the fee of a claim can leave are exactly those from 1 to 5534023222112865. |
| QuoteHypothesis.AlignedFitsTotal | programs/staking/src/instructions/rewards.rs:63-70 | Snapshots that agree with their positions record together at most the total weight. |
| QuoteHypothesis.SteadyRunsFit | programs/staking/src/instructions/rewards.rs:63-70 | Every run in which no unstake and no increase of an enrolled owner succeeds meets the hypothesis, whatever un-enrolled stakers do. |
| QuoteHypothesis.HypothesisIsNeeded | programs/staking/src/rewards.rs:264-274 | A run with no re-weighting in which an enrolled staker leaves, one token arrives, and two are owed. |
| Handlers.Program.MoveLamports | programs/staking/src/rewards.rs:508-523 | Debit, then credit, each checked, with `from` and `to` possibly the same account: the balances the relation gives. |
| Handlers.Program.EnsureFeeVault | programs/staking/src/rewards.rs:446-494 | All three branches (funded, short, absent) end in the one topped-up state. |
| Handlers.Program.EnsureFeeOwner | programs/staking/src/rewards.rs:417-444 | The fee owner ends at or above its rent floor at the payer's expense. |
| Handlers.Program.InitializeHandler | programs/staking/src/instructions/staking.rs:10-40 | Bringing the account to its rent floor and storing an empty launch ends in the creation relation's state. |
| Handlers.Program.StakeHandler | programs/staking/src/instructions/staking.rs:42-102 | The step-by-step handler ends in the state of the stake step, or fails with its error. |
| Handlers.Program.IncreaseHandler | programs/staking/src/instructions/staking.rs:104-179 | The same for an increase, although it pays and mutates before later checks. |
| Handlers.Program.ClaimHandler | programs/staking/src/instructions/rewards.rs:12-28 | The same for a SOL reward claim. |
| Handlers.Program.UnstakeHandler | programs/staking/src/instructions/staking.rs:181-231 | The same for an unstake; a payout that does not fit the wallet is reported ahead of a vault that lacks the principal, as the program pays first. |
| Handlers.Program.RouteFees | programs/staking/src/rewards.rs:128-182 | Loading, changing and storing two launch copies around the lamport moves amounts to the routing relation, the case of one and the same launch included. |
| Handlers.Program.SweepPump | programs/staking/src/rewards.rs:386-444 | Top up, collect and sweep give the sweep relation's state and amount. |
| Handlers.Program.SweepPumpSwap | programs/staking/src/instructions/fees.rs:513-540 | Collect and close give the sweep relation's state and amount. |
| Handlers.Program.PumpClaimHandler | programs/staking/src/instructions/fees.rs:11-100 | Check, sweep, find the main launch, route: the claim relation. |
| Handlers.Program.PumpSwapClaimHandler | programs/staking/src/instructions/fees.rs:447-556 | The same for PumpSwap. |
| Handlers.Program.ProtocolClaimHandler | programs/staking/src/instructions/protocol.rs:78-109 | The protocol claim relation; on success the vault is left exactly at its floor and the authority has gained the difference. |
| Handlers.Program.Execute | programs/staking/src/instructions/staking.rs:154-171 | A transaction takes effect completely or, however far its handler had come, leaves every account as it was; it succeeds exactly when the relation does. |
| QuoteHandlers.QuoteAccounts.constructor | programs/staking/src/instructions/rewards.rs:30-53 | A new quote pool starts at zero, whatever its token accounts already hold. |
| QuoteHandlers.QuoteAccounts.ApplyRewards | programs/staking/src/rewards.rs:256-282 | The accumulator rises by the largest step whose product with the launch's total weight stays within the batch, the reserve by the batch; the error cases in the program's order. |
| QuoteHandlers.QuoteAccounts.ClaimFees | programs/staking/src/rewards.rs:336-384 | Only what a claim newly collected is distributed: fee and reward move to their vaults and the fee owner's account ends as it was. |
| QuoteHandlers.QuoteAccounts.EnrollHandler | programs/staking/src/instructions/rewards.rs:55-73 | Enrolling, once, records the position's weight with a debt that leaves it less than one token of credit: nothing earlier can be claimed. |
| QuoteHandlers.QuoteAccounts.ClaimHandler | programs/staking/src/instructions/rewards.rs:157-176 | A quote claim pays at the recorded weight and only then records the current one. |
| QuoteHandlers.QuoteAccounts.SweepHandler | programs/staking/src/instructions/protocol.rs:47-73 | The sweep empties the fee vault, never raises the reserve, and leaves it at zero when it was covered by the vault. |
| QuoteHandlers.QuoteAccounts.Execute | programs/staking/src/instructions/rewards.rs:157-176 | A quote transaction takes effect completely or leaves no trace. |
| Shareholders.AccountLists.AppendPass | programs/staking/src/instructions/fees.rs:1084-1100 | One pass succeeds exactly when the remaining accounts continue, from the cursor, with the targets of the shareholders other than the fee owner; then every target was appended in order to both lists, each as a writable account that does not sign, and the cursor stands after them. Of its two errors one means that accounts are missing, the other that one is out of place. |
| Shareholders.AccountLists.AppendShareholders | programs/staking/src/instructions/fees.rs:1072-1162 | It succeeds exactly when the remaining accounts are the non-fee-owner addresses in order, followed in token mode by their token accounts in order with the fee owner's own matching wherever it appears; then exactly all addresses, then all token accounts, were appended to both lists position by position, writable and not signing. In token mode the token-account error means that the wallets were right and a token account was not; the other, that the wallets or the number of accounts were not. |
| Shareholders.DueCounts | programs/staking/src/instructions/fees.rs:1084-1100 | Without the fee owner among the shareholders every target is due; with nobody else, none is. |
| SharingConfig.ParseSharingConfig | programs/staking/src/guards.rs:433-512 | It accepts exactly the accounts whose bytes hold the fixed parts and shares that are positive, sum to 10000 and include the fee owner, counts and points read with the least significant byte first; it returns the address bytes in order, and reads nothing out of bounds. |
| SharingConfig.BytesAcceptedExactly | programs/staking/src/guards.rs:449-511 | Acceptance byte by byte is acceptance of the shares: the literal discriminator and status, the mint, a little-endian count of four bytes, and for each share 32 address bytes and two little-endian bytes of points, all positive, that sum to 10000 and include the fee owner. |
| SharingConfig.DecodeEncode | programs/staking/src/tests.rs:47-73 | Whatever the unused bytes, admin, flag and trailing bytes, an encoded account is well formed and reads back as the shares it was made from. |
| SharingConfig.EncodeDecode | programs/staking/src/guards.rs:449-499 | Every well-formed account is the encoding of the shares read from it. |
| SharingConfig.AcceptedExactly | programs/staking/src/guards.rs:449-511 | The accounts accepted for a mint are exactly the encodings of valid share lists. |
| SharingConfig.WriteSharingConfig | programs/staking/src/tests.rs:47-73 | The in-place printer turns any large enough buffer into the encoding, stated byte by byte, leaving the two unused bytes and everything after the last share alone. |

## Left out

- QuoteRuns.FittingIsExact: that nothing weaker than fitting will do is shown for totals up to 5534023222112865, the largest batch a claim can bring; above that it is shown for excess weight large enough, and `BatchCreditsExactly` gives the exact condition batch by batch.
- The creator-vault checks enter the runs of a single launch as the parameter `clean`; module `SolProgram` computes it from the two vaults of the direct route.
- WaitingFees.WaitingDecides: stated for amounts up to the 64-bit limit, which one account can hold.
- TightRun.CoverIsCertainExactly: stated, like its counterparts for the program and for quote pools, for up to 2767011611056433 such calls, for which the first batch of the run is one a claim can bring; a larger number is bounded by `BoundedSolvency` only from above.
- Address derivation, seeds, bumps and Anchor's account validation: a derived address is a constructor applied to its seeds, an account that must exist or must not exist is a map key, and the failures are `AccountMissing` and `AccountInUse`.
- Calls into Pump.fun, PumpSwap, the token and the system program: moves of balances, with the collected amount arbitrary. Tokens that charge a fee on transfer are not modelled.
- The shared-route claims: after the foreign distribution they run the same sweep, close and routing as the direct ones, and a quote claim is a batch either way. Here a distribution of SOL, or of wrapped SOL, is a deposit to the fee owner, or to its token account, followed by a claim that collects nothing; the shareholder accounts it needs are module `Shareholders`. Runs of a launch on the shared route are outside `DirectRoute` and `Joiners`; its two checks on joining weight are module `RouteGuard`.
- The accounts of a quote claim's receiver and of the protocol authority: what leaves the pool's vaults is returned as `paid`.
- The token program's sync of a wrapped-SOL account, which turns lamports sent to it into wrapped SOL: in `SolProgram` both arrive together, as `DepositWsol`.
- The user's token account: its balance is the parameter `funds` of a stake or an increase, and what an unstake returns is what the vault loses.
- Rent of position accounts, which the owner pays and gets back.
- The checks of `initialize_launch` on mint, vault and creator route, and those of `initialize_quote_rewards` on the mint.
- The upgrade-authority check of the two protocol claims, which depends on the loader's account alone.
- `last_reward_ts`, which nothing reads, and the bonding-curve reader, a single field read at a fixed offset.
- The multiplication in the parser that sizes the share table: 32 bits times 34 always fit the program's 64-bit `usize`.
- Building instruction bytes and fixed account lists, dispatch, scripts.
