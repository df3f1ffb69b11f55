# Subscription and dividend protocol: a verified model

The modelled program keeps users in an invite forest. A user pays for a subscription order, which
earns a static yield every day until its earnings reach the amount times a multiplier. Each yield
also pays generation rewards to the uplines, then community rewards by level differences, then a
one-hop peer reward. Every such reward fills the recipient's active orders first in, first out; what
finds no room is discarded. Withdrawals leave the withdrawable balance, slow the orders' rates down
and are paid on chain; chain deposits fill the account balance.

Money is an integer count of 10^-8 units, as stored. Order rates are hundredths of a percent, exit
multipliers tenths, reward and fee rates numerators over the common denominator `scale`. Rounding to
eight places is half away from zero (`Arith.RoundDiv`).

## Reading order

| files | content |
|---|---|
| `Arith`, `Text`, `Params`, `Forest`, `Volumes`, `Rate`, `Orders` | arithmetic, path text, parameters, invite forest and its traversals, small area, rate cycle, FIFO fill |
| `Community`, `CommunityLoops`, `CommunityReport`, `GapWeights`, `LineOfThree`, `FallingRates` | gap and peer rewards: specification, telescoping and what it needs, the loops, the rewards before rounding |
| `Tables`, `UseCases`, `Settlement` | the stored tables as a value, each use case and the settlement as a function on them |
| `Database`, `RecordUseCase`, `UserUseCase`, `SettlementSteps` | the same use cases as classes that update a database step by step, proved to end in those functions' tables |
| `Confluence`, `Accrual`, `OrderLife`, `SettlementBound`, `HalfUnits`, `HalfRates`, `CarriedRounding`, `Protocol` | laws of one settlement |
| `Runs`, `RunBooks`, `RunRates`, `OffGrid`, `RunLevels`, `PathIndex` | laws over any history of registrations, deposits, subscriptions, withdrawals, payouts, locks, settlements and legacy cancellations |
| `SettlementRule`, `GenerationRule`, `CommunityRule`, `SubscriptionRule`, `WithdrawalRule`, `RegistrationRule`, `AccountRule` | each operation once more in plain terms, without the functions the others are stated with: when it is accepted, who is paid what, and that nothing else moves |
| `Payout`, `PayoutDesk`, `PayoutRule` | payout state machine, and what a call gets done when nothing goes wrong |
| `DepositProtocol`, `ReplayOverlap`, `DepositSync` | chain deposits: interleaved repository calls, overlapping replays, and one syncer's rounds |
| `Config`, `ConfigRule`, `SubscribeTiers`, `Defaults` | business parameters as key/value rows, and the defaults |

`dafny verify dfyconfig.toml` checks the project.

## Assumptions

Stated as `requires` where they are used, because the program does not enforce them:

- community rates do not fall by level (`RisingRates`); `FallingRates.TelescopingExactlyForRisingRates` shows the telescoping needs exactly this;
- the rate range is 0 < min <= max with a positive step (`RateRange`), and for the closed form the step divides the range (`OnGrid`);
- generation and peer rates are not negative, multipliers are positive, the lowest subscription is unset or at least ten units (`SaneOrders`);
- tier levels lie in 1 to 9 (`TiersTo9`), which validation does enforce.

`Protocol.AgreedMeetsAssumptions` shows that the default parameters meet all of them. Parameters do
not change during a history. A refused transfer sent nothing, and a sent one has a non-empty hash.
For deposits, an insert or a balance update that reported failure took no effect.

## What the proofs found

- Telescoping fails for any pair of levels whose rates fall (`FallingRates.TwoUplinesOvershoot`), and two uplines are then due more than the highest rate above the source (`FallingRates.TwoUplinesOverpaid`).
- A withdrawal never raises an order above the rate it would have settled at, whatever the step. When the step does not divide the range it can turn an order to above its last settled rate, by bouncing at the minimum: `RunRates.WithdrawalNeverRaises` says exactly when, `OffGrid.TurnAboveLastSettled` is a history in which it happens.
- Registration ignores both a failed read of the inviter's path row and a failed write of the own one. `PathIndex.IndexExactOverRuns` shows the text index is exact if and only if neither ever happened; `PathIndex.UnreadInviterIsMissed` shows two registrations whose rows are all saved and one of which is not found.
- A success row stays unpaid, and later rounds skip it, if and only if the worker that had claimed it died, or failed to delete it after a failed credit, before paying (`DepositProtocol.LostExactlyWhenOwnerDies`).
- ADR 0007 promises that a deposit once credited is never booked again by a replay. A replay deletes the row it has read whatever it has become by then, so two overlapping replays of one skipped deposit credit it twice (`ReplayOverlap.TwoReplaysCreditTwice`); at most once is safe if and only if no two replays of an index stand between reading and deleting at once (`ReplayOverlap.OnceExactlyWhenSole`).
- A transaction hash that could not be stored lets the withdrawal be broadcast again (`Payout.TwoBroadcasts`): a row is broadcast exactly once per lost hash, plus once if it has one (`Payout.BroadcastsCounted`).
- Saving fewer multiplier bands or community levels than are stored has no effect on the others (`Config.SaveThenLoad`, `Config.ShorterSaveKeepsOldBand`).
- Half a unit per booked row does not bound the rounding of a settlement: base rows rounded up are carried on at the peer rate, where that can round up again. With rates over an even denominator, as decimals are, it covers every settlement of every history if and only if there is no peer reward (`CarriedRounding.CoveredExactlyWithoutPeers`). With one, `HalfUnits.NothingCarried` is a condition on the rates under which a given tier table is covered all the same; that a single table needs it is not claimed. With the carry the bound always holds (`SettlementBound.SettlementIsBounded`).
- A contract batch shorter than asked is passed over as if complete: its missing indices stay without a row when a later one gets one, and later rounds start after that (`DepositSync.Syncer.SyncChainDeposits` counts them).
- Older documents and the helper scripts describe admin review and cancellation of withdrawals, a strictly-higher break and the nearest graded upline as comparison; the model follows `record.go` and `community.go`.

## Model

| member | source | states |
|---|---|---|
| `RecordUseCases.RecordUseCase.SettleStaticOnce` | app/app/internal/biz/record.go:580-686 | the loop over a snapshot of active orders, with reloads, nested generation rewards and both community phases, ends in exactly the tables of `SettleOnce` for some order of the peer earners |
| `RecordUseCases.RecordUseCase.SettleOneOrder` | app/app/internal/biz/record.go:588-664 | one pass: skip exited rows, exit full ones, cap the yield at the room left, remember the rate used, advance or exit, then pay generations; the two per-user maps hold the pieces paid and their sums |
| `RecordUseCases.RecordUseCase.PayGenerationRewards` | app/app/internal/biz/record.go:796-839 | the walk over nearest uplines pays each one whose effective directs unlock its depth, on live tables, and keeps keys and links |
| `RecordUseCases.RecordUseCase.CreditOrderAcceleration` | app/app/internal/biz/record.go:843-893 | the FIFO loop terminates, leaves the tables of one credit and returns what was applied; each round exits an order or spends the rest |
| `RecordUseCases.RecordUseCase.ChunkAcceleration` | app/app/internal/biz/record.go:896-906 | the chunk is the smaller of amount and room, nothing for a full order, and the room is returned |
| `RecordUseCases.RecordUseCase.SettleCommunity` | app/app/internal/biz/record.go:688-794 | from the collected yields: regrade, phase 1, phase 2, for every tree and lock pattern |
| `RecordUseCases.RecordUseCase.LoadTree` | app/app/internal/biz/record.go:689-714 | the children, parent and personal maps filled user by user are the invite forest and the per-user order sums |
| `RecordUseCases.RecordUseCase.RegradeAll` | app/app/internal/biz/record.go:716-735 | every user gets the small area of the forest; only unlocked users get a new level |
| `RecordUseCases.RecordUseCase.PayCommunityBase` | app/app/internal/biz/record.go:759-777 | base lines are credited claimant by claimant and what was applied is noted per user |
| `RecordUseCases.RecordUseCase.PayPeers` | app/app/internal/biz/record.go:778-793 | peer lines, met in any map order, are credited after all base lines |
| `SettlementRule.SettleOrderServed` | app/app/internal/biz/record.go:588-664 | one order's turn, written out: gone or exited nothing, full exits, a yield that rounds to nothing only notes the rate; else amount times rate, rounded, at most the room left, goes to the row and its owner, is booked, moves the rate one step or exits the row at exactly its target, and pays the generations |
| `SettlementRule.OrdersServedInTurn` | app/app/internal/biz/record.go:588-664 | a settlement serves the orders of its snapshot so, one after the other |
| `GenerationRule.GenerationsServed` | app/app/internal/biz/record.go:796-839 | for all tables, users and yields: the upline at depth d gets the reward, as far as its active orders have room at its turn, exactly when d is within the configured depth and at least d distinct users it invited own an order; all others, and every upline of a reward-locked source, get nothing; the reward is rate times yield within half a unit |
| `SettlementRule.GradedAfter` | app/app/internal/biz/record.go:716-735 | afterwards every stored volume is the teams of the user's referrals but one largest, every unlocked level the highest whose threshold that volume meets, every locked one unchanged |
| `SettlementRule.CommunityPaid` | app/app/internal/biz/record.go:740-793 | everyone's base is its lines under the levels just stored, as far as there is room after the static phase, and the peer lines are those on that base under the same levels |
| `SettlementRule.SourcesAre` | app/app/internal/biz/record.go:740-757 | a yield is a community source exactly when its owner is not reward-locked |
| `SettlementSteps.FillRound` | app/app/internal/biz/record.go:851-877 | a round on the earliest active order keeps the result of the whole fill and, unless it spends everything, leaves one active order fewer |
| `Orders.FillExact` | app/app/internal/biz/record.go:843-893 | applied is the smaller of amount and active room, the rest is discarded, and the progress gained is exactly what was applied |
| `Orders.FillFrame` | app/app/internal/biz/record.go:850-878 | only progress and status of the recipient's active rows move; a sound row stays sound and exits for good |
| `Orders.FillOldestFirst` | app/app/internal/biz/record.go:850-878 | a younger order moves only when every older active order of the user has exited |
| `Orders.FillAdds` | app/app/internal/biz/record.go:843-893 | filling with a and then b leaves the orders of filling with a + b |
| `Orders.FillCommutes` | app/app/internal/biz/record.go:843-893 | fills for different users commute |
| `Tables.CreditAdds` | app/app/internal/biz/record.go:843-893 | crediting a then b leaves the orders, balances and total applied of crediting a + b |
| `Tables.CreditCommutes` | app/app/internal/biz/record.go:843-893 | credits commute, whoever receives them |
| `Tables.CreditOrderIrrelevant` | app/app/internal/biz/record.go:759-792 | a batch of credits leaves the same orders and balances in any order |
| `Confluence.LinesAsOneCredit` | app/app/internal/biz/record.go:763-776 | a claimant's lines, credited one by one with overflow discarded, are one credit of their total |
| `Confluence.ClaimantOrderIrrelevant` | app/app/internal/biz/record.go:759-777 | the base phase leaves the same orders and balances for any order of the claimants |
| `Confluence.BaseIsCapped` | app/app/internal/biz/record.go:759-777 | each user's applied base is the smaller of its claims and its active room when the phase began, whoever was served before |
| `Confluence.MapOrderIrrelevant` | app/app/internal/biz/record.go:778-793 | two settlements that differ only in the map order of the peer earners leave the same orders and balances |
| `Forest.Tree.SubtreeOrderExact` | app/app/internal/biz/community.go:129-139 | the stack traversal meets every member of a subtree exactly once and nobody else |
| `Forest.Tree.DownlineOrderExact` | app/app/internal/biz/community.go:246-290 | over all legs of u the traversal meets y exactly once when u lies on y's parent chain, and never otherwise |
| `Forest.Tree.SubtreeSum` | app/app/internal/biz/community.go:116-126 | a sum along the stack traversal equals the sum over everyone whose parent chain reaches the root |
| `Forest.Tree.LineagePrefix` | app/app/internal/biz/user.go:237-244 | the root-first lineage of v is a prefix of u's exactly when u is in v's subtree |
| `CommunityLoops.CollectSubtreeIDs` | app/app/internal/biz/community.go:129-139 | the explicit-stack loop terminates and lists the subtree in traversal order |
| `Volumes.SubtreeVolume` | app/app/internal/biz/community.go:116-126 | the explicit-stack loop terminates and returns the volume of everyone in the subtree |
| `Volumes.MaxLegIndex` | app/app/internal/biz/community.go:64-75 | the first largest leg, -1 without legs |
| `Volumes.SmallAreaVolume` | app/app/internal/biz/community.go:48-61 | everything but one largest leg, zero with fewer than two legs |
| `Volumes.SmallAreaGrows` | app/app/internal/biz/community.go:48-75 | legs that grow and legs that are added never shrink the small area |
| `Params.LevelFromVolume` | app/app/internal/biz/community.go:11-23 | the highest level whose threshold is met, for any order of the tier rows |
| `CommunityLoops.UnderCommunityBreak` | app/app/internal/biz/community.go:93-113 | the upward loop answers whether a level at or above the claimant's lies strictly between |
| `CommunityLoops.MaxGradedRateBetween` | app/app/internal/biz/community.go:297-318 | the rate of the highest level strictly between source and claimant |
| `CommunityLoops.ListLegLines` | app/app/internal/biz/community.go:246-290 | the loop with break, comparison and the direct-referral exception lists the gap shares of the leg |
| `CommunityLoops.ListCommunityBaseLines` | app/app/internal/biz/community.go:233-292 | all legs together give the gap share of every yield below the claimant, in traversal order |
| `CommunityLoops.ListPeerLines` | app/app/internal/biz/community.go:350-389 | in whatever order the map is met, the lines are those of the eligible earners in that order |
| `CommunityRule.BaseLinesDue` | app/app/internal/biz/community.go:233-318 | in every forest and for all levels and yields: a base line exists exactly when its claimant is an upline of the source, of a level above every level between them, whose rate exceeds the one of the highest level between; it pays that difference times the yield, to the nearest unit |
| `CommunityRule.PeerLinesDue` | app/app/internal/biz/community.go:350-389 | in every forest, for all levels, gains and map orders: a peer line from x to r exists exactly when r invited x, both levels reach the minimum, r's is not above x's, and rate times base rounds to something |
| `CommunityRule.PeerLinesPay` | app/app/internal/biz/community.go:350-389 | it is the only line from x and pays rate times base, to the nearest unit |
| `Community.DirectReferralRate` | app/app/internal/biz/community.go:254-268 | the full-rate branch for a direct referral equals the general gap rate, so it never changes a result |
| `Community.GapRatesTelescope` | app/app/internal/biz/community.go:93-113 | with rates that do not fall by level, the gap rates paid on one source add up to exactly the rate of the highest level above it |
| `FallingRates.TelescopingExactlyForRisingRates` | app/app/internal/biz/community.go:297-318 | that sum holds for all invite forests and levels if and only if rates do not fall by level, which validation does not enforce |
| `FallingRates.TwoUplinesOvershoot` | app/app/internal/biz/community.go:297-318 | for any falling pair of rates the line of users 1, 2, 3 breaks the sum |
| `FallingRates.TwoUplinesOverpaid` | app/app/internal/biz/community.go:233-318 | and its base lines together are due more on one yield than the rate of the highest level above it |
| `Community.AtMostNineEarners` | app/app/internal/biz/community.go:233-292 | at most nine uplines earn on one source |
| `Community.SourceCost` | app/app/internal/biz/community.go:233-292 | after rounding, the base paid on one yield is within half a unit per earner of yield times the highest rate above |
| `Community.BaseLinesTotal` | app/app/internal/biz/community.go:233-292 | a claimant's lines total the rounded gap shares over everyone below it |
| `Community.ClaimsBySource` | app/app/internal/biz/community.go:233-292 | summing claims by claimant walking down equals summing them by source walking up |
| `Community.AllClaimsNear` | app/app/internal/biz/community.go:233-292 | all base claims together are within half a unit for each earner and yield, either way, of the yields times the rates of the highest levels above them |
| `GapWeights.WeightAbove` | app/app/internal/biz/community.go:233-318 | before rounding, all claimants of one source together are due exactly its yields times the rate of the highest level above it |
| `GapWeights.AllWeightsBound` | app/app/internal/biz/community.go:233-318 | before rounding, all claims together are due at most the top rate of all yields |
| `CommunityReport.ComputeAllCommunityRewards` | app/app/internal/biz/community.go:392-426 | every user's base is its claim total and its peer reward the sum over its direct referrals, although earners are met in map order |
| `CommunityReport.ReportSources` | app/app/internal/biz/community.go:392-426 | each positive yield is a source of the report once, nothing else is |
| `CommunityReport.PeerLinesAddUp` | app/app/internal/biz/community.go:350-389 | for any map order a recipient's peer lines add up to what its eligible direct referrals owe it |
| `SettlementBound.SettlementIsBounded` | app/app/internal/biz/record.go:580-839 | the total balance increase is at most S (1 + D g + top (1 + p)) plus half a unit for each generation, base and peer row the settlement books, the base rows' share carried on at the peer rate |
| `CarriedRounding.HalfUnitPerRowIsTooLittle` | app/app/internal/biz/record.go:759-793 | for every even denominator of the rates and every positive peer rate: three registrations, deposits, four subscriptions and graded uplines, after which one settlement of two orders gains more than half a unit a booked row allows |
| `CarriedRounding.CoveredExactlyWithoutPeers` | app/app/internal/biz/record.go:580-839 | with rates over an even denominator, half a unit a booked row covers every settlement of every history, whatever the other parameters, if and only if the peer rate is zero |
| `HalfUnits.CoveredWhenNothingCarried` | app/app/internal/biz/record.go:580-839 | on all tables half a unit a booked row covers a settlement when no gap rate between two levels rounds a yield up so far that this and the peer reward on it exceed half a unit |
| `Accrual.SettlementAccrues` | app/app/internal/biz/record.go:580-893 | per user, order progress, balance and reward entries move by the same amount, nothing else is booked; every sound order stays sound, none loses progress or comes back |
| `OrderLife.StaticAtMostOnce` | app/app/internal/biz/record.go:588-665 | an order of the snapshot earns static at most once, and not at all if another order's generation reward exited it first |
| `OrderLife.SettlementStep` | app/app/internal/biz/record.go:588-665 | over a whole settlement an order takes at most one rate step; with no id filter every active order is served its yield or exits |
| `OrderLife.ActiveIdsExact` | app/app/internal/data/location.go:102-116 | the snapshot lists every active (and asked for) order once, ascending |
| `Settlement.SettlementShape` | app/app/internal/biz/record.go:580-794 | links, paths, amounts, targets and withdrawals survive a settlement |
| `Protocol.SettlementGrades` | app/app/internal/biz/record.go:716-735 | afterwards every stored volume is the small area of the tree as it was before the run, every unlocked stored level the grade of that volume, every locked one unchanged |
| `Rate.AdvanceStaysInRange` | app/app/internal/biz/rate.go:40-75 | any positive step keeps an in-range rate in range, on the grid or not |
| `Rate.AdvanceIsNextPhase` | app/app/internal/biz/rate.go:40-75 | on the grid one advance is one step along the triangle |
| `Rate.TriangleWave` | app/app/internal/biz/rate.go:35-75 | closed form of the k-th rate |
| `Rate.PhasesDiffer` | app/app/internal/biz/rate.go:40-75 | 2n is the exact period; (max, up) and (min, down) are unreachable |
| `Rate.PeriodSum` | app/app/internal/biz/rate.go:40-75 | one period sums to n (min + max) |
| `Rate.TurnBound` | app/app/internal/biz/rate.go:80-90 | for every positive step a turn never raises the rate of an order above the one it would settle at; above the last settled rate exactly when that lies strictly between the minimum and one step above it |
| `Rate.StaysTame` | app/app/internal/biz/rate.go:35-90 | opening, settling, lifting the flag and turning keep what that needs, on the grid or not |
| `Rate.TurnNeverRaises` | app/app/internal/biz/rate.go:80-90 | on the grid a turn stays on the cycle and never settles above the last settled rate |
| `Rate.TurnOnce` | app/app/internal/biz/record.go:333-351 | a second withdrawal before the next settlement changes nothing |
| `Rate.MultiplierForAmount` | app/app/internal/biz/rate.go:16-32 | the first-match loop prices an amount by its band |
| `Rate.BandMultiplierIsFirst` | app/app/internal/biz/rate.go:16-32 | the pricing band is the first open or larger one |
| `RecordUseCases.RecordUseCase.CreateLocation` | app/app/internal/biz/record.go:230-267 | every check in the source's order with its error; on success deduction and a fresh order |
| `RecordUseCases.RecordUseCase.CreateWithdraw` | app/app/internal/biz/record.go:275-364 | every check in the source's order with its error; on success deduction, queued row, rate turns and ledger row |
| `RecordUseCases.RecordUseCase.TurnRates` | app/app/internal/biz/record.go:333-351 | the loop turns exactly the user's active orders, each once |
| `RecordUseCases.RecordUseCase.CancelAllPendingWithdraws` | app/app/internal/biz/record.go:382-402 | every pending row is cancelled and refunded exactly once, newest first, and counted |
| `AccountRule.CancellationIs` | app/app/internal/biz/record.go:382-402 | every pending row is cancelled, its owner's balance grows by the pending amounts, and no other row, user or table moves |
| `SubscriptionRule.SubscriptionAccepted` | app/app/internal/biz/record.go:230-267 | accepted exactly when the amount is positive, at least the minimum and within some band, the user is known and the account covers it; refused as invalid exactly when the amount is not on offer |
| `SubscriptionRule.SubscriptionTerms` | app/app/internal/biz/record.go:230-267 | the account pays the amount and one fresh order opens with the multiplier of the amount's first open or larger band, target amount times multiplier, at the lowest rate going up; nothing else moves |
| `SubscriptionRule.PricedOverRuns` | app/app/internal/biz/rate.go:16-32 | every order of every history has the target of its own amount's first band |
| `WithdrawalRule.WithdrawalAccepted` | app/app/internal/biz/record.go:275-332 | accepted exactly when the amount is positive, the balance covers it, payouts are set up and the amount less the fee is within the cap |
| `WithdrawalRule.WithdrawalTerms` | app/app/internal/biz/record.go:275-364 | fee and paid part make up the amount, the fee is the fee rate of it within half a unit; balance, queue, ledger and the turned orders, written out; nothing else moves |
| `WithdrawalRule.NetOverRuns` | app/app/internal/biz/record.go:309-331 | every row of every history is on such terms and keeps them |
| `WithdrawalRule.BroadcastsAreNet` | app/app/internal/biz/payout.go:74-98 | over every history each broadcast pays a withdrawal its amount less the fee, at most the cap, and with a fee rate from 0 to 1 between nothing and the amount |
| `RecordUseCases.RecordUseCase.AreaVolumes` | app/app/internal/biz/record.go:1059-1095 | total, largest leg and small area from path-prefix sums |
| `UserUseCases.UserUseCase.Authorize` | app/app/internal/biz/user.go:193-245 | existing, disabled, genesis, missing, own and unknown invite; a new user gets the inviter's path and its own id |
| `RegistrationRule.InvitedJoins` | app/app/internal/biz/user.go:193-232 | a new address other than the genesis one joins under the one user whose address the invite is; without invite, with its own or an unknown one it is refused |
| `RegistrationRule.GenesisJoins` | app/app/internal/biz/user.go:204-208 | the genesis address joins without inviter |
| `RegistrationRule.KnownAddress` | app/app/internal/biz/user.go:193-202 | a known address registers nobody, and is refused when disabled |
| `RegistrationRule.UniqueOverRuns` | app/app/internal/biz/user.go:193-232 | over any history no two users share an address |
| `RegistrationRule.UniqueFromEmpty` | app/app/internal/biz/user.go:193-232 | so in every history that began with empty tables |
| `AccountRule.UnknownAddress` | app/app/internal/biz/user.go:334-425 | an unknown address is refused and changes nothing |
| `AccountRule.RechargeIs` | app/app/internal/biz/user.go:403-425 | a recharge adds a positive amount to the account of the user with the address and books it |
| `AccountRule.AccountSetTo` | app/app/internal/biz/user.go:340-378 | the account becomes the target and the difference is booked as deposit |
| `AccountRule.WithdrawableSetTo` | app/app/internal/biz/user.go:334-378 | the balance becomes the target and the difference is booked as adjustment |
| `AccountRule.ChainDepositIs` | app/app/internal/biz/record.go:1150-1188 | at least five whole USDT for a known user are credited in money units |
| `AccountRule.SwitchesAre` | app/app/internal/biz/record.go:909-925 | levels 0 to 9 are stored and locked; the other switches change one flag |
| `Runs.ApplyValid` | app/app/internal/biz/user.go:208-232 | every operation keeps keys, foreign keys and the older-inviter discipline, hence an acyclic forest |
| `RunBooks.BooksOverRuns` | app/app/internal/biz/record.go:230-893 | double entry per user over any history: progress equals reward entries; withdrawable equals rewards plus adjustments less standing withdrawals; account plus amounts opened equals deposits |
| `RunBooks.BooksFromEmpty` | app/app/internal/biz/record.go:230-893 | so do they after every history that began with empty tables |
| `RunBooks.OrdersSoundOverRuns` | app/app/internal/biz/record.go:850-878 | in every reachable state active orders are strictly below their target and exited ones exactly at it |
| `RunBooks.LifetimeEarningsCapped` | app/app/internal/biz/record.go:588-665 | a user's lifetime reward entries never exceed the targets of the orders it opened |
| `RunBooks.EarningsCappedFromEmpty` | app/app/internal/biz/record.go:588-665 | so they do after every history that began with empty tables |
| `RunRates.RatesInRangeOverRuns` | app/app/internal/biz/rate.go:40-90 | every order's rate stays within the configured range |
| `RunRates.RatesOnCycleOverRuns` | app/app/internal/biz/record.go:610-646 | under any interleaving of settlements and withdrawals every order stays on the cycle |
| `RunRates.WithdrawalNeverRaises` | app/app/internal/biz/record.go:333-351 | after any history and for every positive step a withdrawal raises no order's next rate; it turns an order to above its last settled rate if and only if that lies strictly between the minimum and one step above it, capped by the maximum |
| `RunRates.RatesTameOverRuns` | app/app/internal/biz/rate.go:35-90 | over any history a rising order stands at a bound or at least one step above the minimum, and turning it would not raise it |
| `RunRates.WithdrawalOnGrid` | app/app/internal/biz/record.go:333-351 | on the grid a withdrawal never turns an order to above its last settled rate |
| `OffGrid.TurnAboveLastSettled` | app/app/internal/biz/record.go:333-351 | a history with step 0.30 between 0.60 and 1.00 after which a withdrawal turns an order settled at 0.70 to 0.90 |
| `RunRates.OneTurnPerSettlement` | app/app/internal/biz/record.go:333-351 | until the next settlement nothing after the first withdrawal moves the user's active orders |
| `RunRates.ExitsInTime` | app/app/internal/biz/record.go:600-649 | enough full settlements to cover the remaining target at the lowest rate have exited the order, whatever happens in between |
| `RunLevels.VolumeGrows` | app/app/internal/biz/record.go:714-721 | registrations and subscriptions never shrink anyone's small area |
| `RunLevels.LevelsNeverFall` | app/app/internal/biz/record.go:693-734 | over any history no small area shrinks and no unlocked user's recomputed level falls |
| `Protocol.StoredLevelsNeverFall` | app/app/internal/biz/record.go:716-735 | from one settlement to any later one no stored volume shrinks and no stored level of a user unlocked at both falls |
| `Protocol.GradesTo9OverRuns` | app/app/internal/biz/record.go:909-917 | every stored level stays within 0 to 9 |
| `PathIndex.KeptSpells` | app/app/internal/biz/user.go:237-244 | where every row was written after the inviter's row was read, each path row spells its user's lineage |
| `PathIndex.KeptOverRuns` | app/app/internal/biz/user.go:237-244 | over any history the rows are so written if and only if every registration that created a user saved its row and, with an inviter, had read the inviter's |
| `PathIndex.ExactIffKept` | app/app/internal/data/location.go:221-229 | path(u) = path(v) or starts with path(v)"," exactly when u is in v's subtree, for all u and v, if and only if every row is so written |
| `PathIndex.IndexExactOverRuns` | app/app/internal/biz/user.go:237-244 | after any history from complete rows, as an empty system has them, the text index answers subtree queries exactly if and only if no registration failed to read its inviter's row or to save its own |
| `PathIndex.UnreadInviterIsMissed` | app/app/internal/biz/user.go:237-244 | two registrations with every row saved, one inviter row unread: the invited user is not found under its inviter |
| `Text.TerminatedPrefix` | app/app/internal/data/location.go:221-229 | on comma-terminated id lists text prefix is list prefix, so "1,5" never captures "1,50" |
| `PathIndex.PathVolumeIsSubtree` | app/app/internal/biz/record.go:1059-1068 | where the index is exact, the volume queried by path is the subtree volume collected by links |
| `PathIndex.ShownIsGraded` | app/app/internal/biz/record.go:1072-1095 | where the index is exact, the small area shown to a user is the one settlement grades by, and total is largest leg plus small area |
| `Protocol.AgreedMeetsAssumptions` | app/app/internal/biz/params.go:60-90 | the default parameters meet every assumption made on parameters here |
| `Defaults.AgreedIsDefault` | app/app/internal/biz/params.go:60-90 | the numbers used for the default parameters are what the stored default texts say |
| `Protocol.AgreedSettlementBound` | app/app/internal/biz/params.go:60-90 | after any history from empty tables, one settlement pays at most 2.16 S plus half a unit per generation row and per peer row and 0.55 units per base row |
| `Protocol.AgreedOrdersExit` | app/app/internal/biz/params.go:60-90 | after any history no order survives 501 full settlements |
| `PayoutCalls.PayoutDesk.ProcessWithdrawPayout` | app/app/internal/biz/payout.go:32-106 | checks, claim, broadcast, hash and confirmation in the source's order, for every answer of chain and database |
| `PayoutCalls.PayoutDesk.ConfirmPayoutCall` | app/app/internal/biz/payout.go:108-130 | pass is stored exactly on a successful receipt |
| `PayoutCalls.PayoutDesk.ConfirmWithdrawPayout` | app/app/internal/biz/payout.go:153-170 | only a row in doing with a hash is confirmed |
| `PayoutCalls.PayoutDesk.RunPayoutQueue` | app/app/internal/biz/payout.go:133-150 | the queue loop is the processing of each queued row in turn, and returns how many of them finished |
| `PayoutCalls.PayoutDesk.CasClaimPayout` | app/app/internal/data/withdraw.go:155-166 | rewarded or approved becomes doing, nothing else moves |
| `PayoutCalls.PayoutDesk.MarkPass` | app/app/internal/data/withdraw.go:177-189 | doing with a hash becomes pass, nothing else moves |
| `PayoutRule.HashConfirmed` | app/app/internal/biz/payout.go:53-60 | a claimed row with a hash ends in pass on a successful receipt, without a broadcast, and stays as it is on any other |
| `PayoutRule.PaidInOneCall` | app/app/internal/biz/payout.go:62-106 | a payable row without a hash is broadcast in that very call for its credited amount and ends in pass on a successful receipt |
| `PayoutRule.NothingDone` | app/app/internal/biz/payout.go:32-72 | paid, cancelled, rejected and pending rows, rows above the cap without a hash and calls that are not set up change nothing |
| `PayoutRule.PaymentBreaksOff` | app/app/internal/biz/payout.go:62-103 | what each failing step leaves behind: still queued, claimed and unsent, or sent with the hash lost |
| `PayoutRule.RunReports` | app/app/internal/biz/payout.go:133-150 | a run reports how many calls answered without an error, and is blocked exactly when payouts are off or have no cap |
| `PayoutRule.QueueExact` | app/app/internal/data/withdraw.go:155-166 | a queue run works the queued rows, oldest first, at most the limit |
| `PayoutRule.FairQueuePays` | app/app/internal/biz/payout.go:133-150 | when everything works every payable row of the queue ends in pass |
| `Payout.PayoutsSafe` | app/app/internal/biz/payout.go:32-170 | after any calls every broadcast pays exactly the credited amount and at most the cap, a stored hash is that of such a broadcast, and a passed row has a successful receipt for its stored hash |
| `Payout.PayoutsSafeFromEmpty` | app/app/internal/biz/payout.go:32-170 | all of it holds after any calls that began without withdrawals |
| `Payout.BroadcastsCounted` | app/app/internal/biz/payout.go:74-98 | a row was broadcast exactly once per hash that could not be stored, plus once if it has a hash; so at most once if and only if these are at most one |
| `Payout.PayoutsMoveForward` | app/app/internal/biz/payout.go:32-170 | status only moves rewarded or approved, doing, pass; a stored hash is never replaced and no broadcast follows it |
| `Payout.BroadcastAtMostOnce` | app/app/internal/biz/payout.go:74-98 | when no hash of a row was lost it is broadcast at most once |
| `Payout.LostHashIsSentAgain` | app/app/internal/biz/payout.go:74-98 | a payable row whose first hash is lost is broadcast again by the next call on it |
| `Payout.TwoBroadcasts` | app/app/internal/biz/payout.go:74-98 | from no rows at all: one row, one lost hash, two broadcasts |
| `Payout.CallsMoveRowsForward` | app/app/internal/data/withdraw.go:155-189 | in the table a call moves only status and hash, and the status forward |
| `DepositProtocol.CreditedAtMostOnce` | app/app/internal/biz/record.go:1132-1270 | however rounds, replays, failed writes and crashes interleave at repository calls, an index is credited at most once if no two replays stand between reading and deleting its row at the same time |
| `ReplayOverlap.OnceExactlyWhenSole` | app/app/internal/biz/record.go:1211-1270 | for every history: at no moment can the replays under way credit the index twice, if and only if at no moment two of them stand between reading and deleting its row |
| `ReplayOverlap.CreditsCounted` | app/app/internal/biz/record.go:1132-1270 | for every history with any number of replays: credits, claims in hand, claims whose worker died and claims undone too late are together exactly the success row, if any, and the success rows replays deleted |
| `ReplayOverlap.TwoReplaysCreditTwice` | app/app/internal/biz/record.go:1244-1265 | one skipped deposit, two replays that both read it before either deletes it: credited twice |
| `DepositProtocol.LostExactlyWhenOwnerDies` | app/app/internal/biz/record.go:1150-1188 | for every history without such an overlap: a success row nobody is busy with is unpaid if and only if the worker that had claimed it died, or failed to delete it, before paying |
| `DepositProtocol.CreditedExactlyWhenSettled` | app/app/internal/biz/record.go:1150-1188 | for every history without such an overlap: an index was credited if and only if it has a success row nobody is busy with and no worker died holding it |
| `DepositProtocol.CrashCanLoseACredit` | app/app/internal/biz/record.go:1171-1174 | the shortest loss: claimed, then dead |
| `DepositSync.SyncerCreditsAtMostOnce` | app/app/internal/service/deposit.go:226-366 | whatever a syncer has done, no index was credited twice |
| `DepositSync.Syncer.GetEthUserRecordLast` | app/app/internal/data/eth_record.go:34-44 | the largest index with a row, -1 on an empty table |
| `DepositSync.Syncer.ClaimSkip` | app/app/internal/biz/record.go:1132-1147 | a skipped row is inserted unless the index exists |
| `DepositSync.Syncer.CreditChainDeposit` | app/app/internal/biz/record.go:1150-1188 | success means row, balance and one payment together; failure leaves balances alone and, when the undo works, the rows too |
| `DepositSync.Syncer.HandleRecord` | app/app/internal/service/deposit.go:290-353 | when the calls work, a fresh index is credited exactly when the address belongs to a user with an account and the amount is at least five, skipped as unregistered exactly when it belongs to nobody, as below the minimum exactly when the amount is lower, and an existing index as already there; a credited record pays its own amount to that user, no other answer pays anything; every record not stuck leaves its index with a row |
| `DepositSync.Syncer.SyncBatch` | app/app/internal/service/deposit.go:285-354 | a batch in which nothing fails credits exactly the records that are due, in order; any batch keeps the accounting laws, pays for exactly the records it counts as credited, and stops on deadline, budget or a record that cannot be parked |
| `DepositSync.Syncer.SyncChainDeposits` | app/app/internal/service/deposit.go:226-366 | credited + skipped + indices missed in short contract batches = cursor advance, reasons sum to skipped, pulled exceeds them only by an unparkable record, pulled stays in budget; the payments are those of the credited records, in order; a round that parks every record and started on rows without a hole leaves none if and only if it missed no index; caught up means the cursor reached the end; when nothing fails and no deadline passes it handles the records right after the cursor, credits exactly those due and ends caught up or at the cap |
| `DepositSync.Syncer.SyncChainDepositsCatchUp` | app/app/internal/service/deposit.go:163-224 | terminates within 500 pulled, the laws hold of the totals and the payments, and with full batches caught up means every index below the length has a row; when nothing fails it ends caught up or at 500 |
| `DepositSync.Syncer.ReplaySkippedChainDeposit` | app/app/internal/biz/record.go:1211-1270 | when the calls work a skipped row is credited, once, exactly when its address belongs to a user with an account and the amount is at least five, else it says why not; every other answer moves no balance and no other row, and a failure with working undo and restore leaves the rows as they were |
| `Config.SaveThenLoad` | app/app/internal/data/params.go:57-75 | saving p over stored rows and reading back gives p (community tiers by descending level) if and only if p has 1 to 20 bands with non-blank multipliers and a level from 1 to 9, and no stored band or level is left over |
| `Config.RoundTrip` | app/app/internal/biz/params_config.go:17-139 | on an empty table: flattening and aggregating gives p back if and only if p is storable |
| `Config.ShorterSaveKeepsOldBand` | app/app/internal/data/params.go:57-75 | a concrete loss: two bands saved over the default three read back as three |
| `Config.ListedIsRearranged` | app/app/internal/biz/params_config.go:39-51 | with distinct levels from 1 to 9 the tiers read back are the saved ones, rearranged |
| `Config.SpellingInjective` | app/app/internal/biz/params_config.go:22-50 | no two settings share a key text |
| `Config.AtoiOfItoa` | app/app/internal/biz/params_config.go:87-96 | 64-bit integers survive Itoa and Atoi |
| `ConfigRule.AtoiReads` | app/app/internal/biz/params_config.go:87-96 | an integer reads as digits, plain or signed, within 64 bits, and as nothing else |
| `Config.FlattenBusinessParams` | app/app/internal/biz/params_config.go:17-53 | the two loops produce the ordered rows |
| `Config.AggregateBusinessParams` | app/app/internal/biz/params_config.go:74-139 | the loops with their early errors and default fallbacks compute the aggregate |
| `ConfigRule.SettingsRead` | app/app/internal/biz/params_config.go:74-139 | every setting read is its stored row or the default text, the lowest rate also by its older key; bands are numbers 1 up to the first unstored one, tiers the levels stored; without any the defaults |
| `ConfigRule.ReadingFails` | app/app/internal/biz/params_config.go:74-139 | reading fails exactly when a number is no 64-bit integer, a band has no multiplier or a blank one, or a level is half stored |
| `SubscribeTiers.ParseSubscribeTiers` | app/app/internal/biz/params.go:181-213 | trimmed, cut at the commas, each piece trimmed: refused exactly when a piece is neither blank nor a positive decimal; otherwise every amount once, ascending |
| `Text.TrimExact` | app/app/internal/biz/params.go:182-190 | trimming takes white space off both ends and nothing else |
| `Text.SplitExact` | app/app/internal/biz/params.go:186 | cutting at the commas loses nothing and leaves no comma |
| `SubscribeTiers.PartsAre` | app/app/internal/biz/params.go:186-197 | a piece counts for nothing when blank, else as what its trimmed text reads as |
| `SubscribeTiers.SortedBySwaps` | app/app/internal/biz/params.go:205-211 | the swap loop sorts distinct amounts and loses none |
| `SubscribeTiers.AscendingUnique` | app/app/internal/biz/params.go:181-213 | the result does not depend on order or repetition in the text |

## Left out

- Database failures inside subscription, withdrawal and settlement: each of these calls is one step that succeeds or fails its checks; a failure between its writes is modelled only for chain deposits, payouts and path rows.
- Interleavings of a withdrawal or subscription with a running settlement: the program does not serialise them and promises nothing.
- Several processes of the program paying out at once: its lock is per process, so the payout calls here never overlap.
- Soft state: result counters (they depend on map order), remark texts, the order a ledger row points to, timestamps, payout error texts.
- Column widths, and amounts or volumes of more than eight decimals; order and withdrawal ids without auto-increment gaps (user ids have them).
- Address and invite normalisation, signatures, nonces and tokens: registration starts from accepted, normalised text.
- The once-a-day settlement claim, dashboards, paging, line locks and the unused helpers `LegBlocked` and `NearestSameLevelUpline`.
- Contract and chain calls, deadlines and schedules: their answers are arbitrary values, a deadline an arbitrary stop; a contract batch has consecutive indices and is at most as long as asked.
- Reading the numeric parameters out of their texts, except the integers; validation of edited parameters.
- ParseSubscribeTiers: how a trimmed piece reads as a decimal is a parameter; equal amounts are taken to have equal texts.
- CountEffectiveDirectReferrals and the other queries are given by what they select, not by how the database finds it.
- SettleStaticOnce: returns the order in which the peer earners were met instead of the result counters.
- MapOrderIrrelevant: compares orders and balances, not the order of the ledger rows, which does depend on the map order.
