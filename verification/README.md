# Dike: verified models of the market ledger, its resolution and its indexer

Dike is a prediction market on Soroban. Collateral sits in one vault; every market mints complete sets of YES and
NO tokens against it, a constant-product pool trades them, users draw child credit on a parent position to trade in
another market, and an oracle with bonds and a council decides the outcome. An off-chain indexer copies the
contracts' events into a database. This project models all of that in Dafny and proves what the parts keep together,
over every run.

## How it is built

Each contract appears twice. A state datatype with one function per contract call says what the call does, with the
source's branches, constants and order of errors. A class holds the storage as fields, and its methods update those
fields in the source's order; every method is proved to reach exactly the state and value of its function, or its
error. The laws are then lemmas about the functions, and `DikeSystem.System.Invoke` carries them to the objects: one
transaction is one step of the ledger machine, and a failed one leaves nothing behind.

| files | what they hold |
|---|---|
| Basics, DikeTypes, DikeMath, PoolQuotes | shared records and errors; basis points, shares, the integer square root; the buy and sell quotes |
| MapSums | sums over storage maps |
| MarketRegistry, TokenLedger, VaultLedger, AmmPools | the four collateral contracts as functions, with the registry's class |
| RegistryTerms, VaultTerms, LiquidityTerms, LedgerTerms, LedgerAcceptance, LedgerLiquidations, LedgerRedemptions | the terms of every operation in numbers: when it is accepted, what it moves, and that it moves nothing else |
| VaultBooks, VaultClaims, VaultDebts, VaultWaterfall, Haircut, LpLaws | laws of single calls: custody, what each market answers for, debts, the waterfall, the haircut, provider fees |
| LedgerCalls | every transaction on the collateral side, and runs of them |
| LedgerMoney, LedgerCustody, LedgerPools, LedgerTokens, LedgerRecord, LedgerEscrow | what every call keeps |
| LedgerLaws, LedgerDebts, LedgerLimit, LedgerCash, LedgerParties | laws of all runs, of one-lender runs, of the 60% limit, of runs without credit, and whom a call can touch |
| LedgerCover, LedgerPayable | when the collateral covers what markets may still pay, over all runs, and what a covered vault can pay |
| LedgerChains | when a market is both parent and child for a user |
| LedgerWaterfall | when the promise of the waterfall is kept, over all runs |
| LedgerTrades | what a trade or a liquidation does to the trader |
| LedgerFlows | what flows into and out of each pool over all runs |
| JointRuns, JointLaws | the whole system on one clock, and the laws that need both sides |
| LedgerEffects, Stage | single calls as equations, and short runs of the whole system built from them |
| WaterfallStory, CoverStories, LegStories, ChainStories, SaleStory | runs in which a documented promise fails |
| CollateralVault, DikeAmm, DikeSystem | the classes of tokens, vault, pools and the whole system |
| CouncilVoting, BondSplits, CodOracle | the council, the fee manager and the oracle as functions, with the council's laws |
| ResolutionLaws, ResolutionBonds, ResolutionVerdict, ResolutionCouncil | laws of all resolution runs, the bonds under a request's number, the way from the votes to the market, and the council's own laws inside them |
| ResolutionTimes, ResolutionPayouts, CouncilRewards | what happens when in all resolution runs, who is paid what by a verdict, and what a vote is worth |
| ResolutionContracts | the classes of council and oracle |
| Indexer, IndexerProgress | the paging loop, the checkpoint rule and the worker, and how ticks reach the tip |

A run of `LedgerCalls` starts from an empty system and is any sequence of calls, by anyone, at any time. The
resolution contracts occur in it as arbitrary registry moves and bond calls, so its laws do not depend on how markets
are resolved. A run of `CodOracle` is the mirror image: requests, proposals, disputes, votes and verdicts, with
everything else in the vault as one arbitrary change that leaves bonds alone; `LedgerEscrow.ApplyEscrow` shows that
this is what the collateral side does. A run of `JointRuns` is both at once, on one registry, one vault and one clock;
`JointRuns.JointIsBoth` shows that it is a run of either, so all laws hold in it. The runs that show a promise of the
vault failing are of this kind, and each is proved to be accepted transaction by transaction: markets are decided by the
oracle, after they expired and the dispute window passed.

Four counters are kept for the laws only and are not storage of the contracts: a market's redemption `History`, the
tokens `burned`, the rewards `paid` by a case, and what was `paid` out of bonds to whom. No branch reads them.

## Where the code and its documentation differ

The model follows the code. In each of these cases a documented promise fails, and the project proves where the line
runs.

- The design promises that the vault's collateral covers all redeemable claims
  (dike-contracts/PLAN.md:779, 2125, 2360). `LedgerCash.WinnersPaidInFull`, `RefundsPaidInFull` and
  `InvalidPaidInFull` prove it for every run without child credit. With credit it is false, in two ways. A redeemer's
  own debt is kept back on paper and raises `refundable`, while the money it stands for left through the child market
  (`CoverStories.CreditBreaksFullCover`). And a redeemer's debt upstream is taken from `refundable` without a guard, so
  that a market pays upstream what it no longer has and its `refundable` goes below zero
  (dike-contracts/contracts/collateral_vault/src/lib.rs:1276-1281, `CoverStories.OverdraftBreaksFullCover`).
  `LedgerCover.CoverExactly` proves that these are the only two, `CoverThroughoutExactly` gives the guard under which a
  call ends the cover, and `LedgerPayable.ClaimsPayable`, `FeesPayable` and `BondsPayable` say what a covered vault
  pays. What holds with credit is the identity between the two ledgers and the cover of winners by refundable, loans
  and shortfall together.
- A round trip through the pool is said never to gain (dike-contracts/crates/dike_math/src/lib.rs:168).
  `PoolQuotes.RoundTripProfit` proves that before fees it never loses, and gains exactly when a remainder is large
  enough.
- A liquidation is said to pay the user only after the debts. A leg that draws on two outcomes of its parent is
  recorded under the first, and then the promise fails (`WaterfallStory.TwoLendersBreakTheWaterfall`).
  `LedgerWaterfall.RemainderExactly` says for every run, from the position before the call, exactly when it is kept.
- Closing a single leg is described as booking the shortfall upstream; it also clears the parent's whole debt record
  and can overcharge (`LegStories.ClosingOvercharges`). `VaultWaterfall.CloseLegMatchesAt` and
  `VaultDebts.CloseLegCharge` say exactly when it does neither.
- A child market is said never to be a parent, because chaining is blocked
  (dike-contracts/contracts/collateral_vault/src/lib.rs:1104-1105). Only draws from a market that is a child are
  blocked, not draws into a market that is a parent: `ChainStories.ChainStands` shows a market that is both, and
  `LedgerChains.ChainsExactly` says when one is.
- Used credit is limited to sixty per cent of the stake when it is drawn. Closing a leg, or redeeming with a leg in
  debt, in a market that is both, takes stake away from under it (`ChainStories.ClosingBreaksLimit`,
  `RedemptionBreaksLimit`). So does a sale after a leg was closed at a loss, because the closing writes off all of the
  position's debt but only the leg's part of the used credit (`SaleStory.SaleBreaksLimit`).
  `LedgerLimit.LimitThroughoutExactly` says for every run, from the state before each call, exactly when the limit
  holds; `CreditStaysWithinLimit` that it holds in runs without liquidations, redemptions and refunds.
- The bonds of a request are meant to be those of its sides. Locking a bond is a public call, so others can stand under
  the same number for good: `ResolutionBonds.BondsAreExact` and `StrangersBondStays`.
- Finalizing a council case without reporting it leaves the oracle's request escalated for good, with both bonds
  locked (`ResolutionLaws.FinalizeAloneStrands`, `StrandedForever`). `ResolutionVerdict.VerdictReportable` says exactly
  when a case can still get its request a verdict. One condition is that the winner's share of a bond does not round
  to nothing. Another is the host's: reporting from the council makes the oracle call back into the council to enter
  its share, so on a host that forbids re-entry a verdict for one side is reported only when that share is less than
  one unit.
- The indexer's rewind is described for a checkpoint ahead of the chain tip; it also fires when the checkpoint is
  exactly at the tip (`Indexer.RewindsWhenCaughtUp`). From start ledger 0 with windows of one ledger it never moves
  (`IndexerProgress.StuckAtZero`). A window that can not be read whole is retried without end
  (`Indexer.BlockedForever`), and `Indexer.CompleteExactly` says which windows can.


## Model

| member | source | states |
|---|---|---|
| `LedgerLaws.LedgerIdentity` | dike-contracts/contracts/collateral_vault/src/lib.rs:412-627 | In every run from an empty system, for each market: backing + credit still out + shortfall + what its redemptions paid upstream equals the token contract's backing counter, and refundable is backing less redeemed |
| `LedgerLaws.CustodyConserved` | dike-contracts/contracts/collateral_vault/src/lib.rs:722-1756 | In every run: collateral held plus claims kept back against redeemers' own debt equals the sum over markets of refundable, fees and bonds, plus the insurance reserve |
| `LedgerLaws.WinnersCovered` | dike-contracts/contracts/collateral_vault/src/lib.rs:1210-1378 | In every run, for a market decided YES or NO: refundable + loans out + shortfall is at least the outstanding winning supply |
| `LedgerLaws.RefundsCovered` | dike-contracts/contracts/collateral_vault/src/lib.rs:1382-1478 | In every run, for an invalid or cancelled market: twice that cover is at least YES + NO supply + dust carry; twice all gross refunds plus the carry is all that was burned for them; the carry is 0 or 1 |
| `LedgerLaws.CompleteSetSupply` | dike-contracts/contracts/conditional_tokens/src/lib.rs:177-229 | In every run: YES supply + burned == backing == NO supply + burned, and Invalid tokens never exist |
| `LedgerLaws.ProvidersSolvent` | dike-contracts/contracts/amm/src/lib.rs:425-502 | In every run and pool: shares add up, everything earned is within FEE_SCALE times the fees set aside, every claim the pool computes is within them, so the vault never answers it with InsufficientBalance |
| `LedgerLaws.PoolOwnsReserves` | dike-contracts/contracts/amm/src/lib.rs:558-760 | In every run the pool contract holds at least each pool's reserve of either outcome |
| `LedgerLaws.DebtsOrdered` | dike-contracts/contracts/collateral_vault/src/lib.rs:276-281 | In every run 0 <= parent debt <= used credit for every position, so no saturating subtraction of the settlement paths ever saturates; every leg in debt knows its parent |
| `LedgerDebts.DebtsAgree` | dike-contracts/contracts/collateral_vault/src/lib.rs:343-359 | In runs where each leg draws on one position: the child list has no duplicates, is exactly the legs the position lends to, and what they owe covers the parent debt; without leg liquidations used credit equals parent debt |
| `LedgerDebts.LiquidationClears` | dike-contracts/contracts/collateral_vault/src/lib.rs:1001-1098 | At the end of such a run a liquidation leaves the position with no debt and no used credit, proceeds == bonus + repaid + remainder, and a remainder means the whole debt was repaid with no default and no draw on insurance |
| `LedgerParties.BystandersKeepAll` | dike-contracts/contracts/collateral_vault/src/lib.rs:324-359 | After any run, whatever everyone else does: a user who signs nothing, is not liquidated and is sent nothing keeps every token, stake, debt record, child link and pool share |
| `LedgerParties.ApplyOnly` | dike-contracts/contracts/collateral_vault/src/lib.rs:412-627 | Every successful call changes the stake and debt records of one user only, through all loops over children and links to parents |
| `LedgerParties.ApplyOthers` | dike-contracts/contracts/conditional_tokens/src/lib.rs:177-229 | Every successful call moves the tokens of its actor, of a transfer's receiver and of the pools only |
| `LedgerParties.ApplyShares` | dike-contracts/contracts/amm/src/lib.rs:443-490 | Every successful call leaves the shares and checkpoints of all other providers alone |
| `LedgerTrades.BuyDelivers` | dike-contracts/contracts/amm/src/lib.rs:558-631 | A purchase happens before its deadline, gives exactly the quoted tokens, at least the minimum and more than the net amount paid; cash enters the vault, credit moves none; the product of the reserves does not grow |
| `LedgerTrades.SellDelivers` | dike-contracts/contracts/amm/src/lib.rs:633-700 | A sale takes exactly the tokens offered, pays at least the minimum out of the vault, and happens only while neither position nor leg owes |
| `LedgerTrades.LiquidatesUnderwater` | dike-contracts/contracts/amm/src/lib.rs:1155-1211 | Only a position in debt whose sale brings at most 105% of that debt is liquidated; then all its tokens are sold and the proceeds are split without loss |
| `LedgerLiquidations.OnlyUnderwater` | dike-contracts/contracts/amm/src/lib.rs:1155-1272 | After any run, for positions and for legs alike: a liquidation happens only while the pool trades, for a debt above zero of which the sale of all the user's tokens brings at most 10,500 per 10,000; it sells all of them, pays 300 per 10,000 of the proceeds, rounded down, as bonus, and splits the rest without loss |
| `LedgerLiquidations.HealthyIsRefused` | dike-contracts/contracts/amm/src/lib.rs:1248-1250 | And the answer is NotLiquidatable if and only if it would bring more than that, for positions and for legs |
| `LedgerLiquidations.PricedExactly` | dike-contracts/contracts/amm/src/lib.rs:1220-1251 | The check itself, as an if and only if over all its guards |
| `LedgerLiquidations.ReleaseSplits` | dike-contracts/contracts/collateral_vault/src/lib.rs:1001-1180 | Proceeds are bonus, repaid debt and remainder, none negative, and the vault pays exactly bonus and remainder, for a position and for a leg |
| `LedgerTerms.BuyTerms` | dike-contracts/contracts/amm/src/lib.rs:558-631 | A purchase happens only while the pool trades and before its deadline, for at least the minimum; fee, reserves, the vault's book, fee buckets, tokens, stake or debt records move by exactly the amounts of the quote, in cash and on credit |
| `LedgerTerms.SellTerms` | dike-contracts/contracts/amm/src/lib.rs:633-700 | A sale, likewise, free of debt: the tokens go in, sets leave both reserves down to the old product up to rounding, the fee is taken of the sets, and paid, book, buckets and stake follow exactly |
| `LedgerAcceptance.BuysExactly` | dike-contracts/contracts/amm/src/lib.rs:558-631 | After any run a purchase in cash is accepted if and only if signed, in time, while the pool trades and has both reserves, at a quote that reaches the minimum, with a vault that takes deposits and a book that can set the fee aside |
| `LedgerAcceptance.CreditBuysExactly` | dike-contracts/contracts/amm/src/lib.rs:558-631 | And one on credit if and only if, besides, the draw of VaultTerms.DrawsExactly may be made; a pause of deposits does not stop it |
| `LedgerAcceptance.SellsExactly` | dike-contracts/contracts/amm/src/lib.rs:633-700 | And a sale if and only if signed, in time, while the pool trades, for tokens that are there and owe nothing, for a positive amount that reaches the minimum and that book and vault have |
| `LedgerTerms.TransfersExactly` | dike-contracts/contracts/collateral_vault/src/lib.rs:1480-1497 | Tokens are transferred if and only if the sender has them and neither his leg nor that position owes anything; only the two balances change |
| `LedgerFlows.InventoryExactly` | dike-contracts/contracts/amm/src/lib.rs:558-1025 | Over every run the pool contract holds exactly the reserves of each pool plus what was given to it by transfers |
| `LedgerFlows.FeesReachProviders` | dike-contracts/contracts/amm/src/lib.rs:425-502 | Over every run the providers' bucket is what trades paid in less what was paid out, and the providers are owed all of it up to one unit each and the accumulator's rounding, which is less than one unit of 10^-18 a share per trade and one unit per payout |
| `LedgerFlows.ApplyFlows` | dike-contracts/contracts/amm/src/lib.rs:558-1048 | Every accepted call moves at each pool exactly the tokens, fees in and fees out that its kind says |
| `LedgerWaterfall.RemainderExactly` | dike-contracts/contracts/collateral_vault/src/lib.rs:1001-1098 | After any run whatever, a liquidation that pays the user a remainder books no loss if and only if, before the call, all credit the position used was owed upstream and the legs drawn on this very position owed at least that much |
| `LedgerWaterfall.PromiseExactly` | dike-contracts/contracts/collateral_vault/src/lib.rs:1041-1067 | After any run: for every amount of proceeds, what is left over is left after all losses were made good, if and only if the same condition holds |
| `WaterfallStory.TwoLendersBreakTheWaterfall` | dike-contracts/contracts/collateral_vault/src/lib.rs:1001-1098 | A run of the whole system in which every transaction is accepted and it fails: a user draws 10 on YES and 20 on NO of market 1 into one child; liquidating NO repays the 10, pays the user 9 and books the 20 as lost |
| `VaultWaterfall.LeftoverExactly` | dike-contracts/contracts/collateral_vault/src/lib.rs:1041-1067 | For sound debts and a duplicate-free child list: when money is left of the pool, no loss is booked if and only if the position was recoverable |
| `VaultWaterfall.LeftoverPromise` | dike-contracts/contracts/collateral_vault/src/lib.rs:1041-1067 | For sound debts and a duplicate-free child list: the promise over all pools, if and only if recoverable |
| `VaultWaterfall.WaterfallPays` | dike-contracts/contracts/collateral_vault/src/lib.rs:1041-1053 | However legs were drawn, the loop takes at most the smaller of the position's debt and what the legs drawn on it owe, exactly that when money is left over, and as much off the used credit |
| `VaultWaterfall.RouteLeaves` | dike-contracts/contracts/collateral_vault/src/lib.rs:1041-1067 | However legs were drawn, the position ends without debt, and without used credit if and only if what was left of it after the loop is within what the listed legs still owe |
| `VaultWaterfall.RouteLeavesUsed` | dike-contracts/contracts/collateral_vault/src/lib.rs:1041-1067 | However legs were drawn, the credit a liquidation leaves in use is exactly what neither the pool nor the write-off of the listed legs reaches |
| `VaultWaterfall.RecoverableLeaves` | dike-contracts/contracts/collateral_vault/src/lib.rs:1041-1067 | Of a recoverable position that is nothing, whatever the sale brought |
| `VaultWaterfall.DefaultMatchesAt` | dike-contracts/contracts/collateral_vault/src/lib.rs:557-627 | However legs were drawn, a default leaves used credit equal to debt at the position if and only if the loss and the listed legs both cover the used credit |
| `VaultWaterfall.CloseLegMatchesAt` | dike-contracts/contracts/collateral_vault/src/lib.rs:1106-1180 | The same for closing one leg, with or without earlier agreement |
| `VaultDebts.CloseLegCharge` | dike-contracts/contracts/collateral_vault/src/lib.rs:1141-1164 | Closing a leg charges the parent exactly the debt lost if and only if the leg's record is at most what the parent owes, or the parent owes nothing; otherwise it is overcharged |
| `LegStories.ClosingOvercharges` | dike-contracts/contracts/collateral_vault/src/lib.rs:1106-1180 | A run of the whole system that overcharges, every transaction accepted and market 1 decided by the oracle before market 2 expires: 60 drawn, 20 kept back from a redemption of the parent, 40 repaid by closing the leg, and 20 more booked as a loss of the parent market |
| `VaultDebts.SettleReads` | dike-contracts/contracts/collateral_vault/src/lib.rs:412-482 | Settling a leg takes the same amount out of the leg's, the position's debt and its used credit, never more than the leg owed, and leaves every other position alone |
| `VaultDebts.SettleSound` | dike-contracts/contracts/collateral_vault/src/lib.rs:412-482 | Settling keeps all debt records non-negative and ordered |
| `VaultDebts.OpenCreditKeeps` | dike-contracts/contracts/collateral_vault/src/lib.rs:796-915 | A draw keeps the debt records sound, and, when the leg has no other lender, the list and record agreement of DebtsAgree |
| `VaultDebts.SettleClaimKeeps` | dike-contracts/contracts/collateral_vault/src/lib.rs:1261-1367 | A redemption keeps the debt records sound and in agreement |
| `VaultTerms.DrawsExactly` | dike-contracts/contracts/collateral_vault/src/lib.rs:796-860 | A draw is accepted if and only if it is positive, against another live market in which the user has no leg, into a leg of the same market if any, within 6,000 per 10,000 of the stake in all, out of money the parent market has |
| `VaultTerms.SettleTerms` | dike-contracts/contracts/collateral_vault/src/lib.rs:412-482 | Settling takes the smallest of the amount, the leg's debt and its lender's, off all three records and into the lender's book; a leg whose lender owes nothing is cleared; nothing else changes |
| `VaultTerms.RepaysExactly` | dike-contracts/contracts/collateral_vault/src/lib.rs:921-948 | A repayment is accepted if and only if it is positive and the market exists; what could be applied stays, the rest is returned |
| `VaultTerms.SettlesInOrder` | dike-contracts/contracts/collateral_vault/src/lib.rs:1041-1053 | The waterfall runs from the front of the list: a list in two parts settles the second with what the first left |
| `VaultTerms.ClearsInOrder` | dike-contracts/contracts/collateral_vault/src/lib.rs:601-626 | A loss is written off from the front: a listed leg loses what the legs before it left of the loss, up to its debt |
| `VaultTerms.DefaultTerms` | dike-contracts/contracts/collateral_vault/src/lib.rs:557-627 | A default takes insurance first and the market's shortfall for the rest, writes off the position's debt, and changes no other book |
| `VaultTerms.UpstreamTerms` | dike-contracts/contracts/collateral_vault/src/lib.rs:1266-1281 | The debt upstream leaves the redeemed market's book for the parent's |
| `VaultTerms.WithholdTerms` | dike-contracts/contracts/collateral_vault/src/lib.rs:1283-1315 | What is kept back of a claim is the smaller of claim and debt, off debt and used credit and into the book |
| `VaultTerms.SweepTerms` | dike-contracts/contracts/collateral_vault/src/lib.rs:1715-1756 | A sweep empties both buckets; 2,000 per 10,000 of it, rounded down, stays as insurance and the rest leaves the vault |
| `VaultTerms.UnlockTerms` | dike-contracts/contracts/collateral_vault/src/lib.rs:1548-1659 | A bond is paid out if and only if amount, bond and vault allow it, to the one named, out of its side's total |
| `VaultTerms.LockTerms` | dike-contracts/contracts/collateral_vault/src/lib.rs:1499-1546 | A bond is locked if and only if positive, for an existing market, under a key not used before, into its side's total |
| `LedgerRedemptions.RedemptionTerms` | dike-contracts/contracts/collateral_vault/src/lib.rs:1210-1378 | After any run a redemption burns the tokens for what they are worth, and a claim worth something pays the leg's debt, then the position's, then cash by the haircut, with every record moved by exactly its part; a worthless one pays nothing and turns the debt into a default |
| `LedgerRedemptions.RefundsTerms` | dike-contracts/contracts/collateral_vault/src/lib.rs:1382-1478 | The same for refunds: the position's debt, then cash; neither leg nor stake moves |
| `LedgerLimit.LimitThroughoutExactly` | dike-contracts/contracts/collateral_vault/src/lib.rs:764-1367 | Over every run whatever, legs drawn on several outcomes, liquidations, closed legs and redemptions included: every position stays within 60% of its stake at every moment if and only if every accepted call that retires stake met a guard read before the call, namely that the stake it leaves carries the credit it leaves in use |
| `LedgerLimit.CreditStaysWithinLimit` | dike-contracts/contracts/collateral_vault/src/lib.rs:764-982 | In every run of trades, draws on any outcomes, repayments, transfers, liquidity, bonds and administration: each position's used credit equals its debt and is between nothing and 60% of its stake |
| `LedgerLimit.StepWithinExactly` | dike-contracts/contracts/collateral_vault/src/lib.rs:764-1367 | At the end of any run within the limit: an accepted call keeps it if and only if it meets that guard |
| `LedgerLimit.ClosingWithinExactly` | dike-contracts/contracts/collateral_vault/src/lib.rs:1106-1180 | At the end of any run whatever: closing a leg keeps all positions within the limit if and only if, before the call, the credit used of the position sold with it is within 60% of the stake that is left when all its tokens are sold |
| `ChainStories.RedemptionBreaksLimit` | dike-contracts/contracts/collateral_vault/src/lib.rs:1261-1367 | A run of the whole system, every transaction accepted, in which a redemption breaks the limit: 60 used against a stake of 100, the redeemer's leg in that market owes 60, and redeeming 60 tokens leaves a stake of 40 |
| `ChainStories.ClosingBreaksLimit` | dike-contracts/contracts/collateral_vault/src/lib.rs:1106-1180 | The same run up to the draws: anyone may close the leg by selling 150 tokens for 44, and the 60 used stand against no stake |
| `SaleStory.SaleBreaksLimit` | dike-contracts/contracts/collateral_vault/src/lib.rs:950-982 | A run of the whole system, every transaction accepted, in which a sale breaks the limit: of two legs of 30 one is closed at a loss, the position's debt is written off while 30 stay in use, and the sale of all its tokens is accepted |
| `LedgerChains.ChainsExactly` | dike-contracts/contracts/collateral_vault/src/lib.rs:813-822 | Over every run a market is both child and parent for a user if and only if the user drew into it after drawing on it; no other call gets there |
| `LedgerChains.DrawChains` | dike-contracts/contracts/collateral_vault/src/lib.rs:813-822 | An accepted draw puts exactly one market in the middle of a chain: the one drawn into, when a position of the user there had lent |
| `ChainStories.ChainStands` | dike-contracts/contracts/collateral_vault/src/lib.rs:1103-1105 | A run of the whole system, every transaction accepted, after which market 1 is both for one user: it lent 60 and its leg owes 60 |
| `LedgerLimit.RedemptionWithinExactly` | dike-contracts/contracts/collateral_vault/src/lib.rs:1261-1367 | With sound debt records and all positions within the limit, a redemption of some worth keeps them within it if and only if, read before the call, the stake left carries the used credit less what is kept back of the claim after the leg's own debt |
| `LedgerLimit.DebtFreeLegRedeemsWithin` | dike-contracts/contracts/collateral_vault/src/lib.rs:1261-1367 | A redeemer without debt of a leg in that market meets that condition when the position's used credit equals its debt |
| `LedgerLimit.OpenCreditWithin` | dike-contracts/contracts/collateral_vault/src/lib.rs:796-915 | A successful draw leaves every position within 60% of its stake |
| `LedgerLimit.ReleaseWithin` | dike-contracts/contracts/collateral_vault/src/lib.rs:950-982 | A sale keeps all positions within the limit if and only if the stake that is left carries the credit used, which is not none when an earlier default left used credit without debt |
| `LedgerLimit.LiquidateReleaseWithin` | dike-contracts/contracts/collateral_vault/src/lib.rs:1001-1098 | However legs were drawn, a liquidation keeps all positions within the limit if and only if the stake left by the forced sale carries what the waterfall leaves in use |
| `LedgerLimit.RecoverableKeeps` | dike-contracts/contracts/collateral_vault/src/lib.rs:1001-1098 | The liquidation of a recoverable position meets the guard, whatever the sale brings |
| `LedgerCash.WinnersPaidInFull` | dike-contracts/contracts/collateral_vault/src/lib.rs:1210-1378 | In every run without child credit, every holder of winning tokens can redeem them at any time for exactly one unit each |
| `LedgerCash.RefundsPaidInFull` | dike-contracts/contracts/collateral_vault/src/lib.rs:1382-1478 | In every run without child credit, every holder in a cancelled market is refunded exactly half, the odd unit carried |
| `LedgerCash.InvalidPaidInFull` | dike-contracts/contracts/collateral_vault/src/lib.rs:1210-1378 | In every run without child credit, every holder in a market resolved Invalid is paid exactly half, the odd unit carried |
| `LedgerPayable.FeesPayable` | dike-contracts/contracts/collateral_vault/src/lib.rs:1693-1756 | Whenever the vault is covered, in every run: a provider's claim is paid if and only if it is positive and within the providers' fees, and a sweep always succeeds |
| `LedgerPayable.BondsPayable` | dike-contracts/contracts/collateral_vault/src/lib.rs:1548-1659 | Whenever the vault is covered, in every run: a release or slash succeeds if and only if it is positive and within what is locked under the key |
| `LedgerPayable.BothBondsHeld` | dike-contracts/contracts/collateral_vault/src/lib.rs:1548-1659 | Whenever it is covered, in every run: the vault holds any two equal bonds of one market together, as reporting a verdict needs |
| `LedgerCover.CoverExactly` | dike-contracts/PLAN.md:776-780 | In every run the vault lacks exactly what was kept back from claims plus what markets overdrew; so it holds all that markets may still pay (refundable money above zero, fees, bonds) and the reserve if and only if nothing was kept back and no market's refundable money is negative |
| `LedgerCover.CoverThroughoutExactly` | dike-contracts/PLAN.md:2125 | Over whole runs the vault is covered at every moment if and only if no accepted redemption met the guard, read before the call: part of the claim is kept back against the position's own debt, or more is paid upstream than the market has refundable |
| `LedgerCover.StepCovered` | dike-contracts/contracts/collateral_vault/src/lib.rs:1261-1319 | From any state of a run that is covered, an accepted call leaves it covered if and only if it does not meet that guard; no other kind of call can uncover it |
| `LedgerCover.OverdrawnExactly` | dike-contracts/contracts/collateral_vault/src/lib.rs:1276-1281 | A market with refundable money at or above zero goes below zero in an accepted call if and only if the call redeems in it and pays more upstream than that money and what is kept back |
| `LedgerCover.KeptExactly` | dike-contracts/contracts/collateral_vault/src/lib.rs:1291-1319 | The claims kept back in a market grow in a call by exactly what its redemption keeps back, and never fall; the insurance reserve stays at or above zero |
| `LedgerPayable.ClaimsPayable` | dike-contracts/contracts/collateral_vault/src/lib.rs:1210-1478 | Whenever the vault is covered, in every run: a redemption or refund nothing is kept back from succeeds if and only if the owner signs, the market ended that way, and the tokens are there; money never lacks |
| `LedgerPayable.ClaimsPaid` | dike-contracts/contracts/collateral_vault/src/lib.rs:1210-1378 | Whenever the vault is covered, in every run: a holder of tokens of a decided market nothing is kept back from receives the worth of the tokens less what the leg's own debt takes, capped by what that leaves of the market's book |
| `LedgerPayable.NoCreditCovered` | dike-contracts/PLAN.md:2125 | After every run without child credit the vault is covered |
| `CoverStories.OverdraftBreaksFullCover` | dike-contracts/contracts/collateral_vault/src/lib.rs:1261-1281 | A run of the whole system, every transaction accepted and nothing kept back, in which the promise fails: a market that paid its winners sends a debt of 60 upstream out of 19, its refundable money is -41, and the vault, with 69, refuses a debt-free claim of 110 that the other book allows |
| `CoverStories.CreditBreaksFullCover` | dike-contracts/PLAN.md:2125 | A run of the whole system, every transaction accepted, in which the promise fails for the other reason: both markets are decided by the oracle after expiry, 60 of a borrower's claim are kept back, the book allows 130 more without any shortfall, the vault holds 70, and a debt-free holder of 100 winning tokens is refused |
| `LedgerCash.SettleClaimPlainDebts` | dike-contracts/contracts/collateral_vault/src/lib.rs:1336-1367 | A debt-free claim is refused if and only if its capped payout exceeds what the vault holds |
| `Haircut.HaircutIsProRata` | dike-contracts/contracts/collateral_vault/src/lib.rs:484-522 | Claims within backing plus shortfall are each paid floor(claim * backing / (backing + shortfall)), whatever the order, and the total is at most the backing |
| `Haircut.PaidExactly` | dike-contracts/contracts/collateral_vault/src/lib.rs:484-522 | Every claimant gets exactly the proportional share if and only if the shares of all claims together fit into what is left |
| `Haircut.PaidInTotal` | dike-contracts/contracts/collateral_vault/src/lib.rs:484-522 | Any sequence of claims is paid the smaller of its shares' sum and what is left, in any order |
| `Haircut.PayoutIsShare` | dike-contracts/contracts/collateral_vault/src/lib.rs:500-522 | One claim is paid its share or what is left, and the book stays solvent |
| `Haircut.SplittingPaysNoMore` | dike-contracts/contracts/collateral_vault/src/lib.rs:500-522 | Claiming in two parts, one after the other, is never paid more in total than claiming the sum at once |
| `Haircut.SplittingNeverGains` | dike-contracts/contracts/collateral_vault/src/lib.rs:500-522 | The floored proportional shares of two parts never exceed the share of their sum |
| `Haircut.OrderMattersWhenOverclaimed` | dike-contracts/contracts/collateral_vault/src/lib.rs:500-522 | Claims beyond the book: who comes first is paid, who comes last is not |
| `Haircut.DebtFreeClaim` | dike-contracts/contracts/collateral_vault/src/lib.rs:1336-1367 | A redeemer without debts is paid the capped amount and the book is charged exactly that |
| `VaultClaims.PayoutWithinClaim` | dike-contracts/contracts/collateral_vault/src/lib.rs:500-522 | A payout is never negative and never above the claim |
| `VaultClaims.DefaultClaims` | dike-contracts/contracts/collateral_vault/src/lib.rs:557-627 | A default moves loans into insurance draw and shortfall without changing what any market answers for |
| `VaultClaims.OpenCreditClaims` | dike-contracts/contracts/collateral_vault/src/lib.rs:796-915 | A draw leaves the parent's claims unchanged and adds exactly the amount to the child's |
| `VaultClaims.SettleClaimClaims` | dike-contracts/contracts/collateral_vault/src/lib.rs:1261-1367 | Paying upstream, keeping back and paying out satisfy no more than the gross claim of that market, and no other market's |
| `VaultBooks.LiquidateReleaseCustody` | dike-contracts/contracts/collateral_vault/src/lib.rs:1001-1098 | A liquidation splits the proceeds into bonus, repaid debt and remainder without loss and keeps custody |
| `VaultBooks.LiquidateChildReleaseCustody` | dike-contracts/contracts/collateral_vault/src/lib.rs:1106-1180 | Closing a leg splits the proceeds without loss and keeps custody |
| `VaultBooks.RedeemResolvedCustody` | dike-contracts/contracts/collateral_vault/src/lib.rs:1210-1378 | Redeeming accounts for every unit paid out, paid upstream or kept back |
| `VaultBooks.RedeemCancelledCustody` | dike-contracts/contracts/collateral_vault/src/lib.rs:1382-1478 | Refunding accounts for every unit paid out or kept back |
| `LedgerMoney.ApplyBalanced` | dike-contracts/contracts/amm/src/lib.rs:558-758 | Every successful call of any kind keeps the identity between vault and token ledger in every market |
| `LedgerCustody.ApplySolid` | dike-contracts/contracts/collateral_vault/src/lib.rs:722-1756 | Every successful call keeps custody and sound debt records |
| `LedgerPools.ApplyPools` | dike-contracts/contracts/amm/src/lib.rs:821-1270 | Every successful call keeps every pool owned, its shares summed and its providers covered |
| `LedgerTokens.ApplyTokensKept` | dike-contracts/contracts/conditional_tokens/src/lib.rs:274-449 | Every successful call keeps complete sets complete and un-burns nothing |
| `LedgerRecord.ApplyRecorded` | dike-contracts/contracts/collateral_vault/src/lib.rs:1210-1478 | Every successful call keeps each market's redemption record in step with how the market ended |
| `LedgerRecord.RegistryEndings` | dike-contracts/contracts/market_registry/src/lib.rs:140-160 | Whatever the registry is asked, a market that has ended stays ended the same way |
| `LedgerEscrow.ApplyEscrow` | dike-contracts/contracts/collateral_vault/src/lib.rs:1499-1659 | Apart from the bond calls themselves no call on the collateral side touches a bond, and none but a draw changes which leg owes to which position |
| `LpLaws.AccrueKeeps` | dike-contracts/contracts/amm/src/lib.rs:425-441 | A collected fee is promised to providers rounded down: the cover of everything earned survives |
| `LpLaws.AccrueReaches` | dike-contracts/contracts/amm/src/lib.rs:436-439 | And not by more than the rounding: with shares out, all but less than one unit of 10^-18 a share of a fee is promised |
| `LpLaws.OwedIsEarned` | dike-contracts/contracts/amm/src/lib.rs:489-502 | What is owed is the earned amount rounded down to whole units, no less and no more |
| `LpLaws.OwedIsPayable` | dike-contracts/contracts/amm/src/lib.rs:489-502 | What a provider is owed is never negative and never above the fees set aside |
| `LpLaws.SetLpKeeps` | dike-contracts/contracts/amm/src/lib.rs:907-956 | Paying a provider off and resetting the checkpoint keeps the cover, whatever the new number of shares |
| `LpLaws.AddDilutesNobody` | dike-contracts/contracts/amm/src/lib.rs:922-932 | Adding liquidity lowers no share's claim on either reserve |
| `LpLaws.RemoveDilutesNobody` | dike-contracts/contracts/amm/src/lib.rs:974-982 | Removing liquidity lowers no remaining share's claim on either reserve |
| `LpLaws.AddThenRemove` | dike-contracts/contracts/amm/src/lib.rs:894-1025 | Adding and taking straight out returns at most what went in, of either outcome |
| `LpLaws.RemoveAllEmpties` | dike-contracts/contracts/amm/src/lib.rs:960-1025 | Removing all shares hands out and empties both reserves |
| `LpLaws.EmptyLeg` | dike-contracts/contracts/amm/src/lib.rs:974-1015 | A leg of a withdrawal is empty, which reverts it, if and only if the shares are worth less than one token of it |
| `LiquidityTerms.SharesExactly` | dike-contracts/contracts/amm/src/lib.rs:920-932 | New shares are worth the amount at the reserve that buys fewer, rounded down; an amount is refused if and only if it buys none |
| `LiquidityTerms.SeedTerms` | dike-contracts/contracts/amm/src/lib.rs:851-892 | First liquidity is accepted if and only if nobody has shares and the market can be seeded; one share per unit, both reserves equal to it |
| `LiquidityTerms.AddTerms` | dike-contracts/contracts/amm/src/lib.rs:894-958 | Both reserves and the vault grow by the amount, the shares are those of SharesExactly, the fees owed are paid and nothing is owed right after |
| `LiquidityTerms.RemoveTerms` | dike-contracts/contracts/amm/src/lib.rs:960-1025 | The provider receives his part of both reserves, rounded down and not empty, and the fees he was owed, while the market trades or once it is resolved or cancelled |
| `LiquidityTerms.ClaimTerms` | dike-contracts/contracts/amm/src/lib.rs:1027-1048 | A claim pays what is owed, after which nothing is owed, and changes neither shares nor reserves |
| `LiquidityTerms.RemovesExactly` | dike-contracts/contracts/amm/src/lib.rs:960-1025 | After any run liquidity comes out if and only if signed, for shares that are there and worth a token of either outcome, while the market lets it out, and the vault can pay the fees owed |
| `LiquidityTerms.AddsExactly` | dike-contracts/contracts/amm/src/lib.rs:894-958 | And goes in if and only if signed, into a funded pool that trades, for an amount that buys a share at either reserve, and the vault takes it and can pay the fees owed |
| `LiquidityTerms.ClaimsFeesExactly` | dike-contracts/contracts/amm/src/lib.rs:1027-1048 | A provider with shares is always heard, and paid if and only if the vault holds what it owes him |
| `TokenLedger.MergeNeverLacksBacking` | dike-contracts/contracts/conditional_tokens/src/lib.rs:326-346 | A merge succeeds if and only if both balances suffice; its backing check never fails |
| `TokenLedger.MoveExactly` | dike-contracts/contracts/conditional_tokens/src/lib.rs:348-405 | A transfer to oneself changes nothing; any other changes exactly two balances |
| `TokenLedger.MintKeeps` | dike-contracts/contracts/conditional_tokens/src/lib.rs:274-294 | Minting keeps complete sets complete |
| `TokenLedger.MergeKeeps` | dike-contracts/contracts/conditional_tokens/src/lib.rs:326-346 | Merging keeps complete sets complete |
| `TokenLedger.MoveKeeps` | dike-contracts/contracts/conditional_tokens/src/lib.rs:348-405 | Transfers keep complete sets complete |
| `TokenLedger.BurnKeeps` | dike-contracts/contracts/conditional_tokens/src/lib.rs:407-449 | Burns keep complete sets complete, and only YES or NO can be burned |
| `DikeMath.BabylonianSqrt` | dike-contracts/crates/dike_math/src/lib.rs:85-100 | The Newton loop terminates with the integer square root of every non-negative number and rejects negatives |
| `DikeMath.BpsBounds` | dike-contracts/crates/dike_math/src/lib.rs:24-26 | A basis-point share is the floor of the exact share and lies between zero and the amount |
| `RegistryTerms.TransitionsFollowPath` | dike-contracts/contracts/market_registry/src/lib.rs:140-160 | A status is reached if and only if from the one before it on the market's path, by pausing or resuming trading, or by cancelling before trading closes |
| `RegistryTerms.EndsStay` | dike-contracts/contracts/market_registry/src/lib.rs:140-160 | A resolved or cancelled market is moved by nothing |
| `RegistryTerms.RegistersExactly` | dike-contracts/contracts/market_registry/src/lib.rs:262-310 | A market is registered if and only if its terms are complete and lie ahead; it starts created, without an outcome, and no other market changes |
| `RegistryTerms.MovesExactly` | dike-contracts/contracts/market_registry/src/lib.rs:184-410 | Closing, marking and deciding are accepted if and only if the market stands there, and write just that |
| `PoolQuotes.BuyAgainstProduct` | dike-contracts/crates/dike_math/src/lib.rs:71-83 | A buy returns more than was paid in, never raises the product of the reserves, keeps it exactly when the division is exact, and drains the reserve exactly when the product is below the new opposite reserve |
| `PoolQuotes.SellWithinReserves` | dike-contracts/crates/dike_math/src/lib.rs:110-127 | A sale never pays more than either reserve and takes all of the opposite one exactly when the amount is large enough |
| `PoolQuotes.SellAgainstProduct` | dike-contracts/crates/dike_math/src/lib.rs:110-127 | The sell quote is the largest fair one up to rounding; it keeps the product if and only if the rounding is even or the discriminant a square |
| `PoolQuotes.RoundTripProfit` | dike-contracts/crates/dike_math/src/lib.rs:166-179 | Selling back what was bought never returns less than was paid, and returns more if and only if twice the remainder of the purchase reaches the sum of the reserves |
| `PoolQuotes.RoundTripCanProfit` | dike-contracts/crates/dike_math/src/lib.rs:166-179 | A whole family of pools in which the round trip gains |
| `PoolQuotes.ComputeQuoteSell` | dike-contracts/crates/dike_math/src/lib.rs:110-127 | The quote computed with the Newton root is the quote the laws speak about |
| `DikeSystem.System.Invoke` | dike-contracts/contracts/amm/src/lib.rs:558-1270 | One transaction over the five objects is one step of the ledger machine, a failed one leaves nothing behind, and every law above survives it |
| `DikeSystem.System.CreateMarket` | dike-contracts/contracts/market_factory/src/lib.rs:338-403 | Register, create the pool, seed it, activate: all or nothing, one pool per market under its number |
| `CollateralVault.Vault.DepositForMarket` | dike-contracts/contracts/collateral_vault/src/lib.rs:722-762 | Refused for non-positive amounts, while paused or for an unknown market; otherwise collateral held, backing and refundable of the market all rise by the amount |
| `CollateralVault.Vault.RecordCashStake` | dike-contracts/contracts/collateral_vault/src/lib.rs:764-783 | Refused unless both amounts are positive; otherwise only the stake of that position rises, by the collateral paid |
| `CollateralVault.Vault.OpenChildCreditForTrade` | dike-contracts/contracts/collateral_vault/src/lib.rs:796-915 | Refused or granted by the same guards in the same order, and granted as OpenCreditKeeps and OpenCreditWithin describe |
| `CollateralVault.Vault.RecordCredit` | dike-contracts/contracts/collateral_vault/src/lib.rs:862-884 | The three debt records, the leg's parent on its first draw and the duplicate-free child list of DebtsAgree |
| `CollateralVault.Vault.SettleChildDebt` | dike-contracts/contracts/collateral_vault/src/lib.rs:412-482 | Updating the records in place gives the settled state and amount that SettleReads and SettleSound describe |
| `CollateralVault.Vault.RepayChildCollateral` | dike-contracts/contracts/collateral_vault/src/lib.rs:921-946 | What the leg can use is settled as in SettleReads and the rest goes back: the vault keeps exactly the applied amount |
| `CollateralVault.Vault.ReleaseTradePayout` | dike-contracts/contracts/collateral_vault/src/lib.rs:950-982 | Refused while the position or its leg owes or the book is too small; otherwise stake, backing and refundable fall and the payout leaves the vault |
| `CollateralVault.Vault.ResolveParentDefault` | dike-contracts/contracts/collateral_vault/src/lib.rs:557-627 | The reserve, the shortfall and the write-off loop give the state that DefaultMatchesAt and DefaultClaims describe |
| `CollateralVault.Vault.ClearChildren` | dike-contracts/contracts/collateral_vault/src/lib.rs:601-625 | The loop over the child list writes off exactly the recursive write-off, in list order |
| `CollateralVault.Vault.LiquidateRelease` | dike-contracts/contracts/collateral_vault/src/lib.rs:1001-1098 | The proceeds are routed as LiquidateReleaseCustody and LiquidationClears describe, with the same errors |
| `CollateralVault.Vault.SettleChildren` | dike-contracts/contracts/collateral_vault/src/lib.rs:1041-1053 | The loop with its running pool settles exactly the recursive waterfall of WaterfallPays |
| `CollateralVault.Vault.LiquidateChildRelease` | dike-contracts/contracts/collateral_vault/src/lib.rs:1106-1180 | The leg is closed as CloseLegMatchesAt and CloseLegCharge describe, with the same errors |
| `CollateralVault.Vault.CappedPayout` | dike-contracts/contracts/collateral_vault/src/lib.rs:500-522 | The payout is the haircut whose shares HaircutIsProRata states |
| `CollateralVault.Vault.RedeemResolved` | dike-contracts/contracts/collateral_vault/src/lib.rs:1210-1380 | Burn, claim, upstream debt, own debt, payout: the state RedeemResolvedCustody and SettleClaimClaims describe, with the same errors |
| `CollateralVault.Vault.RedeemCancelled` | dike-contracts/contracts/collateral_vault/src/lib.rs:1382-1478 | The refund of RedeemCancelledCustody and RefundsCovered, with the same errors |
| `CollateralVault.Vault.AssertPositionTransferAllowed` | dike-contracts/contracts/collateral_vault/src/lib.rs:1480-1497 | Refuses exactly the transfers of positions that are encumbered |
| `CollateralVault.Vault.LockBond` | dike-contracts/contracts/collateral_vault/src/lib.rs:1499-1546 | A bond is added under its key or refused; the bond lives of BondLifecycle are built on it |
| `CollateralVault.Vault.UnlockBond` | dike-contracts/contracts/collateral_vault/src/lib.rs:1548-1659 | Release and slash: the bond and the collateral both fall by the amount, or the same error |
| `CollateralVault.Vault.CollectFee` | dike-contracts/contracts/collateral_vault/src/lib.rs:1661-1691 | Refused for negative parts or beyond the backing; otherwise backing and refundable fall by the sum and the three fee buckets rise by their parts |
| `CollateralVault.Vault.ClaimLpFees` | dike-contracts/contracts/collateral_vault/src/lib.rs:1693-1713 | Refused beyond the providers' bucket; otherwise bucket and collateral held fall by the amount |
| `CollateralVault.Vault.SweepProtocolFees` | dike-contracts/contracts/collateral_vault/src/lib.rs:1715-1756 | Both protocol buckets end at zero, the insurance reserve keeps its share of their sum, the rest is paid out |
| `CollateralVault.Tokens.MintCompleteSet` | dike-contracts/contracts/conditional_tokens/src/lib.rs:274-294 | Refused for non-positive amounts; otherwise YES, NO and backing of the market rise by the amount |
| `CollateralVault.Tokens.MergePositions` | dike-contracts/contracts/conditional_tokens/src/lib.rs:326-346 | Refused for lack of YES, then of NO; otherwise both balances and the backing fall by the amount |
| `CollateralVault.Tokens.Transfer` | dike-contracts/contracts/conditional_tokens/src/lib.rs:348-380 | Refused while the vault calls the position encumbered, otherwise the move of MoveExactly |
| `CollateralVault.Tokens.TransferForced` | dike-contracts/contracts/conditional_tokens/src/lib.rs:382-405 | The move of MoveExactly without the vault's veto |
| `CollateralVault.Tokens.Burn` | dike-contracts/contracts/conditional_tokens/src/lib.rs:407-449 | The balance falls and the burn record rises by the amount, the backing stays; refused for lack of balance |
| `DikeAmm.Amm.AccrueFees` | dike-contracts/contracts/amm/src/lib.rs:425-441 | The fee is split without loss and the accumulator raised as AccrueKeeps needs |
| `DikeAmm.Amm.ComputeFeesOwed` | dike-contracts/contracts/amm/src/lib.rs:489-502 | What OwedIsPayable shows payable |
| `DikeAmm.Amm.PriceSell` | dike-contracts/contracts/amm/src/lib.rs:530-546 | The quote of ComputeQuoteSell and the fee on it, or its error |
| `DikeAmm.Amm.Buy` | dike-contracts/contracts/amm/src/lib.rs:558-631 | Quote, pay in, mint, collect the fee, hand over: one atomic step of the ledger machine or the same error |
| `DikeAmm.Amm.SettleBuy` | dike-contracts/contracts/amm/src/lib.rs:590-621 | Collateral or credit goes in, the net amount is minted, the fee collected and the sold tokens handed over (BuyDelivers) |
| `DikeAmm.Amm.Sell` | dike-contracts/contracts/amm/src/lib.rs:633-700 | Guards, minimum and settlement in order: the effect of SellDelivers or the same error |
| `DikeAmm.Amm.SettleSell` | dike-contracts/contracts/amm/src/lib.rs:655-691 | The tokens come in, sets are merged, the payout released and the fee collected (SellDelivers) |
| `DikeAmm.Amm.ForceSell` | dike-contracts/contracts/amm/src/lib.rs:712-758 | The whole balance is sold without its owner; the proceeds stay in the vault (LiquidatesUnderwater) |
| `DikeAmm.Amm.CreatePool` | dike-contracts/contracts/amm/src/lib.rs:821-849 | A second pool for a market is numbered anew; the pool starts empty |
| `DikeAmm.Amm.SeedLiquidity` | dike-contracts/contracts/amm/src/lib.rs:851-892 | Only an empty pool of a seedable market takes a first provider, whose shares equal both reserves |
| `DikeAmm.Amm.AddLiquidity` | dike-contracts/contracts/amm/src/lib.rs:894-958 | Pending fees paid, shares minted at the worse ratio (AddDilutesNobody), or the same error |
| `DikeAmm.Amm.RemoveLiquidity` | dike-contracts/contracts/amm/src/lib.rs:960-1025 | Pending fees paid, both legs handed out (RemoveDilutesNobody), or the same error |
| `DikeAmm.Amm.ClaimLpFees` | dike-contracts/contracts/amm/src/lib.rs:1027-1048 | A provider without shares is refused, nothing owed pays zero, and otherwise exactly the owed fees are paid once (OwedIsPayable) |
| `DikeAmm.Amm.PriceLiquidation` | dike-contracts/contracts/amm/src/lib.rs:1155-1195 | Admitted only for a position in debt whose whole balance would bring at most 105% of it (LiquidatesUnderwater) |
| `DikeAmm.Amm.LiquidatePosition` | dike-contracts/contracts/amm/src/lib.rs:1155-1215 | Guards, forced sale and release in order: the receipt of LiquidationClears, or the same error |
| `DikeAmm.Amm.LiquidateChildPosition` | dike-contracts/contracts/amm/src/lib.rs:1217-1273 | Guards, forced sale and closing of the leg in order, or the same error |
| `MarketRegistry.Registry.Register` | dike-contracts/contracts/market_registry/src/lib.rs:262-310 | A market with valid terms gets the next number and starts Created; otherwise the state stays |
| `MarketRegistry.Registry.TransitionTo` | dike-contracts/contracts/market_registry/src/lib.rs:184-196 | Moves along the transition relation or is refused with the state unchanged |
| `MarketRegistry.Registry.Close` | dike-contracts/contracts/market_registry/src/lib.rs:350-356 | Closes trading only from its expiry on and only along the transition relation |
| `MarketRegistry.Registry.MarkRequested` | dike-contracts/contracts/market_registry/src/lib.rs:358-378 | Status and request number are set together, only from closed trading |
| `MarketRegistry.Registry.Finalize` | dike-contracts/contracts/market_registry/src/lib.rs:395-410 | Writes the final outcome and Resolved together, and only once (OutcomeIsFinal) |
| `ResolutionLaws.Lockstep` | dike-contracts/contracts/cod_oracle/src/lib.rs:307-714 | In every run in which governance only uses statuses before resolution: one request per market, request status and market status correspond, the outcomes agree, so a market with a request is never cancelled |
| `ResolutionLaws.GovernOrderly` | dike-contracts/contracts/market_registry/src/lib.rs:329-343 | A status set by governance keeps oracle and registry in lockstep if and only if it precedes resolution |
| `ResolutionBonds.BondsAreExact` | dike-contracts/contracts/cod_oracle/src/lib.rs:406-714 | In every run, whatever governance does: the bonds under a request's number are exactly those its status calls for (none when requested, one of the agreed amount when proposed, two when disputed or escalated, all zero when finalized) if and only if nobody locked one under it past the oracle |
| `ResolutionBonds.StrangersBondStays` | dike-contracts/contracts/collateral_vault/src/lib.rs:1499-1546 | A run in which they are not: a bond locked by anyone under number 1 before the first request is made stays there next to the none that the request calls for |
| `ResolutionLaws.BondLifecycle` | dike-contracts/contracts/cod_oracle/src/lib.rs:406-714 | In every run the bonds of the request's own sides are there: the proposer's once proposed, both once disputed, each of exactly the agreed amount, and empty once finalized |
| `ResolutionLaws.BondsPaidOut` | dike-contracts/contracts/cod_oracle/src/lib.rs:584-714 | In each of the three verdicts both bonds leave the vault completely |
| `ResolutionLaws.ReportSucceeds` | dike-contracts/contracts/cod_oracle/src/lib.rs:584-714 | In every run a verdict on an escalated request can be reported if and only if the vault holds both bonds, the verdict agrees with neither side or leaves the winner at least one unit of the losing bond, and the market still takes an outcome, which it does unless governance moved it; then both bonds are paid out in full |
| `ResolutionLaws.SlashSucceeds` | dike-contracts/contracts/collateral_vault/src/lib.rs:1604-1659 | Slashing a bond in portions succeeds if and only if the vault holds the bond and the winner's portion is positive |
| `ResolutionPayouts.VerdictPays` | dike-contracts/contracts/cod_oracle/src/lib.rs:584-714 | In every run with a forward clock a reported verdict gives the side it agrees with its bond back and its share of the other, rounded down, council and treasury their parts, and for neither side both bonds back; nobody else receives anything, and both bonds leave the vault |
| `ResolutionLaws.OutcomeIsFinal` | dike-contracts/contracts/market_registry/src/lib.rs:395-410 | Under every run, governance included, the final outcome is written at most once |
| `ResolutionTimes.NothingBeforeItsTime` | dike-contracts/contracts/cod_oracle/src/lib.rs:260-714 | In every run with a forward clock, whatever governance does: a request stands on its market's own terms and comes after expiry; a dispute comes within the window; an undisputed outcome is final only after the window, and a disputed one only more than two windows after the dispute |
| `ResolutionTimes.SettlesExactly` | dike-contracts/contracts/cod_oracle/src/lib.rs:503-539 | In every run a proposal is settled if and only if its window is over, the market still takes an outcome and the vault has the bond; the answer is DisputeWindowOpen if and only if the window is not over |
| `ResolutionTimes.SettlingPaysProposer` | dike-contracts/contracts/cod_oracle/src/lib.rs:503-539 | A settled proposal becomes the outcome of request and market, and its bond goes back to the proposer and to nobody else |
| `ResolutionTimes.ContestsExactly` | dike-contracts/contracts/cod_oracle/src/lib.rs:450-501 | A dispute by someone who signs, with evidence and another outcome, is refused for its time if and only if the window is over, and otherwise accepted if and only if the bond can be locked and the market stands at the proposal |
| `ResolutionTimes.AsksExactly` | dike-contracts/contracts/cod_oracle/src/lib.rs:307-404 | A question is accepted if and only if the oracle runs, the terms are the market's own, it has expired and is live or closed without an outcome, and nobody asked before |
| `ResolutionTimes.AssertsExactly` | dike-contracts/contracts/cod_oracle/src/lib.rs:406-448 | A proposal is accepted if and only if signed, with evidence, for an open question, with a bond that can be locked and a market that waits for it |
| `ResolutionTimes.ReferralOpens` | dike-contracts/contracts/cod_oracle/src/lib.rs:541-575 | A referral opens an empty case whose commit window is one dispute window from now and whose reveal window is as long |
| `ResolutionVerdict.VerdictReportable` | dike-contracts/contracts/council_of_dike/src/lib.rs:460-470 | In every run with a forward clock, whatever governance did and whether or not the host allows re-entry, a case gets its request a verdict if and only if it has none yet, voting is over, the vault holds both bonds, the verdict agrees with neither side or leaves the winner at least one unit, the market still takes an outcome, and either re-entry is allowed or nothing goes to the council's pool |
| `JointLaws.VerdictNeverLacksMoney` | dike-contracts/contracts/cod_oracle/src/lib.rs:584-714 | In every run of the whole system that leaves the vault covered, as every run without credit does, the same equivalence holds without the condition on money |
| `JointLaws.NothingDrawnCovered` | dike-contracts/PLAN.md:2125 | Every run of the whole system without credit leaves the vault covered |
| `JointLaws.PluralityIsPaid` | dike-contracts/contracts/collateral_vault/src/lib.rs:1210-1378 | In every run of the whole system without credit: when a disputed market ended YES or NO, more voters revealed that outcome than each other one, and every holder of its tokens is paid one unit for each |
| `JointLaws.PluralityIsPaidWhenCovered` | dike-contracts/contracts/collateral_vault/src/lib.rs:1210-1378 | The same with credit, in every run of the whole system that leaves the vault covered, for a holder nothing is kept back from: the outcome had the most voters, and the payout is that of ClaimsPaid |
| `JointRuns.JointIsBoth` | dike-contracts/contracts/cod_oracle/src/lib.rs:307-714 | A run of the whole system, with trades and resolution on one registry, one vault and one clock, is a run of the collateral side, and its resolution is a run of the resolution with a forward clock |
| `JointRuns.MoveIsCalls` | dike-contracts/contracts/cod_oracle/src/lib.rs:307-714 | Every accepted move of the resolution changes registry and vault as a sequence of registry moves and bond calls does |
| `JointRuns.CallIsMoves` | dike-contracts/contracts/collateral_vault/src/lib.rs:412-627 | Every accepted call of the collateral side is for the resolution a market created, a pause, or a change elsewhere in the vault that leaves bonds alone |
| `Stage.Decides` | dike-contracts/contracts/cod_oracle/src/lib.rs:307-539 | A live market nobody asked about can be decided by three accepted transactions: asked about once it has expired, stated under a bond, settled when the window is over; nothing else in the books, debts or tokens changes |
| `ResolutionLaws.FinalizeAloneStrands` | dike-contracts/contracts/council_of_dike/src/lib.rs:433-458 | Finalizing the case of an escalated request without reporting leaves the request without a verdict |
| `ResolutionLaws.StrandedForever` | dike-contracts/contracts/council_of_dike/src/lib.rs:433-470 | From then on, in every later run and whatever governance does, the request stays escalated, its market gets no outcome and both bonds stay locked |
| `ResolutionLaws.StrayForever` | dike-contracts/contracts/collateral_vault/src/lib.rs:1499-1659 | A bond locked under a key of neither side of its request stays locked in every run |
| `ResolutionLaws.ApplyOrderly` | dike-contracts/contracts/cod_oracle/src/lib.rs:307-714 | Every move of oracle, council, registry or vault keeps requests, markets, bonds and cases in step, and statuses too as long as governance sets none of the resolution path |
| `ResolutionContracts.Oracle.RequestResolution` | dike-contracts/contracts/cod_oracle/src/lib.rs:307-404 | One request per market, with terms that repeat the market's, only after trading has ended |
| `ResolutionContracts.Oracle.CloseForRequest` | dike-contracts/contracts/cod_oracle/src/lib.rs:333-346 | A live market is closed on the way, a decided or cancelled one refused |
| `ResolutionContracts.Oracle.ProposeOutcome` | dike-contracts/contracts/cod_oracle/src/lib.rs:406-448 | The first proposal with evidence locks the proposer's bond and moves request and registry to Proposed |
| `ResolutionContracts.Oracle.DisputeOutcome` | dike-contracts/contracts/cod_oracle/src/lib.rs:450-501 | Inside the window a different outcome with evidence locks the disputer's bond and moves both to Disputed |
| `ResolutionContracts.Oracle.FinalizeUndisputed` | dike-contracts/contracts/cod_oracle/src/lib.rs:503-539 | After the window the proposed outcome becomes final in request and registry and the bond is released |
| `ResolutionContracts.Oracle.EscalateToCouncil` | dike-contracts/contracts/cod_oracle/src/lib.rs:541-575 | A disputed request opens exactly one case with both outcomes and moves to the council |
| `ResolutionContracts.Oracle.DistributeBonds` | dike-contracts/contracts/cod_oracle/src/lib.rs:600-701 | The bonds are paid as BondsPaidOut describes |
| `ResolutionContracts.Oracle.ReportCouncilOutcome` | dike-contracts/contracts/cod_oracle/src/lib.rs:584-714 | Bonds, registry and request change together as in ReportSucceeds, or the first error of the sequence |
| `ResolutionVerdict.OutcomeIsThePlurality` | dike-contracts/contracts/council_of_dike/src/lib.rs:355-470 | In every resolution run with a forward clock, whatever governance does: a disputed request with an outcome has the verdict of its own case, the registry's final outcome is the same, and it is YES or NO if and only if more voters revealed that outcome than each other one |
| `ResolutionVerdict.CouncilLawsInWorld` | dike-contracts/contracts/council_of_dike/src/lib.rs:248-575 | In every such run, where the oracle opens the cases and fills their pools: tallies count the reveals, reveals are among the commits, payments stay within each pool, and the balance covers all unpaid pools |
| `ResolutionCouncil.CouncilIsRun` | dike-contracts/contracts/council_of_dike/src/lib.rs:248-575 | In every resolution run with a forward clock the council is that of a run of the council by itself with a forward clock: an accepted vote, claim, sweep, referral or report is exactly its acts there |
| `ResolutionCouncil.NoCommitAfterRevealInWorld` | dike-contracts/contracts/council_of_dike/src/lib.rs:355-384 | So in the resolution, too, no commit is accepted once a vote is revealed |
| `ResolutionCouncil.VerdictIsFinalInWorld` | dike-contracts/contracts/council_of_dike/src/lib.rs:433-458 | No later resolution run changes verdict, tally or reveals of a finalized case, nor forgets who claimed |
| `ResolutionCouncil.ClaimOnceInWorld` | dike-contracts/contracts/council_of_dike/src/lib.rs:472-532 | Over every resolution run at most one claim of a voter on a case is accepted |
| `ResolutionCouncil.RewardsInWorld` | dike-contracts/contracts/council_of_dike/src/lib.rs:472-532 | Over every resolution run each correct voter who claimed was paid the same share p of the pool, with p * n <= pool < (p + 1) * n for the n voters who revealed the verdict, and once all of them claimed less than n units are left |
| `CouncilVoting.CouncilLaws` | dike-contracts/contracts/council_of_dike/src/lib.rs:248-575 | The same laws, and the strict plurality of the verdict, over every run of the council on its own |
| `CouncilVoting.VerdictIsPlurality` | dike-contracts/contracts/council_of_dike/src/lib.rs:433-458 | The verdict is YES or NO if and only if that outcome has more votes than each other one |
| `CouncilVoting.NoCommitAfterReveal` | dike-contracts/contracts/council_of_dike/src/lib.rs:355-384 | Once a vote is revealed no commit is accepted |
| `CouncilVoting.VerdictIsFinal` | dike-contracts/contracts/council_of_dike/src/lib.rs:433-458 | No later run changes verdict, tally or reveals of a finalized case, nor forgets who claimed |
| `CouncilVoting.ClaimOnce` | dike-contracts/contracts/council_of_dike/src/lib.rs:472-532 | Over any run from a fair council at most one claim of a voter on a case succeeds |
| `CouncilVoting.PaidWithinPool` | dike-contracts/contracts/council_of_dike/src/lib.rs:472-532 | What was paid never exceeds the pool |
| `CouncilVoting.ClaimFair` | dike-contracts/contracts/council_of_dike/src/lib.rs:472-532 | A claim pays one share at most and keeps the payments of a case within its pool, even after the pool grew |
| `CouncilVoting.GrowFair` | dike-contracts/contracts/council_of_dike/src/lib.rs:248-261 | A growing pool never makes past payments too large |
| `CouncilVoting.SweepFair` | dike-contracts/contracts/council_of_dike/src/lib.rs:534-575 | Only a pool nobody was paid from is swept |
| `CouncilRewards.ClaimPaysShare` | dike-contracts/contracts/council_of_dike/src/lib.rs:497-520 | An accepted claim pays a correct voter the pool divided by the voters who revealed the verdict, rounded down, and a wrong one nothing |
| `CouncilRewards.ClaimsExactly` | dike-contracts/contracts/council_of_dike/src/lib.rs:472-532 | A claim is heard if and only if signed, by a voter who revealed, after the verdict, once; the money is always there |
| `CouncilRewards.SweepsExactly` | dike-contracts/contracts/council_of_dike/src/lib.rs:534-575 | A pool is swept if and only if nobody voted for the verdict and it is not empty; all of it leaves |
| `CouncilRewards.RevealsMatchCommits` | dike-contracts/contracts/council_of_dike/src/lib.rs:386-431 | In every run a revealed vote opens the commitment its voter made |
| `CouncilRewards.CommitsExactly` | dike-contracts/contracts/council_of_dike/src/lib.rs:355-384 | A commit is accepted if and only if it is a seated member's first, signed, inside the window of an open case, and changes nothing but that commitment |
| `CouncilRewards.RevealsExactly` | dike-contracts/contracts/council_of_dike/src/lib.rs:386-431 | A reveal is accepted if and only if it opens the seated member's commitment inside the reveal window, for the first time, and counts once for its outcome |
| `CouncilRewards.FinalizesExactly` | dike-contracts/contracts/council_of_dike/src/lib.rs:433-458 | A case gets its verdict if and only if it has none and its reveal window is over, by strict plurality, and nothing else of it changes |
| `CouncilVoting.PerformFair` | dike-contracts/contracts/council_of_dike/src/lib.rs:248-575 | Every act keeps these laws as long as the clock does not go back |
| `ResolutionContracts.Council.OpenCase` | dike-contracts/contracts/council_of_dike/src/lib.rs:263-353 | One case per request, with evidence on both sides and different outcomes; its windows start now |
| `ResolutionContracts.Council.CommitVote` | dike-contracts/contracts/council_of_dike/src/lib.rs:355-384 | Members only, once each, before the commit window ends and the case is final |
| `ResolutionContracts.Council.RevealVote` | dike-contracts/contracts/council_of_dike/src/lib.rs:386-431 | Accepted only for the committed vote inside the window; counted once |
| `ResolutionContracts.Council.FinalizeCase` | dike-contracts/contracts/council_of_dike/src/lib.rs:433-458 | The verdict of VerdictIsPlurality, once the window is over |
| `ResolutionContracts.Council.FinalizeAndReportCase` | dike-contracts/contracts/council_of_dike/src/lib.rs:460-470 | Verdict and report in one transaction: both happen or neither |
| `ResolutionContracts.Council.RecordCaseReward` | dike-contracts/contracts/council_of_dike/src/lib.rs:248-261 | A positive amount raises the pool of the case and the council's balance together |
| `ResolutionContracts.Council.ClaimReward` | dike-contracts/contracts/council_of_dike/src/lib.rs:472-532 | A voter who revealed is paid one floored share if right and nothing if wrong, once (ClaimOnce) |
| `ResolutionContracts.Council.SweepCaseReward` | dike-contracts/contracts/council_of_dike/src/lib.rs:534-575 | Only the pool of a verdict that nobody voted for is paid out, and emptied (SweepFair) |
| `BondSplits.SplitIsExact` | dike-contracts/contracts/fee_manager/src/lib.rs:252-270 | The winner's and the council's portions are their shares rounded down and the treasury has the rest; the winner's or the council's is empty if and only if it rounds below one unit |
| `BondSplits.FeeManager.Split` | dike-contracts/contracts/fee_manager/src/lib.rs:252-270 | The portions of SplitIsExact from the stored shares |
| `BondSplits.FeeManager.SetBondSplit` | dike-contracts/contracts/fee_manager/src/lib.rs:178-205 | Accepted if and only if the shares add up to the whole |
| `BondSplits.FeeManager.TradingFeeSplit` | dike-contracts/contracts/fee_manager/src/lib.rs:236-250 | Accepted for positive amounts; the three parts are non-negative and add up to the floored fee |
| `BondSplits.FeeManager.SetConfig` | dike-contracts/contracts/fee_manager/src/lib.rs:151-158 | A configuration is stored if and only if its shares are valid |
| `Indexer.EventSource.ReadPages` | dike-services/src/indexer/event-source.ts:73-172 | The paging loop with its flags reads exactly as far, and calls whole exactly what, the page-by-page reading says |
| `Indexer.EventSource.KeepWindow` | dike-services/src/indexer/event-source.ts:108-126 | Of a page exactly the events of the window are kept, and the flag is raised exactly when one lies beyond |
| `Indexer.EventSource.PollContract` | dike-services/src/indexer/event-source.ts:28-173 | Missing start ledger, rewind or window, in the source's order |
| `Indexer.CompleteMeansWholeWindow` | dike-services/src/indexer/event-source.ts:72-172 | A batch is always the beginning of its window, and all of it when called complete |
| `Indexer.CompleteExactly` | dike-services/src/indexer/event-source.ts:103-160 | Without faults a poll is complete if and only if the window holds fewer than 100 events, or all later events fit on the page on which the window ends and that is not the last page |
| `Indexer.ReadIsSafe` | dike-services/src/indexer/event-source.ts:103-160 | Nothing beyond the window is counted, and only the whole window is called whole, whatever fails |
| `Indexer.ReadsWholeExactly` | dike-services/src/indexer/event-source.ts:103-160 | The same if-and-only-if from any page on |
| `Indexer.BlockedIsNeverWhole` | dike-services/src/indexer/event-source.ts:138-160 | Too many events after a full first page: no answer of the node is called whole |
| `Indexer.BlockedForever` | dike-services/src/indexer/worker.ts:106-139 | Then no run of ticks ever moves the checkpoint again |
| `Indexer.RewindsWhenCaughtUp` | dike-services/src/indexer/event-source.ts:49-70 | The poll rewinds if and only if the checkpoint is at or above the tip, also when it is exactly caught up |
| `Indexer.CheckpointMoves` | dike-services/src/indexer/worker.ts:106-139 | A turn that reads its window whole, handles all and stores leaves the checkpoint at the end of that window, past the old one, or after a rewind the margin below the tip; every other turn leaves it |
| `IndexerProgress.WindowsAdvance` | dike-services/src/indexer/worker.ts:63-140 | After n ticks without faults over windows that can be read whole the checkpoint is n windows further, or at the tip if that comes first |
| `IndexerProgress.TipReached` | dike-services/src/indexer/worker.ts:63-140 | So any fixed tip is reached in as many ticks as it takes windows to cover the ledgers up to it |
| `IndexerProgress.StuckAtZero` | dike-services/src/indexer/event-source.ts:35-48 | The one exception: from start ledger 0 with windows of one ledger the checkpoint stays zero in every run |
| `Indexer.CoverageKept` | dike-services/src/indexer/worker.ts:85-120 | Advance, reset or retain: everything from the start ledger to the next checkpoint has been handled |
| `Indexer.IndexerWorker.Process` | dike-services/src/indexer/worker.ts:83-104 | Succeeds if and only if every event can be recorded and dispatched, and dispatches exactly those before the first that can not |
| `Indexer.IndexerWorker.IndexDeployment` | dike-services/src/indexer/worker.ts:77-140 | The checkpoint moves to the end of the window, or after a rewind the margin below the tip, when the turn finishes, and not otherwise; other contracts keep theirs, and no event below any checkpoint was left out |
| `Indexer.IndexerWorker.Tick` | dike-services/src/indexer/worker.ts:63-167 | Nothing without the lease or while running; otherwise every deployment in turn until an error, never skipping an event; a tick without errors moves every checkpoint by the rule |
| `Indexer.IndexerWorker.Run` | dike-services/src/indexer/worker.ts:46-54 | Over any run of ticks with any failures and rewinds, every event from the start ledger up to the stored checkpoint was recorded and dispatched |
| `Indexer.Repository.AdvanceCheckpoint` | dike-services/src/db/repositories/state-repository.ts:148-158 | The checkpoint never falls by an advance |
| `Indexer.Repository.ResetCheckpoint` | dike-services/src/db/repositories/state-repository.ts:160-170 | The checkpoint is replaced outright |

## Left out

- Overflow of 128-bit and 64-bit integers: a checked operation that overflows aborts the call, so the model counts with
  exact integers and treats an overflow as a call that did not happen. Division truncates toward zero, as in the source.
- The state a class method leaves when it returns an error: the host reverts the transaction. `DikeSystem.System.Invoke`
  restores the snapshot; the other class methods promise the error only.
- Whether the host allows re-entry is a parameter of `CodOracle.FinalizeAndReportOn`. The runs and the class method
  `ResolutionContracts.Council.FinalizeAndReportCase` are those of a host that does; a host that does not refuses some
  of their reports, and a refused transaction changes nothing.
- record_case_reward does not ask whether the case exists; the model answers CaseNotFound, which the oracle, its only
  caller, never meets.
- Vault records that only displays read: total_deposited, user_deposit, the per-user redeemed counter, the aggregate
  child_collateral_used and the loan totals per child.
- Pool counters accumulated_lp_fees, accumulated_protocol_fees, accumulated_cod_fees and the average price of quotes.
- Storage lifetimes, event publishing, upgrades, constructors, role and module wiring, treasury and member lists as
  administration. Roles are wired to the real contracts: only the pool contract mints, opens credit and releases, only
  the oracle releases or slashes bonds. An authorised caller is an `Account`, so the contracts themselves never sign.
- More than one collateral token; the vault's claims are in one token, and the collateral that others hold is not
  modelled, so a payment into the vault always has the money. Who is paid out of bonds is counted; elsewhere the
  receiver is the user of the call, and a receipt says what goes to the liquidator and what to the user.
- The creation fee and the factory's validation of a market's configuration, the timelock and governance contracts.
- split_position and the disabled entry points redeem and fund_child_prediction: nothing calls the first, the others
  always fail.
- set_fee_config, set_bond_config and the read-only views.
- Commitments are ideal hashes: equal exactly when voter, case, outcome and salt are equal. SHA-256 and XDR encoding are
  not part of this model.
- In runs of CodOracle everything else in the vault is one arbitrary change that leaves bonds alone; the calls
  themselves are in the runs of JointRuns.
- Runs of the whole system register no market without a pool: the factory creates both together.
- Indexer: a node's log is one fixed sequence of which a growing part is visible; event decoding failures count as page
  failures, and the dispatcher's own effects, the database and the metrics are not modelled. Replays may handle an
  event more than once; exactly-once storage is the database's matter.
- dike-web, the REST server, reconciliation and fee sponsorship.
