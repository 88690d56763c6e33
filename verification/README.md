# Cytisus: verified model of the ledger, money and the protocols on top of it

This project models the financial core of Cytisus in Dafny and proves what its parts promise: fixed-scale decimals,
an immutable double-entry ledger, the RWA mint/redeem/recover saga, the card product with its auto-sell loop, the
securities position projection with share custody, and crypto routing, conversions and withdrawals. `dafny verify dfyconfig.toml`
checks everything.

## How the model is built

- A database transaction is one atomic step. Row locks (`FOR UPDATE`) justify that. Each operation is a function from
  the tables before to the tables after and a result; an early return gives back the tables unchanged. A class per
  service holds the tables in a field, its methods reassign them step by step with the loops the services have, and
  every method is proved equal to its function. The theorems are about those functions, over every run.
- Tables are maps and sequences. A fresh UUID is the next position in a sequence. A request or payload hash is the
  request or payload itself. Times, audit rows, outbox rows, notifications and JSON metadata have no effect on the
  modelled state and are absent.
- `CHECK`, `UNIQUE` and trigger rules of the migrations belong to the behaviour: a write that breaks one fails its
  whole transaction. Several results below depend on them.
- A decimal is its integer coefficient at scale 18; `LIMIT` is 10^38. Balances are sums over entries and are read
  through the 38-digit bound.
- Calls to a chain, a venue or a broker between two transactions are separate steps with any outcome the assumptions
  below allow, including none at all (a lost response or a crash). The venue router is part of the model; what venues
  quote and answer is arbitrary.

Modules: `Digits`, `Decimals`, `DecimalText` (internal/money); `Entries`, `Ledger`, `LedgerHistory`, `LedgerPostings`,
`ReversalChains` (internal/ledger); `RwaSaga`, `RwaWorld`, `RwaSafety`, `RwaCustody`, `RwaOperations`, `RwaService`
(internal/rwa); `AutoSell`, `CardLedger`, `Card`, `CardHolds`, `CardReceivable`, `CardRepayment`, `CardRuns`, `CardTips`,
`CardAmounts`, `CardSales`, `CardGuards`, `CardPower`, `CardOverdraft`, `CardBalance`, `CardPostings`, `CardService` (internal/card);
`Positions`, `Securities`, `SecuritiesRuns`, `SecuritiesHistory`, `SecuritiesPrices`, `SecuritiesCustody`,
`SecuritiesOversold`, `SecuritiesBalance`, `SecuritiesService` (internal/securities); `Router`, `RouterReports`
(internal/crypto/router); `Crypto`, `CryptoRuns`, `CryptoFunds`, `CryptoStatus`, `CryptoReplays`, `CryptoBalance`,
`CryptoService` (internal/crypto); `Results`, `Sums` (shared).

## Assumptions about the outside world

- Chain: an operation identifier executes at most once (the contract refuses it a second time); a positive provider
  response or an `Executed` answer is true; only the saga mints and burns. These are `RwaWorld.Truthful`.
- Chain, finality: when recovery is told that a mint was not executed, no call for it is still in flight. This is
  `RwaWorld.Final`, kept apart because the code does not establish it. `RwaSafety.BackedExactlyWhenNeverLate` says
  exactly which runs keep backing without it and `RwaSafety.FinalityIsNeeded` is a run that does not.
- Ledger accounts of different roles are different accounts (the unique columns and account keys give this), and
  other products do not post to a card receivable account, to a customer's security or locked account, or to the held
  dimension of a crypto customer's accounts. Each `Elsewhere` step states this. `SecuritiesBalance.Sparing` adds that
  they leave the provisional dimension of a paper customer's cash alone, which only internal/securities/fills.go uses.
- Ledger idempotency keys of the products contain a fresh identifier or an external event identifier, so inside the
  product models a posting is new, except for fills, where the ledger's own provider-event table is modelled.

## Where the code does less than it sets out to

- Recovery frees the shares of a mint on a negative chain answer without looking at the mint's status
  (internal/rwa/recovery.go:123-165), so a call still in flight leaves an unbacked token: see the finality lemmas.
- An auto-sell asset with nothing sellable is meant to be recorded as failed and passed over
  (internal/card/autosell.go:113-128), but its row has quantity zero, which
  db/migrations/000007_card_mvp.up.sql:384-387 refuses, so the capture fails: exactly when the loop reaches an asset
  that `AutoSell.Blocks` it (`CardRepayment.CaptureFailsOnEmptyAsset`). `AutoSell.NothingHeldBlocks` is a concrete one.
- A purchase charges the platform fee child by child, each rounded (internal/crypto/router/router.go:140-152), and
  reports the fee on the total, rounded once (internal/crypto/router/router.go:291). The difference of the two, at most
  2·10^-18 dollars, stays held after the conversion has ended, or is released twice: `CryptoRuns.HeldIsPending` counts
  it exactly, `Router.OneFillLeavesNothing` says a single fill leaves none, and `Router.ElevenDollars` is a purchase
  that does.
- Rounding can make a sale remove more cost than the basis holds, and db/migrations/000003_paper_securities.up.sql:333-334
  then refuses the sale: exactly when `Positions.SaleIsStoredExactly` says so, which is only for leaving dust.
- A refund or accepted dispute of a capture that a statement has paid can take the receivable below zero: over every
  run exactly when one of them gives back min(amount, owed) above the receivable (`CardOverdraft.Overdraws`), and no
  other step can. `CardOverdraft.PaidThenReturned` is a run that does.
- Shares in custody are not offered for sale (internal/securities/orders.go:36-172), but a sale that was placed before
  they were reserved can still fill: custody stays within the position over a run exactly when no such fill is larger than
  what is unreserved by then (`SecuritiesCustody.CoveredExactlyWhenNotSold`); `SecuritiesOversold.CustodyIsSold` is a run
  in which one is.

## Model

| member | source | states |
|---|---|---|
| Digits.DigitCountBound | internal/money/decimal.go:267-276 | the digit-count test of the coefficient is the bound 10^38 |
| Decimals.DigitTest | internal/money/decimal.go:267-276 | the constructor's test on the length of the numeral accepts a coefficient exactly when its magnitude is below 10^38 |
| Decimals.MagnitudeIsRounded | internal/money/decimal.go:298-311 | quotient, remainder and the mode's test give the rounding the mode defines by inequalities, ties to even included |
| Decimals.RoundingIsUnique | internal/money/decimal.go:298-311 | a ratio has exactly one rounding in each mode and the code computes it, signs included |
| Decimals.GridValue | internal/money/decimal.go:123-157 | the grid and unit the operations are stated over are the powers of ten for the places kept and dropped |
| Decimals.MultiplyRoundsProduct | internal/money/decimal.go:123-138 | multiplication succeeds exactly with the in-range grid rounding of the exact product |
| Decimals.DivideRoundsQuotient | internal/money/decimal.go:140-157 | division succeeds exactly with the in-range grid rounding of the exact quotient |
| Decimals.RoundRoundsValue | internal/money/rounding.go:38-66 | rounding alone succeeds exactly with the in-range grid rounding of the value |
| Decimals.RoutesAgree | internal/money/rounding.go:38-66 | Round(d), Multiply(d, 1) and Divide(d, 1) agree for every value and policy, errors included |
| Decimals.RoundIsIdempotent | internal/money/rounding.go:38-66 | rounding twice is rounding once |
| Decimals.RoundKeepsSign | internal/money/rounding.go:38-66 | rounding never crosses zero, and away from zero never loses a non-zero value |
| Decimals.RoundIsMonotone | internal/money/rounding.go:38-66 | rounding keeps order |
| Decimals.RoundingError | internal/money/rounding.go:68-85 | a rounding is less than one step off, at most half a step in the half modes, on the mode's side otherwise |
| Decimals.HalfModesAreNearest | internal/money/rounding.go:68-85 | no grid value is nearer than a half-mode rounding |
| DecimalText.ParseInvertsPrint | internal/money/decimal.go:34-110 | every value below 10^38 in magnitude survives printing and parsing |
| DecimalText.PrintIsCanonical | internal/money/decimal.go:90-110 | printing never produces a redundant zero, dot or negative zero |
| DecimalText.PrintInvertsParse | internal/money/decimal.go:34-110 | every canonical text that parses is the print of its value |
| DecimalText.ParseIsExact | internal/money/decimal.go:34-88 | a text parses to a value if and only if it is a sign or none, digits, and optionally a dot and one to eighteen digits that denote it, within 38 digits |
| DecimalText.DecodeIsExact | internal/money/decimal.go:231-265 | a numeric decodes to a value exactly when it denotes that value at scale 18 and fits 38 digits |
| DecimalText.ScanInvertsNumericValue | internal/money/decimal.go:221-265 | scanning a value's own numeric gives the value back |
| DecimalText.Cell.ScanNumeric | internal/money/decimal.go:231-265 | scanning overwrites the receiver exactly when decoding succeeds |
| Entries.SumByCurrency | internal/ledger/model.go:124-145 | the validator's running totals succeed exactly on valid entries whose gross sides fit, and are then the gross totals |
| Entries.ValidatePosting | internal/ledger/model.go:120-150 | the validator's loops decide exactly: enough valid entries, totals in range, every currency balanced |
| Entries.ReversedNegates | internal/ledger/service.go:514-519 | opposite entries negate every balance and swap the gross sides |
| LedgerPostings.BalanceIsSum | internal/ledger/service.go:325-346 | a balance is the sum, entry by entry, of debits less credits of its account, currency and dimension |
| LedgerPostings.HistoryIsSum | internal/ledger/service.go:325-346 | and over a ledger the sum over its transactions |
| LedgerPostings.CheckIsWellPosted | internal/ledger/model.go:120-150 | the check passes exactly two to 32767 positive entries whose debits equal their credits in every currency, as sums over the entries |
| Ledger.Service.AcquireRequest | internal/ledger/service.go:386-410 | a key is claimed once; a matching reuse finds its transaction, any other is a conflict |
| Ledger.Service.AcquireProviderEvent | internal/ledger/service.go:412-437 | the same for provider events and payloads |
| Ledger.Service.Insert | internal/ledger/service.go:148-171 | entries are inserted in order, reversed or not, exactly if policy and accounts pass the table rules |
| Ledger.Service.Post | internal/ledger/service.go:112-213 | the whole posting transaction equals its specification |
| Ledger.Service.Reverse | internal/ledger/service.go:215-323 | the whole reversal transaction equals its specification |
| LedgerHistory.HistoryIsValid | internal/ledger/service.go:112-323 | every history keeps the tables valid and only ever adds to them |
| LedgerHistory.RetryReturnsTheOriginal | internal/ledger/service.go:134-140 | a command that succeeded returns the same transaction ever after and changes nothing |
| LedgerHistory.ConflictChangesNothing | internal/ledger/service.go:404-409 | reusing a key for other data is refused ever after without a trace |
| LedgerHistory.EventReplayLeavesNoTrace | internal/ledger/service.go:141-149 | a provider event under a fresh key finds its transaction and leaves no request row |
| LedgerHistory.GrowsExactlyOnFirstSuccess | internal/ledger/service.go:112-213 | the tables change exactly on a first success, and then by one transaction |
| LedgerHistory.CommandEffect | internal/ledger/service.go:112-323 | a command changes nothing or records exactly one new transaction |
| LedgerPostings.PostedExactly | internal/ledger/service.go:112-213 | a new posting is recorded if and only if metadata, event, entries, accounts and policy version are in order, and then as the very transaction it asked for |
| LedgerPostings.ReversedExactly | internal/ledger/service.go:215-323 | in a valid ledger a new reversal is recorded if and only if the original exists and is not reversed, with the opposite entries |
| LedgerHistory.BalancesAddUp | internal/ledger/service.go:325-346 | balances over distinct keys that cover a currency sum to its debits minus credits |
| LedgerHistory.ZeroSum | internal/ledger/model.go:146-150 | after every history the balances of a currency sum to zero |
| LedgerHistory.ZeroSumPerDimension | internal/ledger/model.go:146-150 | if every posting balances each dimension, so does the ledger, through any reversals; the products below discharge the condition |
| ReversalChains.BalanceIsStanding | internal/ledger/service.go:252-283 | every balance is that of the non-reversal transactions reversed an even number of times over |
| ReversalChains.EndBalance | internal/ledger/service.go:272-283 | along a reversal chain entries alternate in sign |
| ReversalChains.StandsAfter | internal/ledger/service.go:243-262 | a reversal changes the standing of the root of its chain and of nothing else |
| ReversalChains.ReversedOnlyOnce | internal/ledger/service.go:252-262 | a transaction is reversed at most once, for good, under whatever key |
| RwaWorld.StepKeepsSane | internal/rwa/mint.go:104-246 | rows stay in agreement, the chain follows requests, and supply is the sum of per-mint tokens, after any truthful step |
| RwaWorld.NewlyMinted | internal/rwa/mint.go:169-246 | a mint becomes MINTED only by a positive answer to its own call |
| RwaSafety.GapIdentity | internal/rwa/reconciliation.go:83-92 | supply minus locked shares is the sum over mints of tokens minus shares |
| RwaSafety.BackedExactlyWhenNeverLate | internal/rwa/recovery.go:123-165 | without final answers, every state of a truthful run is backed mint by mint if and only if no step of it is late |
| RwaSafety.SupplyBreaksExactlyWhenLate | internal/rwa/reconciliation.go:83-92 | a late step takes the supply of an asset above its locked shares exactly when its quantity exceeds the idle locked shares of the other mints |
| RwaSafety.FinalityIsNeeded | internal/rwa/recovery.go:105-165 | a truthful run without final answers in which supply exceeds the locked shares |
| RwaSafety.StepKeepsSafe | internal/rwa/recovery.go:52-165 | the full invariant survives every truthful step with final answers |
| RwaSafety.SupplyIsBacked | internal/rwa/redemption.go:150-256 | in every reachable state supply is at most the LOCKED shares |
| RwaSafety.HoldingIsLockedMints | internal/rwa/mint.go:230-235 | in every reachable state a holding is the sum of the owner's MINTED mints still LOCKED |
| RwaSafety.Reconcile | internal/rwa/reconciliation.go:88-104 | reconciliation reports BALANCED exactly when supply equals locked shares |
| RwaSafety.BalancedExactlyAtRest | internal/rwa/reconciliation.go:83-104 | it balances exactly when no mint is between lock and execution or between burn and release |
| RwaSafety.QuiescentIsBalanced | internal/rwa/reconciliation.go:83-104 | when every mint and redemption has ended, supply equals locked shares |
| RwaSafety.RepeatedRedemptionFindsTheFirst | db/migrations/000008_rwa_simulator.up.sql:217 | a repeated redemption command finds the first after any run, and no other command ever starts a second for the same mint |
| RwaSafety.ExecutedBurnCompletes | internal/rwa/redemption.go:201-256 | in a safe state an executed burn completes: neither lock nor holding can stand in the way |
| RwaCustody.NewMintFits | internal/securities/custody.go:76-84 | a command that opens a mint ends with the owner's active reservations, summed over the rows, within the owner's position, and its row is the command's |
| RwaCustody.MintOpensExactlyWhenItFits | internal/rwa/mint.go:54-149 | a command opens a mint if and only if it is a well-formed, eligible, new request for an enabled asset with a destination, and quantity plus active reservations is at most the position |
| RwaCustody.RedemptionOpensExactly | internal/rwa/redemption.go:31-128 | in a safe state a command opens a redemption if and only if an eligible customer uses a new key on an own MINTED mint of an enabled asset that is not being redeemed |
| RwaCustody.LockedStaysWithinPosition | internal/securities/custody.go:76-84 | over every run in which trading lowers no position, each owner's LOCKED shares stay within the position |
| RwaOperations.BurnCompletesExactly | internal/rwa/redemption.go:150-256 | in a safe state a redemption completes if and only if the answer is positive, the chain confirms the burn inside the transaction, the asset is enabled and the event is its own |
| RwaOperations.MintEventIsItsOwn | internal/rwa/mint.go:219-268 | the event that confirmed a mint is recorded, and with another payload or for another mint it never confirms anything |
| RwaOperations.BurnEventIsItsOwn | internal/rwa/redemption.go:201-256 | the same for a burn, forced or not |
| RwaOperations.OperationsAreSound | db/queries/rwa/rwa.sql:256-285 | in every reachable state only operations with attempts left are claimed, and only spent ones are in the dead-letter state |
| RwaOperations.StepAttempts | db/queries/rwa/rwa.sql:256-263 | every finishing, undoing or deferring transaction that changes anything is exactly one more attempt of its operation and drops its claim |
| RwaOperations.ClaimTakesExactly | db/queries/rwa/rwa.sql:265-280 | a claim takes exactly the asked operations that wait, are unclaimed and have attempts left |
| RwaOperations.SweepGivesUpExactly | db/queries/rwa/rwa.sql:282-285 | a sweep gives up exactly the operations still open after eight attempts |
| RwaOperations.DeferLeavesWaiting | internal/rwa/recovery.go:167-178 | an operation that is put off waits again, with the reason and one more attempt |
| RwaSafety.RepeatedMintFindsTheFirst | internal/rwa/service.go:123-147 | a repeated mint command finds the first mint after any run |
| RwaService.Service.BeginMint | internal/rwa/mint.go:54-149 | the first transaction of a mint equals its specification |
| RwaService.Service.FinishMint | internal/rwa/mint.go:169-217 | the closing transaction of a mint equals its specification |
| RwaService.Service.BeginRedemption | internal/rwa/redemption.go:31-128 | the first transaction of a redemption equals its specification |
| RwaService.Service.FinishRedemption | internal/rwa/redemption.go:150-199 | the closing transaction, with its second query, equals its specification |
| RwaService.Service.ConfirmRedemption | internal/rwa/redemption.go:201-256 | burn-before-release equals its specification |
| RwaService.Service.RecoverFailedMint | internal/rwa/recovery.go:123-165 | the undo transaction equals its specification |
| RwaService.Service.MintShares | internal/rwa/mint.go:20-167 | lock, call and confirm are a truthful run with final answers and stay safe; the returned status is the one the mint row under the key has, and an unknown outcome leaves it for recovery |
| RwaService.Service.Redeem | internal/rwa/redemption.go:31-148 | the same for a redemption |
| RwaService.Service.RecoverOperation | internal/rwa/recovery.go:52-121 | a recovery that reports success has settled its operation, and no recovery loses progress |
| RwaService.Service.RecoverDueOperations | internal/rwa/recovery.go:21-50 | every claimed operation ends settled or with one more attempt; a full count means all are settled |
| AutoSell.SizingCovers | internal/card/autosell.go:95-106 | an order sized away from zero and filled at or above the limit brings at least the amount needed |
| AutoSell.WholeFillCovers | internal/card/autosell.go:79-106 | with fractions and enough free shares a whole fill ends the need |
| AutoSell.VenueIsFair | internal/card/provider/local.go:86-130 | the venue never fills more than ordered or below the limit, and proceeds are within half a step of quantity times price |
| AutoSell.BudgetBound | internal/card/autosell.go:57-205 | fills valued at their limits stay under the budget plus half a step per earlier fill plus one step of the last limit |
| AutoSell.LoopRetains | internal/card/autosell.go:79-106 | no asset at or above its minimum retained quantity is taken below it |
| AutoSell.LoopCreditsCash | internal/card/autosell.go:169-205 | the whole proceeds reach settled and withdrawable cash |
| AutoSell.SaleEffect | internal/card/autosell.go:169-181 | a sale posting moves exactly the shares and the proceeds, and balances each dimension |
| AutoSell.EmptyOrderAborts | internal/card/autosell.go:107-128 | one pass is refused by the table exactly when an unrestricted, sizable asset has no free share, or in whole shares less than one free or needed at the limit |
| AutoSell.BlockedLoopAborts | internal/card/autosell.go:57-205 | the loop is refused exactly when it comes to such an asset with something still needed |
| AutoSell.NothingHeldBlocks | internal/card/autosell.go:107-128 | an asset quoted at 220 dollars with a guardrail of 0.02, none held and fractions allowed, is one |
| AutoSell.ExecuteAutoSell | internal/card/autosell.go:22-207 | the priority loop equals its specification |
| CardSales.SoldOneIsTrue | internal/card/autosell.go:57-205 | every recorded fill is of an unrestricted asset with a usable quote, at 99.5% of it, no lower than the quote less the guardrail, whole or half of the order |
| CardSales.MarketableIsSold | internal/card/provider/local.go:86-130 | on a working venue an order is filled, and whole, exactly if the discounted quote reaches the limit and the limit is below the quote |
| CardSales.SkippedSaysWhy | internal/card/autosell.go:57-128 | a row that is no fill gives the reason: unknown, restricted, no usable price, or the venue's |
| CardSales.LoopBooksRows | internal/card/autosell.go:57-205 | over the whole loop the rows are exactly what left each share account and what came in |
| CardSales.CaptureRecordsSales | internal/card/captures.go:177-255 | a capture repays from cash as far as both balances reach, then from sales, records every sale, freezes exactly on a shortfall, and its records are what left the share accounts |
| CardSales.SoldOnIsDaySum | internal/card/autosell.go:46-57 | what counts against the daily maximum is the sum, row by row, of the proceeds of that customer's fills of that day |
| CardSales.DailyMaximumHolds | internal/card/autosell.go:46-57 | over every run a day's fills at their limits stay below the daily maximum plus half a step for each but the last and one step of the last limit, over however many captures |
| CardLedger.HoldEffect | internal/card/ledger.go:13-23 | a hold posting raises the customer's held balance only, and balances each dimension |
| CardLedger.CaptureEffect | internal/card/ledger.go:25-45 | a capture posting raises the receivable, lowers the hold, and balances each dimension |
| CardLedger.ReleaseEffect | internal/card/ledger.go:47-57 | a release posting lowers the hold only, and balances each dimension |
| CardLedger.RepaymentEffect | internal/card/ledger.go:59-107 | a repayment lowers both cash balances and the receivable alike, and balances each dimension |
| CardLedger.RefundEffect | internal/card/ledger.go:109-126 | a refund lowers the receivable and raises both cash balances by its split, and balances each dimension |
| CardLedger.RefundIsAccepted | internal/card/ledger.go:109-126 | a split of a positive amount always makes a posting that the ledger takes if its sides fit |
| CardHolds.CaptureConsumes | internal/card/captures.go:157-176 | a capture consumes min(released, settled) of the hold, and a final one reverses the rest |
| CardTips.TipsTelescopeOverRuns | internal/card/captures.go:134-149 | after every run the tip units of an authorization's captures add up to what was captured beyond it, and each tip is its units at the rate that settled the capture |
| CardAmounts.ConvertedIsConversion | internal/card/captures.go:124-133 | a conversion succeeds exactly with the half-even rounding of base times one plus markup, base the half-even rounding of amount times rate |
| CardAmounts.ConversionError | internal/card/captures.go:124-133 | dollars are off amount * rate * (1 + markup) by at most half a step and half a step of the base |
| CardAmounts.HundredEuros | internal/card/captures.go:124-133 | 100 at rate 1.1 with markup 0.01 are 111.10 |
| CardAmounts.EveryCaptureIsPriced | internal/card/captures.go:79-149 | over every run each capture was written by a step whose rate and markup its settled and tip amounts are converted at, on an own open authorization in its currency, within that step's tip allowance |
| CardAmounts.EveryAuthorizationIsPriced | internal/card/authorizations.go:92-151 | over every run each authorization was written by a step whose rate and markup its dollars are converted at, and is DECLINED exactly if card, customer or power said so then |
| CardPower.CollectCollateral | internal/card/spending.go:50-103 | the loop over collateral accounts computes total, number and largest, or fails where one of them does |
| CardPower.CalculateSpendingPower | internal/card/spending.go:25-154 | the whole calculation, with its loop, equals its specification |
| CardPower.CollectedAddsUp | internal/card/spending.go:50-103 | that total is one worth for each usable holding with something in it: quantity at price, and the haircut of that, both rounded |
| CardPower.AdjustedIsNearest | internal/card/spending.go:104-122 | a single position counts for 85%, one above 70% of several for 90% of all |
| CardPower.AvailableIsHeadroom | internal/card/spending.go:30-141 | what is available is what cash both balances cover, with collateral unless repayment is from cash only, up to both caps, exceeds holds and receivable by |
| CardPower.ApprovedStaysWithinPower | internal/card/authorizations.go:119-151 | an authorization approved on its power leaves holds and receivable together within both caps and within cash and collateral |
| CardHolds.CaptureKeepsHolds | internal/card/captures.go:157-255 | a capture keeps held balances equal to the open remainders |
| CardHolds.ReversalKeepsHolds | internal/card/adjustments.go:78-115 | so does a reversal |
| CardHolds.AuthorizationKeepsHolds | internal/card/authorizations.go:125-151 | so does an authorization, approved or declined |
| CardReceivable.AllocationIgnoresOrder | internal/card/adjustments.go:263-305 | adjustments in any order and sizes split as one adjustment of their total |
| CardReceivable.OneMoreAdjustment | internal/card/adjustments.go:287-304 | each split keeps the cumulative reduction at min(total, settled - repaid) |
| CardReceivable.AdjustmentKeepsReceivables | internal/card/adjustments.go:201-261 | a refund or accepted dispute keeps every receivable equation |
| CardRepayment.RepaymentProtectsCash | internal/card/captures.go:181-229 | repayment never takes cash below min(before, 0), keeps surplus proceeds as cash, and freezes exactly on a shortfall |
| CardRepayment.CaptureRepays | internal/card/captures.go:177-229 | repaid plus newly owed equals settled for a whole capture |
| CardRepayment.CaptureFailsOnEmptyAsset | internal/card/captures.go:177-229 | a capture fails on that row exactly when its earlier stages pass and its sale loop comes to such an asset |
| CardRuns.RunsAreSound | internal/card/captures.go:20-281 | all card invariants hold after every run of every operation |
| CardRuns.HeldIsOpenAuthorizations | internal/card/adjustments.go:78-115 | HELD is the sum over open authorizations of authorized - reversed - released, each non-negative |
| CardRuns.ClosedHoldIsAccountedFor | internal/card/captures.go:242-255 | at close, authorized is reversed plus consumed, and a closed authorization holds nothing |
| CardRuns.ReceivableIsOwed | internal/card/statements.go:150-157 | RECEIVABLE is what captures owe, never negative, minus statement payments; without payments it is never negative |
| CardRuns.AdjustmentsArePathIndependent | internal/card/disputes.go:154-167 | over every run the split of a capture's adjustments depends on their total alone |
| CardOverdraft.StepStaysAbove | internal/card/adjustments.go:201-261 | from a non-negative receivable a step leads below zero if and only if it is a refund or accepted dispute that takes effect and gives back min(amount, owed) above it |
| CardOverdraft.NegativeExactlyByOverdraft | internal/card/adjustments.go:201-305 | over every run the receivable is never negative if and only if no step overdraws |
| CardOverdraft.PaidThenReturned | internal/card/statements.go:118-162 | authorize, capture, generate, pay, refund: a run from the start that ends exactly the refund below zero |
| CardBalance.ZeroSumPerDimension | internal/ledger/model.go:146-150 | after every run of card operations, sale loops included, each currency sums to zero in each dimension |
| CardPostings.JournalIsAccepted | internal/ledger/model.go:120-150 | over every run the journal is made of postings that pass the ledger's check, each sale of the loop on its own |
| CardRuns.TakesEffectOnce | internal/card/captures.go:58-78 | an event or request that took effect is only answered ever after |
| CardGuards.OtherDataIsAConflict | internal/card/captures.go:58-78 | with other data the same event or key is a conflict ever after, without effect |
| CardGuards.AuthorizedExactlyWhenPriced | internal/card/authorizations.go:92-160 | an authorization is recorded exactly if its amount converts to positive dollars and, when approved, its hold is a posting the ledger takes |
| CardGuards.CapturedExactlyWhenAllowed | internal/card/captures.go:79-149 | a capture takes effect exactly on an own open authorization in its currency, with a total within the tip allowance and dollars for it and its tip, if its posting and its repayment go through |
| CardGuards.ReversedExactlyWhenHeld | internal/card/adjustments.go:63-115 | a reversal takes effect exactly on an own open authorization for no more than it still holds, and ends it exactly when nothing is left |
| CardGuards.RefundedExactlyWhenLeft | internal/card/adjustments.go:201-305 | a refund takes effect exactly on an own capture for no more than refunds and accepted disputes left, if its posting fits |
| CardGuards.DisputedExactlyWhenLeft | internal/card/disputes.go:67-103 | a dispute opens exactly on an own capture for no more than refunds and all live disputes leave, and moves no money |
| CardGuards.ResolvedExactlyWhenOpen | internal/card/disputes.go:126-176 | an open dispute is accepted exactly while its amount is left; a rejected one only changes its status; any other is left alone |
| CardGuards.PaidExactlyWhenCovered | internal/card/statements.go:118-162 | a statement is paid exactly if it is the customer's, unpaid, and covered by both cash balances and the receivable, which all fall by it |
| CardGuards.StatementAsksForReceivable | internal/card/statements.go:18-62 | a generated statement asks for exactly the positive receivable, once per period; a paid one is left alone |
| CardGuards.OthersGetNoStatement | internal/card/statements.go:18-62 | a customer who is not on monthly statements gets none |
| CardService.AddUp | internal/card/captures.go:96-113 | the loop over earlier captures computes their three totals, or overflows exactly when their total does |
| CardService.PriorTotal | internal/card/adjustments.go:264-283 | the loop over earlier refunds and the accepted disputes computes the prior adjustments |
| CardService.Repay | internal/card/captures.go:181-229 | the repayment stage equals its specification |
| CardService.Service.Execute | internal/card/captures.go:20-281 | every command transaction equals its specification and keeps the invariants |
| CardService.Service.CapturePayment | internal/card/captures.go:79-255 | a capture equals its specification |
| CardService.Service.Refund | internal/card/adjustments.go:201-243 | a refund equals its specification |
| CardService.Service.ResolveDispute | internal/card/disputes.go:126-176 | resolving a dispute equals its specification and keeps the invariants |
| CardService.Service.GenerateStatement | internal/card/statements.go:18-62 | generating a statement equals its specification and keeps the invariants |
| Positions.Projection.UpdatePosition | internal/securities/projections.go:144-226 | the row update equals its specification, refusals included |
| Positions.ProfitIdentity | internal/securities/projections.go:167-212 | realized profit minus cost basis is proceeds minus cost plus dropped residuals, exactly |
| Positions.DriftBound | internal/securities/projections.go:167-212 | cost basis drifts from average cost times quantity by at most half a step per share last bought and per sale since |
| Positions.ResidualBound | internal/securities/projections.go:205-208 | the residual dropped on going flat obeys the same bound |
| Positions.SaleIsStoredExactly | db/migrations/000003_paper_securities.up.sql:331-339 | a sale of held shares is stored unless it leaves shares and removes more cost than there is |
| Positions.RefusedSaleLeavesDust | db/migrations/000003_paper_securities.up.sql:333-334 | a refused sale would leave less, at average cost, than rounding has drifted |
| Positions.DustSaleRefused | internal/securities/projections.go:186-204 | a concrete purchase and sale that is refused |
| SecuritiesRuns.ProjectionRefinesLedger | internal/securities/custody.go:46-171 | a position is the customer's ledger balance plus active reservations, which is what the locked account holds |
| SecuritiesRuns.OrdersAddUp | internal/securities/fills.go:185-274 | filled is the sum of fills, within the quantity, FILLED exactly when complete, one fill per event |
| SecuritiesRuns.FillTakesEffect | internal/securities/fills.go:173-274 | a new fill moves ledger, position and order by the same quantity, once |
| SecuritiesRuns.ReplayChangesNothing | internal/securities/fills.go:103-127 | a delivered event delivered again at any later time changes nothing |
| SecuritiesRuns.EventIsItsOwn | internal/securities/fills.go:99-128 | after any run an event under a used identity changes nothing, and is accepted exactly with the same order, payload and type and a cursor not behind the order's |
| SecuritiesRuns.EndedForGood | db/migrations/000003_paper_securities.up.sql:351-380 | an order that ended never changes again |
| SecuritiesCustody.EventMovesOrder | internal/securities/fills.go:128-274 | an accepted event answers its order as its kind says, along a transition the table allows, and leaves the others |
| SecuritiesCustody.StatusAcceptedExactly | internal/securities/fills.go:92-150 | a new status event is accepted if and only if its transition is one the table allows, or an open order only moves its cursor on |
| SecuritiesCustody.FillAcceptedExactly | internal/securities/fills.go:173-274 | a new fill is accepted if and only if its order takes it, buying power covers a purchase at its price in cents, and rows and posting fit |
| SecuritiesCustody.CancelledExactlyWhenLegal | internal/securities/orders.go:178-260 | an order is cancelled if and only if the table allows it, and nothing else changes |
| SecuritiesCustody.OrdersMoveOn | db/migrations/000003_paper_securities.up.sql:351-380 | every step moves every order along those transitions only |
| SecuritiesCustody.SubmittedExactlyWithCapacity | internal/securities/orders.go:36-172 | a new order is accepted exactly if a sale has unreserved shares, or a purchase buying power for its price in cents, and its first event is accepted |
| SecuritiesCustody.CustodyIsExactOverRuns | internal/securities/custody.go:46-131 | after every run whole shares are reserved exactly if they fit beside all active reservations, summed over the rows; custody is then within the position |
| SecuritiesCustody.StepStaysCovered | internal/securities/custody.go:76-84 | custody stays within the position through every step but the fill of an older sale that is larger than what is unreserved |
| SecuritiesCustody.CoveredExactlyWhenNotSold | internal/securities/fills.go:173-274 | over every run it always does if and only if no such fill happens |
| SecuritiesOversold.CustodyIsSold | internal/securities/fills.go:173-274 | buy a share, offer it, reserve it, fill the offer: custody without the share |
| SecuritiesPrices.EveryFillIsPriced | internal/securities/fills.go:185-191 | after every run each fill's consideration is positive and its event's quantity times price to the nearest cent, ties to even |
| SecuritiesPrices.FillsAreNumbered | db/migrations/000003_paper_securities.up.sql:304-315 | over every run each fill of an order has a positive sequence number of its own |
| SecuritiesPrices.FillMovesCash | internal/securities/fills.go:346-398 | a sale adds its consideration to provisional buying power alone; a purchase takes provisional power first and the rest from settled and withdrawable cash alike |
| SecuritiesPrices.AverageIsCostOverFilled | internal/securities/fills.go:239-256 | after every run an order's average price is positive once something is filled, and times filled it is off the sum of its considerations by at most half a step of filled and half a step for every fill |
| SecuritiesHistory.PositionsAreAccounted | internal/securities/projections.go:144-226 | after every run a position is the history of its owner's fills: its profit and cost basis obey the accounting identity and the drift bound |
| SecuritiesBalance.ProvisionalIsNeverOverdrawn | internal/securities/fills.go:346-398 | over every run provisional buying power of a customer is never negative |
| SecuritiesBalance.PurchaseCostsItsPrice | internal/securities/fills.go:361-383 | so in every reachable state a purchase takes exactly its price from settled and provisional cash together, and never more than there is |
| SecuritiesBalance.ZeroSumPerDimension | internal/ledger/model.go:146-150 | after every run of orders, fills and custody each currency sums to zero in each dimension |
| SecuritiesBalance.JournalIsAccepted | internal/ledger/model.go:120-150 | over every run the journal is made of postings that pass the ledger's check |
| SecuritiesRuns.FillPostingMoves | internal/securities/fills.go:346-398 | a fill posting moves the customer's shares by the fill, no other position's, and balances each dimension |
| SecuritiesService.Service.BuildFillEntries | internal/securities/fills.go:346-398 | the entries appended part by part are those of the specification |
| SecuritiesService.Service.DecideFill | internal/securities/fills.go:173-274 | every stage of a fill equals its specification |
| SecuritiesService.Service.ApplyBrokerEvent | internal/securities/fills.go:92-171 | a broker event equals its specification and keeps the invariants |
| SecuritiesService.Service.ReserveSettledShares | internal/securities/custody.go:46-131 | a reservation equals its specification and keeps the invariants |
| SecuritiesService.Service.ReleaseSettledShares | internal/securities/custody.go:136-171 | a release equals its specification, and a second release changes nothing |
| Router.SaleIsFair | internal/crypto/router/router.go:55-94 | whatever venues answer, a sale's report that the tables accept fills no more than asked, and its gross is the final amount plus both fees |
| Router.PurchaseIsFair | internal/crypto/router/router.go:96-165 | whatever venues answer, a purchase costs gross plus both fees, and what is neither spent nor given back is the fees charged child by child minus the fee reported |
| Router.FeesAgainstTotal | internal/crypto/router/router.go:280-301 | fees rounded child by child are within half a step per fill plus half a step of the fee on the total |
| Router.OneFillLeavesNothing | internal/crypto/router/router.go:140-152 | with at most one fill they are the same |
| Router.ElevenDollars | internal/crypto/router/router.go:140-165 | 11 dollars into ether over two venues: 10^-18 dollars are neither spent nor given back |
| Router.SellThrough | internal/crypto/router/router.go:69-89 | the loop over venues, stopping when nothing remains, equals its specification |
| Router.BuyThrough | internal/crypto/router/router.go:110-159 | the loop over venues, each allocation within the budget, equals its specification |
| RouterReports.SaleReportIsItsOrders | internal/crypto/router/router.go:55-94 | a sale asks candidates in order for what is left or available, prices each fill with the venue's answer and fee rate, reports their totals, the fee on the total, and the status that is left |
| RouterReports.PurchaseReportIsItsOrders | internal/crypto/router/router.go:96-165 | a purchase orders at each venue the most the budget left can pay with both fees, or what is available; unspent is the budget less everything charged |
| RouterReports.ReferenceIsReported | internal/crypto/router/router.go:352-359 | the reference price is the bid or ask of the venue first by name |
| CryptoRuns.HeldIsPending | internal/crypto/conversions.go:202-372 | after every run, held crypto is conversions without a settled first leg plus approved withdrawals, and held dollars are such conversions plus the residues of purchases paid from reserved dollars, whatever venues answer |
| CryptoRuns.ResidueOfConversion | internal/crypto/conversions.go:401-424 | in every reachable state that residue is the fees by child minus the reported fee, at most 2 steps, and zero for at most one fill |
| CryptoRuns.EachLegOnce | internal/crypto/conversions.go:259-461 | a conversion has at most one leg of each sequence under any interleaving of retries and any routes |
| CryptoRuns.SaleEmptiesReservation | internal/crypto/conversions.go:298-322 | a sale and the release of its rest take exactly the source amount out of held while no more than it is filled |
| CryptoRuns.BuyReleases | internal/crypto/conversions.go:401-424 | a purchase from reserved dollars and its release take the cost and the unspent rest out of held, any other purchase nothing |
| CryptoFunds.SaleMovesFunds | internal/crypto/conversions.go:463-494 | a sale takes what it filled out of held, and brings its final amount to settled and withdrawable dollars, or under review to frozen ones |
| CryptoFunds.PurchaseMovesFunds | internal/crypto/conversions.go:496-531 | a purchase adds what it filled to the settled asset, and takes its cost from held dollars or from settled and withdrawable ones |
| CryptoFunds.LegsPayFees | internal/crypto/conversions.go:533-541 | each fee of a leg reaches its own account, in the dimension the leg settles in |
| CryptoFunds.FundsAreAccounted | internal/crypto/conversions.go:202-461 | over every run settled, withdrawable and frozen funds are what other products posted, plus what each conversion's legs brought, less what it took and what withdrawals that did not fail took |
| CryptoFunds.SettledCryptoIsAccounted | internal/crypto/withdrawals.go:239-324 | settled crypto is what other products posted, plus purchases filled, less conversion sources, plus unsold rests, less withdrawals not FAILED |
| CryptoStatus.StatusSaysLegs | internal/crypto/conversions.go:298-461 | over every run a conversion's status is what its legs did, its first leg trades what was reserved and its second spends what the first brought |
| CryptoStatus.SaleAnswersIfFinished | internal/crypto/conversions.go:259-372 | settling a sale, now or again, answers whether the conversion is finished, and changes a finished one no more |
| CryptoStatus.SaleSettlesExactly | internal/crypto/conversions.go:259-372 | a crypto source is sold exactly while its conversion routes and has no leg, if ledger and tables take the route |
| CryptoStatus.PurchaseSettlesExactly | internal/crypto/conversions.go:374-461 | the destination is bought exactly while it routes, after the sale if there is one, before its own leg, with what was reserved or brought in, if ledger and tables take the route |
| CryptoStatus.ConversionStartsExactly | internal/crypto/conversions.go:115-257 | a new conversion starts if and only if its source is free in full, settled and for dollars withdrawable too, and the posting fits |
| CryptoStatus.WithdrawalStartsExactly | internal/crypto/withdrawals.go:74-167 | the same for a withdrawal |
| CryptoStatus.SettledCryptoIsNeverNegative | internal/crypto/conversions.go:202-257 | over every run in which other products only give, settled crypto is never negative |
| CryptoReplays.RepeatedConversionFindsTheFirst | internal/crypto/conversions.go:115-200 | a repeated conversion command finds the first after any run; other data under its key is refused |
| CryptoReplays.RepeatedWithdrawalFindsTheFirst | internal/crypto/withdrawals.go:74-167 | the same for a withdrawal |
| CryptoReplays.EventTakesEffectOnce | internal/crypto/withdrawals.go:169-237 | an event that took effect is accepted ever after without effect, and its identity is a conflict with other data |
| CryptoBalance.SellBalanced | internal/crypto/conversions.go:463-494 | a sale's posting balances each dimension if its gross is the final amount plus fees, under review or not |
| CryptoBalance.BuyBalanced | internal/crypto/conversions.go:496-531 | so does a purchase's |
| CryptoBalance.ReservationBalanced | internal/crypto/conversions.go:202-257 | so do reservations and releases |
| CryptoBalance.ZeroSumPerDimension | internal/ledger/model.go:146-150 | after every run of conversions and withdrawals, with any routes, each currency sums to zero in each dimension |
| CryptoBalance.EveryPostingIsAccepted | internal/ledger/model.go:120-150 | over every run each crypto posting, reversals included, is one the ledger's check passes |
| CryptoRuns.FailureRestores | internal/crypto/withdrawals.go:279-316 | a failure gives settled funds back in full and held funds as far as they were held, before or after broadcast |
| CryptoRuns.FailedLeavesNoTrace | internal/crypto/withdrawals.go:239-324 | a FAILED withdrawal's postings cancel on every balance; any other has its quantity out of settled funds |
| CryptoService.Service.FinalizeSellLeg | internal/crypto/conversions.go:259-372 | the sale transaction equals its specification and keeps the invariants for every route the router reports |
| CryptoService.Service.FinalizeBuyLeg | internal/crypto/conversions.go:374-461 | the purchase transaction equals its specification and keeps the invariants for every route the router reports |
| CryptoService.Service.Convert | internal/crypto/conversions.go:26-113 | a conversion, new or resumed at any stage and routed over any venues, is a run of those steps, and success means it is finished |
| CryptoService.Service.TransitionWithdrawal | internal/crypto/withdrawals.go:239-324 | an event is taken exactly in the states the machine allows, and then moves the status, the settled and held funds and the reversed postings as stated |
| CryptoService.Service.ApplyWithdrawalEvent | internal/crypto/withdrawals.go:169-237 | a provider event equals its specification and keeps the invariants |

## Left out

- Ledger.Service.OpenAccount: opens an account in a currency; account keys, owners, types and the conflict on a reused key are not modelled, because no balance depends on them.
- RwaSafety.Reconcile: the comparison only; run rows, compliance cases and the once-a-day loop over assets are not modelled, and the supply passed in is the one read before the transaction.
- RwaService.Service.RecoverDueOperations: the operations that are due are an input, since retry times are clock values; the pass is sequential.
- RwaService.Service.BeginMint: custody of the shares is a position and reservation table of its own here; the ledger side of that custody is proved in SecuritiesRuns.
- RwaService.Service.ConfirmRedemption: the release is the end of a row of that table, not a posting of its own.
- RwaService.Service.RecoverFailedMint: the same.
- Card authorizations: card ownership, card status and the decline scenario are gates given from outside; flags, quote age and market state of collateral are one flag per holding.
- SecuritiesService.Service.ApplyBrokerEvent: an event carries its order directly; provider names and provider order identifiers are not compared. Submitting an order is the step SecuritiesRuns.Submit, without its idempotency row.
- CryptoService.Service.FinalizeSellLeg: whether a sale is flagged for review is an input and the rolling review window is not modelled. Child orders and fills are part of a leg's route, checked by the table rules, and not rows of their own.
- Router.PurchaseIsFair: quotes arrive in the router's order; collecting them, their age, the ranking by net price, scenarios and order and fill identifiers are not modelled.
- Crypto withdrawal requests: address state, custody preparation and risk decisions are not modelled.
- Text is a sequence of characters; UUID and JSON forms of identifiers and values are not modelled.
- Banking, compliance cases, dividends, card lifecycle, external address review, notifications, audit and outbox delivery.
- HTTP handlers, sessions, roles, clocks, timeouts and retry delays.
- That cash stays non-negative across products: no code path promises it.
