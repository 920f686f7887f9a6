# Automated Portfolio Manager dashboard: a verified model of its arithmetic

The Automated Portfolio Manager is a tokenised portfolio on Ethereum Sepolia.
Investors pay USDC and receive PMT share tokens. Off-chain sentiment data
drives rebalancing between mock gold, BTC and ETH tokens. This project models
the parts of its dashboard and its off-chain request script that compute
something:

- **`InvestmentsLogs`** (`app/hooks/useFetchInvestmentsLogs.ts`): the
  average-cost fold of `Invested`/`Redeemed` events into a USDC cost basis
  and a PMT unit count. It is a recursive specification (`FoldFrom`,
  `Reconciled`) plus the loop with two accumulators (`Reconcile`) proved
  equal to it. The hook is a class whose `FetchLogs` method takes the fetch
  outcome as a `Result`.
- **`MyInvestment`** (`app/pages/MyInvestment.tsx`): the unrealized gain and
  gain percentage, branch by branch, with the formulas exactly as written.
  Also the history table, which sorts the hook's log array in place.
- **`PortfolioData`** and **`MyInvestmentData`** (the two read hooks): raw
  contract reads turned into display values. A missing or zero read becomes
  null. Each hook's state is a class.
- **`HomePage`** (`app/pages/index.tsx`): the token value, historical
  return, per-asset value and the rebalancing history table.
- **`SentimentSource`** (`functions/source.js`): the secret and response
  checks, `parseData`, the weighted score and the rounded output triple.
- Shared modules:
  - `JsNumber` holds JavaScript `Number` as an exact rational or NaN or
    ±Infinity, with IEEE rules, plus `toFixed(2)` and `Math.round`.
  - `Scales` names every decimal scale factor once.
  - `BlockOrder` is the in-place descending-block sort used by both tables.
  - `Wrappers` holds `Option` and `Result`.

Where an API response or a chain read enters, it is a parameter: the fetched
logs, the contract reads, the secrets and the three HTTP responses.

The code does the following, and the model keeps it:
- The log query has no investor filter, so the cost basis covers every
  investor's events.
- Logs are folded in fetch order and are not sorted first.
- Nothing guards the division by a zero unit count, so the cost basis can
  become NaN or ±Infinity.
- The percentage shows `0.00%` for a zero cost basis.
- The fold effect runs once with empty dependencies, so there is no
  stale-response handling.
- The page's `totalPMTAcquired === null` test can never be true.

## Model

| member | source | states |
|---|---|---|
| `InvestmentsLogs.Reconcile` | app/hooks/useFetchInvestmentsLogs.ts:16-59 | The `forEach` loop with its two local accumulators ends with exactly the totals of the recursive fold `Reconciled` of the logs in fetch order. |
| `InvestmentsLogs.Step` | app/hooks/useFetchInvestmentsLogs.ts:38-58 | The body of the `forEach` for one log. An `Invested` log adds usdcAmount/1e6 to the cost and tokensMinted/1e18 to the units. A `Redeemed` log subtracts tokensBurned/1e18 × (cost/units) from the cost and tokensBurned/1e18 from the units. The JavaScript number rules are kept. Its properties are in the lemmas below. |
| `InvestmentsLogs.FoldFrom` | app/hooks/useFetchInvestmentsLogs.ts:38-59 | Applies `Step` to the logs one by one, in the order given, from given totals. |
| `InvestmentsLogs.Reconciled` | app/hooks/useFetchInvestmentsLogs.ts:16-59 | The totals of one fetch: `FoldFrom` from cost 0 and units 0. |
| `InvestmentsLogs.FoldFromAppend` | app/hooks/useFetchInvestmentsLogs.ts:38-59 | Folding `xs + ys` equals folding `ys` from the totals reached after `xs`. |
| `InvestmentsLogs.ReconciledEmpty` | app/hooks/useFetchInvestmentsLogs.ts:16-17 | With no events, the cost basis and the unit count stay 0. |
| `InvestmentsLogs.InvestedOnlyFrom` | app/hooks/useFetchInvestmentsLogs.ts:39-51 | From any finite start, investment-only logs add the sum of `usdcAmount`/1e6 to the cost and the sum of `tokensMinted`/1e18 to the units. |
| `InvestmentsLogs.InvestedOnlyTotals` | app/hooks/useFetchInvestmentsLogs.ts:39-51 | With only investments, cost = Σ usdcAmount/1e6 and units = Σ tokensMinted/1e18. |
| `InvestmentsLogs.RedemptionIgnoresItsUsdcAmount` | app/hooks/useFetchInvestmentsLogs.ts:43-57 | A redemption's own `usdcAmount` does not affect either total, and the units fall by exactly tokensBurned/1e18. |
| `InvestmentsLogs.RedemptionKeepsAverageCost` | app/hooks/useFetchInvestmentsLogs.ts:53-57 | With a finite cost and units held, a redemption that leaves units keeps cost/units unchanged. |
| `InvestmentsLogs.RedemptionWithoutUnits` | app/hooks/useFetchInvestmentsLogs.ts:53-54 | A redemption with 0 units held divides by zero. The cost becomes NaN if the cost or the burn is 0, otherwise an infinity of the opposite sign to the cost. The units become −burned. |
| `InvestmentsLogs.NonFiniteCostPersists` | app/hooks/useFetchInvestmentsLogs.ts:49-58 | Once the cost basis is NaN or infinite, no later event makes it finite. |
| `InvestmentsLogs.StepKeepsNonNegative` | app/hooks/useFetchInvestmentsLogs.ts:49-57 | One event keeps finite non-negative totals non-negative, if a redemption finds units held and burns no more than them. |
| `InvestmentsLogs.CoveredFoldStaysNonNegative` | app/hooks/useFetchInvestmentsLogs.ts:49-57 | Over a whole fold, if every redemption finds units held and burns no more than them, both totals stay finite and ≥ 0. |
| `InvestmentsLogs.FoldIgnoresInvestor` | app/hooks/useFetchInvestmentsLogs.ts:38-59 | The fold does not depend on who invested or redeemed. |
| `InvestmentsLogs.QueryHasNoInvestorFilter` | app/hooks/useFetchInvestmentsLogs.ts:25-36 | A record of the `getLogs` arguments (the contract's two events from block 5916208, no investor argument): the query matches a log iff its block is 5916208 or later, whatever its investor. What this means for the totals is `FoldIgnoresInvestor`. |
| `InvestmentsLogs.FetchOrderMatters` | app/hooks/useFetchInvestmentsLogs.ts:38-59 | Two buys (100 and 200 USDC for 10 PMT each) then a 5 PMT redemption give cost 225 and units 15. The same logs fetched with the redemption first give a NaN cost. |
| `InvestmentsLogs.InvestmentsLogsHook.constructor` | app/hooks/useFetchInvestmentsLogs.ts:7-11 | No logs, not loading, no error, and both totals 0. |
| `InvestmentsLogs.InvestmentsLogsHook.FetchLogs` | app/hooks/useFetchInvestmentsLogs.ts:14-73 | On success: the logs are the fetched ones, the totals are their fold, and the error is unchanged. On failure: the logs and totals keep their previous values, and the error is the thrown `Error`'s message or "An unknown error occurred" for any other thrown value. Loading ends false either way. |
| `JsNumber.Add` | app/hooks/useFetchInvestmentsLogs.ts:50 | Finite operands give their exact sum; a NaN or infinite operand gives a non-finite result. |
| `JsNumber.Sub` | app/hooks/useFetchInvestmentsLogs.ts:56 | Finite operands give their exact difference; otherwise the result is non-finite. |
| `JsNumber.Mul` | app/hooks/useFetchInvestmentsLogs.ts:55 | Finite operands give their exact product; otherwise the result is non-finite. |
| `JsNumber.Div` | app/hooks/useFetchInvestmentsLogs.ts:53-54 | A non-zero finite divisor gives the exact quotient. A zero divisor or a non-finite numerator gives a non-finite result. |
| `JsNumber.Round2` | app/hooks/useFetchPortfolioData.ts:68-76 | `toFixed(2)`: the result is within 0.005 of x, maps 0 to 0, and keeps x's sign. |
| `JsNumber.ToFixed2` | app/pages/MyInvestment.tsx:126 | Finite stays finite and is within 0.005; NaN and ±Infinity are shown unchanged. |
| `JsNumber.MathRound` | functions/source.js:100-102 | `Math.round(x)` is the integer r with x − 0.5 < r ≤ x + 0.5. |
| `JsNumber.MathRoundMonotone` | functions/source.js:100-102 | `Math.round` never maps a larger input to a smaller integer. |
| `BlockOrder.SortByBlockDesc` | app/pages/MyInvestment.tsx:78 | After the in-place sort, block numbers are non-increasing and the array is a permutation of what it held. |
| `MyInvestment.GainAmount` | app/pages/MyInvestment.tsx:118-123 | `unrealizedGain` as written: 0 when `PMTTokenValue × (balanceOf \|\| 0) / 1e24` is 0, otherwise that value minus `totalUSDCCost / 1e6`, with JavaScript number rules. Its properties are in `GainMatchesPercent` and `BreakEvenShownAsTotalLoss`. |
| `MyInvestment.PercentAmount` | app/pages/MyInvestment.tsx:144-149 | `unrealizedGainPercent` as written: 0 when `PMTTokenValue × (balanceOf \|\| 0)` is 0, otherwise `(holdings / 1e18 / totalUSDCCost − 1) × 100`. |
| `MyInvestment.UnrealizedGain` | app/pages/MyInvestment.tsx:103-128 | `calculateUnrealizedGain`: the three message branches in the page's order (connect wallet, loading, no investment found), then `USDC 0.00` for a zero cost, else the gain to 2 decimals. The branch facts are in the lemmas below. |
| `MyInvestment.UnrealizedGainPercent` | app/pages/MyInvestment.tsx:130-152 | `calculateUnrealizedGainPercent`: blank, then `0.00%` for a zero cost or zero units, else the percentage to 2 decimals. |
| `MyInvestment.GainBranchOrder` | app/pages/MyInvestment.tsx:104-112 | The gain tile shows, each iff the earlier tests failed: "connect wallet" iff not connected; "Loading" iff loading; "No investment found" iff acquired is null or the token value is falsy; otherwise a USDC figure. |
| `MyInvestment.ZeroCostShowsZeroGain` | app/pages/MyInvestment.tsx:114-116 | A zero cost basis shows `USDC 0.00`, whatever the balance. |
| `MyInvestment.ZeroHoldingsShowZeroGain` | app/pages/MyInvestment.tsx:118-123 | A missing or zero balance gives gain 0 and percent 0, whatever the cost basis, even NaN. |
| `MyInvestment.PercentShownWithGain` | app/pages/MyInvestment.tsx:131-142 | The percent is blank exactly when not connected, loading, the token value is falsy or acquired is null. It is shown exactly when the gain shows a figure. It is `0.00%` for a zero cost or zero units. |
| `MyInvestment.FiniteCostGivesFiniteFigures` | app/pages/MyInvestment.tsx:114-149 | With a finite cost basis, neither shown figure is NaN or infinite. |
| `MyInvestment.GainMatchesPercent` | app/pages/MyInvestment.tsx:118-149 | For a non-zero cost with non-zero holdings, gain = (cost/1e6)·(percent/100). For a positive cost, gain and percent have the same sign. |
| `MyInvestment.IntendedFiguresAgree` | app/pages/MyInvestment.tsx:118-149 | Corrected formulas, for a positive cost: gain = cost·percent/100; break-even gives 0 and 0%; gain > 0 iff percent > 0 iff holdings are worth more than their cost. |
| `MyInvestment.BreakEvenShownAsTotalLoss` | app/pages/MyInvestment.tsx:144-149 | As written, 100 PMT worth 1 USDC each, bought for 100 USDC, show a percent below −99 and a negative gain, where the corrected formulas give 0 and 0. |
| `MyInvestment.EventLabel` | app/pages/MyInvestment.tsx:82 | "Invest" for an `Invested` log, "Redeem" for any other. |
| `MyInvestment.TokensCell` | app/pages/MyInvestment.tsx:83-87 | `(tokensMinted \|\| tokensBurned) / 1e18` to 2 decimals; NaN for an investment that minted 0. |
| `MyInvestment.Row` | app/pages/MyInvestment.tsx:80-99 | One history row: block, label, token cell, usdcAmount/1e6 to 2 decimals, and transaction hash. |
| `MyInvestment.RowLabels` | app/pages/MyInvestment.tsx:82-86 | The type column is "Invest" iff the event is `Invested` and "Redeem" iff `Redeemed`. The token column is NaN iff an investment minted 0; otherwise it is within 0.005 of the minted or burned amount over 1e18. The USDC column is within 0.005 of usdcAmount/1e6. |
| `MyInvestment.RenderHistoryTable` | app/pages/MyInvestment.tsx:45-100 | The messages in order: connect wallet, loading, error with its message, empty. Rows are shown exactly when connected, not loading, with no error and a non-empty log array. Then the array is sorted in place by descending block and permuted, there is one row per log, and the rows are in descending block order. In every other branch the array is untouched. |
| `PortfolioData.ScaledFixed2` | app/hooks/useFetchPortfolioData.ts:68-76 | Null exactly for a null read; otherwise within 0.005 of read/unit. |
| `PortfolioData.AllocationAt` | app/hooks/useFetchPortfolioData.ts:57-60 | Null exactly when the second array is absent. For an index inside the array the value is finite and within 0.005 of raw/1e4, and a zero element gives 0. An index past the end gives NaN (`undefined / 1e4`). |
| `PortfolioData.Format` | app/hooks/useFetchPortfolioData.ts:52-90 | The `setFormattedData` argument: every field converted from its own read. The fields are stated by `ScalarFields`, `AllocationFields` and `OffChainField`. |
| `PortfolioData.ScalarFields` | app/hooks/useFetchPortfolioData.ts:53-76 | Portfolio value, token value and supply are each null exactly when their read is missing or zero. Otherwise value ≈ raw/1e6 and supply ≈ raw/1e18 (to 2 decimals), and the token value is the raw read, unscaled. |
| `PortfolioData.AllocationFields` | app/hooks/useFetchPortfolioData.ts:57-88 | Gold, BTC and ETH are elements 0, 1 and 2 of the second array. Each is null exactly when the array is absent. Otherwise each is within 0.005 of raw/1e4, a zero element gives 0 rather than null, and a missing element gives NaN. |
| `PortfolioData.OffChainField` | app/hooks/useFetchPortfolioData.ts:62-89 | The off-chain data is null iff the read is absent; otherwise it is the second array, element by element. |
| `PortfolioData.PortfolioDataHook.constructor` | app/hooks/useFetchPortfolioData.ts:41-49 | Every formatted field starts null. |
| `PortfolioData.PortfolioDataHook.OnData` | app/hooks/useFetchPortfolioData.ts:51-92 | With data, the state is replaced by its conversion; without data, it is kept. |
| `MyInvestmentData.RequestedReads` | app/hooks/useFetchMyInvestmentData.ts:21-39 | No reads without an address. With one, in this order: the balance of that address, its ownership share, and the total portfolio value. |
| `MyInvestmentData.ReadAt` | app/hooks/useFetchMyInvestmentData.ts:46-54 | Null exactly when the result is absent or zero; otherwise within 0.005 of raw/unit. |
| `MyInvestmentData.FormatInvestment` | app/hooks/useFetchMyInvestmentData.ts:46-60 | The data set by the effect: balance from result 0 over 1e18; ownership share and portfolio value from results 1 and 2 over 1e6. Stated field by field by `InvestmentFields`. |
| `MyInvestmentData.InvestmentFields` | app/hooks/useFetchMyInvestmentData.ts:46-60 | Balance ≈ first result/1e18; share and value ≈ second and third /1e6. Each field is null exactly when its own result is missing or zero. |
| `MyInvestmentData.NoAddressNoData` | app/hooks/useFetchMyInvestmentData.ts:21-39 | Without an address nothing is requested, and the data is all null. |
| `MyInvestmentData.MyInvestmentDataHook.constructor` | app/hooks/useFetchMyInvestmentData.ts:14-19 | The data starts all null and loading starts false. |
| `MyInvestmentData.MyInvestmentDataHook.Effect` | app/hooks/useFetchMyInvestmentData.ts:42-67 | The data is replaced only when not pending and data is present, and kept otherwise; `loading` equals `isPending` afterwards. |
| `HomePage.FormattedPMTTokenValue` | app/pages/index.tsx:25-28 | The token value over 1e6 to 2 decimals, or "Unavailable" for null. |
| `HomePage.HistoricalReturn` | app/pages/index.tsx:30-35 | `(value/1e6 − 1) × 100` to 2 decimals, or "Unavailable" for null. |
| `HomePage.AssetValue` | app/pages/index.tsx:104-109 | `portfolioValue × alloc / 100` to 2 decimals when both strings are present, otherwise "Unavailable". |
| `HomePage.TokenValueAndReturn` | app/pages/index.tsx:25-35 | Both figures are "Unavailable" exactly when the token value is null. Otherwise the shown token value is within 0.005 of value/1e6, and the return is within 0.005 of (value − 1e6)/1e6·100. A token worth exactly 1 USDC shows 1.00 and 0.00%. |
| `HomePage.AssetValueShare` | app/pages/index.tsx:104-109 | "Unavailable" exactly when either figure is null. For a finite allocation the value is within 0.005 of portfolio·alloc/100; a NaN allocation shows NaN. |
| `HomePage.RebalanceRowOf` | app/pages/index.tsx:184-189 | One cell per argument, each within 0.005 of arg/1e4, with the block and the transaction hash unchanged. |
| `HomePage.RenderRebalancingHistory` | app/pages/index.tsx:169-209 | "Loading logs..." while loading; "No logs found." for no logs. Otherwise the log array is sorted in place by descending block and permuted, and the rows come out in descending block order. |
| `SentimentSource.ParseData` | functions/source.js:14-21 | `parseData`: the four indicator scores become the four sub-scores of the same names. |
| `SentimentSource.FinalSentimentScore` | functions/source.js:26-34 | `calculateFinalSentimentScore`: (0.3·concentration + 0.1·large transactions + 0.3·net growth + 0.3·in/out) × 1e4. |
| `SentimentSource.RunSource` | functions/source.js:3-104 | One run of the script: the secret checks, the response-status checks, then the rounded triple. |
| `SentimentSource.ParseDataIsOneToOne` | functions/source.js:14-21 | `parseData` is a bijection between the four named indicators and the four sub-scores. |
| `SentimentSource.ScoreIsScaledConvexCombination` | functions/source.js:26-34 | The weights 0.3/0.1/0.3/0.3 are non-negative and sum to 1. Equal sub-scores s give exactly s·1e4, and sub-scores in [0,1] give a score in [0, 10000]. |
| `SentimentSource.ScoreIsMonotone` | functions/source.js:28-31 | The score never decreases when a sub-score increases. |
| `SentimentSource.ChecksInOrder` | functions/source.js:3-83 | A missing CryptoCompare key throws first, then a missing market-data token. A failed trading-signals response ends the run before GVZ is checked. |
| `SentimentSource.ScoresWhenAllChecksPass` | functions/source.js:74-104 | Scores come out iff both secrets are present, both signal responses are "Success" and GVZ is "ok". The triple is exactly (Math.round(BTC score), Math.round(ETH score), Math.round(GVZ·100)), so each is within 0.5 of its unrounded value. A score is in [0, 10000] when its sub-scores are in [0,1]. |

## Left out

- Fetching is left out: `createPublicClient`, `getLogs`, `useReadContracts`, `useAccount`, and the HTTP requests of `functions/source.js`. Their outcomes are parameters.
- The React effect and state lifecycle and all JSX are not modelled. Each hook's state is a class, and each effect run is one method call.
- IEEE 754 precision is not modelled. Finite numbers are exact rationals, so `Number(bigint)` loses no precision and `/ 1e18` is exact.
- `JsNumber.Div`: a zero divisor is always taken as +0. In this model zeros come only from finite sums starting at +0, so −0 never reaches a division.
- `JsNumber.Round2`: `toFixed(2)` is idealised as exact decimal rounding with ties away from zero. The exact digits of the binary value are not modelled, and the printed string (including "-0.00") is not produced.
- `JsNumber.ToFixed2` and the view datatypes show the number a displayed string denotes, not the string itself.
- The `PortfolioRebalanced` log hooks `useFetchRebalancingLogs.ts` and `useFetchLogs.ts` are not part of this model. The rebalancing table takes their logs as an array.
- The transaction hooks and forms `useInvestmentActions.ts`, `useRedeem.ts`, `InvestForm.tsx` and `RedeemForm.tsx` are not part of this model. Only their scale factors are kept, as `Scales.INVEST_AMOUNT_SCALE` and `Scales.REDEEM_PERCENT_SCALE`.
- The ABI encoding with ethers is not modelled: the uint256 range check it would make on a negative or oversized score is not modelled. The script's result is the triple of integers.
- `functions/source.js` is left out where a response lacks a field: a `parseFloat` of a non-numeric score (giving NaN), an empty GVZ `last` array, or a missing `data` object. Sub-scores and the GVZ value are taken as numbers.
- The Chainlink Functions tooling scripts and `portfolioManagerConfig.ts` (ABI data) are not part of this model.
- Presentation-only components and assets are not part of this model.
- `renderInvestmentData` on the My Investment page is not modelled: it reads `userInvestment`, which the investment-data hook never returns.
- `BlockOrder.SortByBlockDesc`: stability is not stated, although the insertion sort keeps logs of the same block in fetch order, like `Array.prototype.sort`.
- `MyInvestment.UnrealizedGain` takes `totalPMTAcquired` as an optional value so that the page's null test is modelled, but the hook always supplies a number.

## Findings

| source | as written | input that shows it | evidently intended | confidence | as-written member | corrected member |
|---|---|---|---|---|---|---|
| app/pages/MyInvestment.tsx:118-123, 144-149 | The gain divides `PMTTokenValue * balanceOf` by 1e24 and the cost by 1e6 again. The percent divides by 1e18 and by the cost. These scales assume raw 18-decimal balances and raw 6-decimal costs, but the hooks already supply whole PMT (`useFetchMyInvestmentData.ts:46-48`) and whole USDC (`useFetchInvestmentsLogs.ts:47`). | Token value 1000000 (1 USDC per PMT), balance 100 PMT, cost basis 100 USDC: the percent is about −100% and the gain is −0.0001 USDC. | Holdings = token value/1e6 × balance. Gain = holdings − cost. Percent = (holdings/cost − 1)·100. Break-even then shows 0 and 0%. | high, not executed | `MyInvestment.BreakEvenShownAsTotalLoss` | `MyInvestment.IntendedFiguresAgree` |
