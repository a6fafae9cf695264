# Crypto analytics dashboard — analytics core in Dafny

This project models the analytics layer of a cryptocurrency market dashboard and proves properties of it. The layer has two statistics helpers and the values the dashboard page derives from the market, history and DeFi feeds:

- `calculateSMA`: the trailing-window simple moving average.
- `calculateCorrelation`: the Pearson-style coefficient of two price series, with 0 as the fallback for degenerate input.
- The predictive price chart: the history plus the 20- and 50-point averages, followed by predicted points that grow or shrink by a fixed daily factor.
- The correlation matrix of the first five coins' seven-day sparklines.
- The case-insensitive search filter over coin names and symbols.
- The top five DeFi protocols, sorted by total value locked.
- The mapping from time range to number of history days.
- The two five-band classifiers of a correlation value: the heat-map colour and the tooltip's strength label.

Numbers are `real`. `Math.sqrt` is a foreign function, so it is a parameter `sqrt: real -> real`. `Statistics.IsSqrt` requires it to return a non-negative root whose square is its argument. That it is monotone and that `sqrt(v * v) == v` are proved from this.

Modules, one per file:

- `wrappers.dfy`: `Option` and `Result`.
- `market.dfy`: the `Coin` and `Protocol` records.
- `ascii.dfy`: ASCII case mapping.
- `statistics.dfy`: `lib/api.ts`.
- `predictive.dfy`, `correlation_matrix.dfy`, `search.dfy`, `defi.dfy` and `display.dfy`: the computations of `app/page.tsx`.

Code that works step by step is imperative Dafny:

- `CalculateSma` is a loop, proved equal to the function `MovingAverage`.
- The accumulating loop of `calculateCorrelation` is `SumDeviationProducts`, proved to compute three dot products. `CalculateCorrelation` calls it and is proved equal to the function `Correlation`.
- `CorrelationData` has the nested loop that pushes one cell per pair of coins, with the inner loop in `PushRow`. It is proved equal to the function `Matrix`.
- `TopDefiProtocols` copies the first five protocols into a fresh array and sorts it in place. It is not proved equal to a function. It is proved to leave the protocols ordered by value locked, largest first, as a permutation of the first five.

Code built from `map`, `filter` and conditional expressions is modelled as functions.

Behaviour the model keeps exactly as the code has it:

- **Means over the whole series.** The correlation means sum the whole series but divide by `n = min(|a|, |b|)`, while the differences cover only the first `n` elements (lib/api.ts:82-95). So the elements beyond `n` are not ignored: they still shift the mean. The model follows the code, and `WholeSeriesMeanExample` shows the effect: `[1, 2, 3]` against `[1, 2]` compares two equal pairs, yet the coefficient is below 1.
- **No cell is dropped from the matrix.** Pairs with an absent or empty series are not omitted from the matrix. The code pushes every pair: an absent sparkline becomes `[]` and gives 0, and the `isNaN` guard never rejects a real. The model follows the code.
- **When the prediction fails.** An empty history does not always raise an error. The code returns no points when the history is absent, and also when it is empty and the horizon is 0. It fails only when the history is present, empty and the horizon is positive, because it reads the timestamp of the missing last entry (app/page.tsx:190). The model returns `Err(MissingLastEntry)` in exactly that case.
- **A 0 counts as missing.** `|| lastPrice` and `|| null` treat both a missing value and a 0 as absent.
- **Head-aligned averages.** The historical points take the moving averages by head-aligned index: point `i` gets the mean of the 20 prices that start at `i`.

## Model

| member | source | states |
|---|---|---|
| Statistics.MovingAverage | lib/api.ts:67 | the moving average has exactly max(0, \|data\| - period + 1) elements |
| Statistics.MovingAverageAt | lib/api.ts:67-70 | element j of the moving average is the mean of data[j], ..., data[j + period - 1] |
| Statistics.MovingAverageShortSeries | lib/api.ts:67 | a series shorter than the window has an empty moving average |
| Statistics.CalculateSma | lib/api.ts:65-72 | the loop returns the moving average: its length, and each element the mean of its window |
| Statistics.SqrtOfSquare | lib/api.ts:103 | the root of v * v is v for v >= 0 |
| Statistics.SqrtMonotone | lib/api.ts:103 | the root is monotone |
| Statistics.CauchySchwarzStep | lib/api.ts:92-94 | adding one pair of terms to the three sums keeps the inequality |
| Statistics.CauchySchwarz | lib/api.ts:89-95 | the squared sum of products is at most the product of the sums of squares |
| Statistics.SumDeviationProducts | lib/api.ts:85-95 | the loop's three accumulators are the sums of squared and multiplied differences over the first n elements |
| Statistics.CalculateCorrelation | lib/api.ts:76-104 | the method returns the coefficient, lies in [-1, 1], and returns 0 when a series has fewer than 2 elements |
| Statistics.RatioZero | lib/api.ts:101-103 | a zero variance on either side, or a zero covariance, gives 0 |
| Statistics.ZeroVarianceGivesZero | lib/api.ts:82-101 | with two or more pairs, a zero accumulated variance of either series gives 0, whatever the other series is |
| Statistics.ZeroVarianceExample | lib/api.ts:82-101 | [1, 1, 0] against [5, 7] gives 0: the whole-series mean gives a series that is not constant a zero variance |
| Statistics.CorrelationShortSeries | lib/api.ts:77-80 | an empty series or fewer than two pairs gives 0 |
| Statistics.CorrelationSymmetric | lib/api.ts:79-103 | swapping the two series does not change the result |
| Statistics.RatioBounded | lib/api.ts:101-103 | a covariance whose square is at most the variances' product gives a value in [-1, 1] |
| Statistics.CorrelationBounded | lib/api.ts:89-103 | the coefficient always lies in [-1, 1] |
| Statistics.SelfCorrelationIsOne | lib/api.ts:89-103 | a series with two different elements correlates with itself exactly 1 |
| Statistics.ConstantSeriesCorrelatesZero | lib/api.ts:82-101 | a constant series correlates 0 with every series, whether it is the shorter or the longer one |
| Statistics.WholeSeriesMeanExample | lib/api.ts:82-83 | the means sum the whole series: [1, 2, 3] against [1, 2] gives less than 1 |
| Ascii.Lower | app/page.tsx:242-243 | lowering keeps the length, turns each letter 'A'..'Z' into its partner 'a'..'z', and keeps every other character |
| Ascii.Upper | app/page.tsx:227-228 | upper-casing keeps the length, turns each letter 'a'..'z' into its partner 'A'..'Z', and keeps every other character |
| Ascii.LowerOfUpper | app/page.tsx:242-243 | lowering ignores an earlier upper-casing |
| Predictive.PredictivePrices | app/page.tsx:179-209 | no history gives no points; the only failure is an empty history with a positive horizon; otherwise there are \|history\| + days points |
| Predictive.HistoryKept | app/page.tsx:199-206 | the first points carry the history's timestamps and prices and no prediction |
| Predictive.NonZeroAverageAt | app/page.tsx:203-204 | `sma[i] \|\| null` is the mean of the window starting at i, or none when that window is missing or its mean is 0 |
| Predictive.AveragesAlignedToHead | app/page.tsx:182-204 | point i's 20- and 50-point averages are the means of the 20 and 50 prices starting at i, each none when those prices are missing or the mean is 0 |
| Predictive.PredictionTimestamp | app/page.tsx:189-196 | prediction k lies (k + 1) days after the last historical point and carries only a prediction |
| Predictive.PredictionsEvenlySpaced | app/page.tsx:190 | consecutive predictions are exactly one day apart |
| Predictive.PredictionValue | app/page.tsx:185-192 | prediction k is lastPrice * trend^(k+1); the trend is 1.002 exactly when the last 20-point average (or the last price) is above the last 50-point average (or the last price), and 0.998 otherwise |
| Predictive.ShortHistoryFalls | app/page.tsx:182-191 | with fewer than 20 prices both averages fall back to the last price and the trend is 0.998 |
| Predictive.PowStep | app/page.tsx:192 | for a positive base each power is above the previous one when the base is above 1, and below it when the base is below 1 |
| Predictive.PredictedStep | app/page.tsx:192 | for a positive last price consecutive predictions move in the trend's direction |
| Predictive.PredictionsMonotone | app/page.tsx:191-192 | for a positive last price the predictions strictly increase under 1.002 and strictly decrease under 0.998 |
| Predictive.ThreeDayExample | app/page.tsx:179-209 | one price of 100 and three days give 99.8, 99.6004 and 99.4011992, one day apart |
| CorrelationMatrix.PushRow | app/page.tsx:217-232 | the inner loop appends exactly row i: one cell per coin, in column order |
| CorrelationMatrix.CorrelationData | app/page.tsx:211-236 | the nested loop produces exactly the row-by-row matrix of the first five coins |
| CorrelationMatrix.RowPrefixAt | app/page.tsx:217-230 | row i holds j cells and its q-th cell is the cell (i, q) |
| CorrelationMatrix.RowsLength | app/page.tsx:216-233 | i full rows of n cells hold Times(i, n) cells, where `Times` is i * n written as repeated addition (proved equal by `TimesIsProduct`) |
| CorrelationMatrix.RowsAt | app/page.tsx:216-233 | the cell at index Times(p, n) + q of the rows, that is p * n + q, is the cell (p, q) |
| CorrelationMatrix.MatrixLength | app/page.tsx:213-233 | with k = min(5, number of coins) the matrix has k * k cells |
| CorrelationMatrix.MatrixAt | app/page.tsx:216-230 | the cell at p * k + q has x = p, y = q, both symbols upper-cased and the correlation of the two sparklines |
| CorrelationMatrix.MatrixWithoutMarket | app/page.tsx:212 | no market list gives no cells |
| CorrelationMatrix.MatrixSymmetric | app/page.tsx:218-221 | the cells (p, q) and (q, p) hold the same value |
| CorrelationMatrix.MatrixBounded | app/page.tsx:218-229 | every value lies in [-1, 1] |
| CorrelationMatrix.MissingSparklineGivesZero | app/page.tsx:219-220 | a coin without a sparkline stays in the matrix with 0 in its row and column |
| CorrelationMatrix.DiagonalIsOne | app/page.tsx:218-221 | a coin whose sparkline is not constant has 1 on the diagonal |
| Search.ContainsIff | app/page.tsx:242-243 | `includes` holds exactly when the term occurs at some position |
| Search.ContainsEmpty | app/page.tsx:242 | every string includes the empty term |
| Search.FilterCoins | app/page.tsx:241-244 | the filtered list is no longer than the list and holds only listed coins that match |
| Search.SearchEffect | app/page.tsx:238-247 | without a market list the shown list stays; with one it is the order-preserving filtered list `FilterCoins`, so it holds exactly the listed coins that match |
| Search.FilterMembership | app/page.tsx:241-244 | a coin is kept exactly when it is listed and its lowered name or symbol contains the lowered term |
| Search.FilterAppend | app/page.tsx:241 | filtering keeps the list's order: it distributes over concatenation |
| Search.EmptyTermKeepsAll | app/page.tsx:241-244 | an empty term keeps every coin in order |
| Search.FilterIdempotent | app/page.tsx:241-244 | filtering twice is filtering once |
| Search.FilterIgnoresTermCase | app/page.tsx:242-243 | the term's case does not change the result |
| Search.CoinCaseIgnored | app/page.tsx:242-243 | the case of a coin's name and symbol does not change whether it matches |
| Defi.SwapWithPrevious | app/page.tsx:265 | exchanges two neighbouring protocols and keeps the array's contents |
| Defi.InsertByTvl | app/page.tsx:265 | one insertion step extends the sorted prefix by one, keeps the contents, and leaves every protocol after the step's index in place |
| Defi.SortByTvlDescending | app/page.tsx:265 | the array ends non-increasing by value locked, a permutation of what it held |
| Defi.TopDefiProtocols | app/page.tsx:263-265 | no feed gives none; otherwise exactly min(5, n) protocols, a permutation of the first five, largest value locked first |
| Display.HistoryDays | app/page.tsx:177 | "24h" fetches 1 day, "7d" 7 days, and every other range 30 days |
| Display.OtherRangesFetchThirtyDays | app/page.tsx:177 | the one-hour and one-year ranges fetch 30 days |
| Display.HeatmapColor | app/page.tsx:116-122 | each of the five colours is pinned to its band: dark green exactly from 0.7 up, light green exactly on [0.3, 0.7), white exactly on [-0.3, 0.3), light red exactly on [-0.7, -0.3), dark red exactly below -0.7 |
| Display.StrengthLabel | app/page.tsx:443-448 | the label is never the initial "No", and each of the five labels is pinned to its band: "Strong Positive" exactly from 0.7 up, "Moderate Positive" exactly on [0.3, 0.7), "Weak" exactly strictly between -0.3 and 0.3, "Moderate Negative" exactly on (-0.7, -0.3], "Strong Negative" exactly from -0.7 down |
| Display.BandsMonotone | app/page.tsx:116-122 | a larger value never lands in a band further down the scale (a higher `Rank`), for the colour and for the label |
| Display.BandsDisagreeExactly | app/page.tsx:443-448 | the colour and the label disagree exactly at -0.7 and -0.3, where the colour is one band weaker |

## Left out

- The data hooks and their `fetcher` (lib/api.ts:6-62) are left out: they are network I/O and library refresh behaviour. The feeds enter the model as `Option` values.
- Floating-point behaviour is left out: rounding, `NaN`, `Infinity`, and the exactness of `Math.sqrt` and `Math.pow`. Numbers are `real`, `Math.pow` is a recursive power over a natural exponent, and `Math.sqrt` is the `sqrt` parameter. Because of this the `isNaN` guard of the matrix never fires here.
- Statistics.CalculateSma: requires a period of at least 1. The dashboard calls it with 20 and 50 only, and a period of 0 would divide by zero, which is floating-point behaviour this model leaves out.
- Statistics.CalculateCorrelation: no defensive clamping to [-1, 1] is modelled, because the code has none and the bound is proved outright.
- Rendering is left out: JSX, the charts, animation, icons, the stat and protocol cards, and the tooltip's text colour.
- `Intl.NumberFormat`, `toFixed` and `toLocaleString` formatting of the market statistics (app/page.tsx:249-261) are left out; they are presentation.
- React state and effect scheduling are left out: `useState`, `useEffect`, `useMemo` and dependency tracking. The model covers only the computed values, and `Search.SearchEffect` takes the previously shown list as a parameter.
- Ascii.Lower: covers ASCII letters only; Unicode case mapping is left out.
- Ascii.Upper: covers ASCII letters only; Unicode case mapping is left out.
- Defi.SortByTvlDescending: does not state that the sort is stable, i.e. that protocols with equal value locked keep their order. It models the in-place sort as an insertion sort by neighbour swaps, which is stable, but that is not proved.
- Defi.TopDefiProtocols: does not state that protocols with equal value locked keep their feed order. JavaScript's `sort` is stable, so the source's result is unique, but the model proves only that the result is ordered and a permutation. This is the same gap as for `Defi.SortByTvlDescending`.
- The search term's origin (components/header.tsx) and the selection of coin and horizon are left out; they are inputs to the model.
- The slice in `topDefiProtocols` leaves the feed unchanged. In the model the feed is a sequence value, so this holds by construction and is not stated as a separate property.
