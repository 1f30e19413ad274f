# AI stock screener — a verified model of its decision layer

The screener (`AIStockScreener` in `stock_ai_screener.py`) takes a metric
record for each ticker and works through four steps:

- It scores the record out of 100 points: P/E, ROE, debt/equity and revenue
  growth give up to 70, and price against the 50-day average and recent
  against average volume give up to 30.
- It decides whether the ticker passes. A ticker passes at 60 points or more,
  unless the P/E, the ROE or the debt/equity is out of bounds.
- For a passing ticker with a price, it builds a fixed-budget investment plan
  ($1000 by default). The plan has a share count, a stop-loss level (8%) and
  a take-profit level (20%), the risk, the reward/risk ratio, three
  fixed-rate one-year projections and a Monte Carlo summary.
- It stores one result per ticker. For the final report it splits the
  results into passed and failed, sorts each part by score from highest to
  lowest with ties kept in screening order, and shows the best five passed
  and the best three failed.

The modules follow those steps:

- `Wrappers`: `Option`, the model of a value that may be `None`.
- `Metrics`: the metric record and Python's truthiness test (`if x:`). That
  test treats a missing value and a zero value alike.
- `Scoring`: each factor's tier cascade as a verdict function, the score as
  a specification function `Score`, and the imperative `CalculateScore`.
  `CalculateScore` keeps running totals, a growing reason list and a
  `passes` flag as the screener does. It is proved equal to `Score`.
- `Investment`: the investment plan, proved over exact reals, and the
  deterministic parts of the Monte Carlo summary: the profit-probability
  fraction and the fixed fallback figures.
- `Results`: the stored per-ticker result and the consistency every stored
  result keeps.
- `Ranking`: the partition, a stable sort specified by insertion, the top-N
  cut, and an in-place array insertion sort proved equal to the
  specification.
- `Screening`: the `Screener` class, whose `results` field `ScreenStock`
  appends to and from which `Rank` draws the report's lists.

Reasons are a datatype, not formatted strings. Each reason carries the
number the screener would print (the P/E, the ROE, the ratio, the total).

## Model

| member | source | states |
|---|---|---|
| `Scoring.PeVerdict` | stock_ai_screener.py:187-199 | P/E awards 20/15/10 points exactly when present, positive and at most 35. It disqualifies with "High P/E" exactly when it is above 35. Otherwise (missing, zero or negative) it notes "No P/E data". |
| `Scoring.RoeVerdict` | stock_ai_screener.py:201-213 | ROE awards 20/15/10 points exactly when it is present and at least 0.10. It disqualifies with "Low ROE" below 0.10. A missing or zero ROE notes "No ROE data". |
| `Scoring.DebtEquityVerdict` | stock_ai_screener.py:215-225 | Debt/equity awards 15/10/5 points up to 0.7 and disqualifies above it. It is silent (no points, no reason) exactly when the value is missing or zero, and it never merely notes. |
| `Scoring.RevenueGrowthVerdict` | stock_ai_screener.py:227-236 | Growth awards 15/12/8 points from 0.05 up. Below 0.05 it notes "Low revenue growth" without disqualifying. It is silent when growth is missing or zero. |
| `Scoring.PriceSmaVerdict` | stock_ai_screener.py:240-252 | Without both a price and a 50-day average it notes "No technical data". Otherwise the price/average ratio awards 15/10/5 points from 0.90 up and notes "Price below 50-day SMA" under 0.90. It never disqualifies. |
| `Scoring.VolumeVerdict` | stock_ai_screener.py:254-261 | The recent/average volume ratio awards 15/10/5 points when both volumes are present and the average is positive. It never records a reason. |
| `Scoring.FundamentalPoints` | stock_ai_screener.py:184-236 | The fundamental points total at most 70. |
| `Scoring.TechnicalPoints` | stock_ai_screener.py:238-261 | The technical points total at most 30. |
| `Scoring.Score` | stock_ai_screener.py:175-269 | An absent record gives exactly (fail, 0, ["No data available"]). Otherwise the score is the sum of the tier points and lies in [0, 100]. The ticker passes exactly when the score is at least 60 and no hard disqualifier fired. The reasons are the factor reasons in evaluation order, followed by "Low overall score" exactly when the score is below 60. A failure always has a reason. |
| `Scoring.ScoreFacts` | stock_ai_screener.py:186-267 | The three disqualifying verdicts fire exactly when the raw P/E, ROE or debt/equity is out of bounds. The low-score reason is last exactly when the score is below 60. The reasons are in order, and a failure has one. |
| `Scoring.FactorReasonsInOrder` | stock_ai_screener.py:196-252 | Factor reasons appear in the order P/E, ROE, debt/equity, growth, price/SMA. A disqualifier always leaves a reason. |
| `Scoring.CalculateScore` | stock_ai_screener.py:175-269 | The step-by-step scorer returns exactly `Score(data)`: the same pass flag, score and reasons. |
| `Scoring.PeStep` | stock_ai_screener.py:187-199 | The P/E block adds the P/E verdict's points, appends its reason and clears `passes` only on a disqualification. |
| `Scoring.RoeStep` | stock_ai_screener.py:201-213 | The ROE block adds the ROE verdict's points, appends its reason and clears `passes` only on a disqualification. |
| `Scoring.DebtEquityStep` | stock_ai_screener.py:215-225 | The debt/equity block adds its verdict's points, appends its reason and clears `passes` only on a disqualification. |
| `Scoring.RevenueGrowthStep` | stock_ai_screener.py:227-236 | The growth block adds its verdict's points and appends its reason. |
| `Scoring.PriceSmaStep` | stock_ai_screener.py:240-252 | The price/SMA block adds its verdict's points and appends its reason. |
| `Scoring.VolumeStep` | stock_ai_screener.py:254-261 | The volume block adds its verdict's points. |
| `Scoring.AllFavourableScoresFull` | stock_ai_screener.py:187-267 | A record favourable on every factor scores 100, passes and has no reason. |
| `Scoring.HighPeFailsDespiteScore` | stock_ai_screener.py:187-197 | A P/E of 40 fails a ticker that scores 80, with the single reason "High P/E". |
| `Scoring.PassesWithoutCurrentPrice` | stock_ai_screener.py:240-267 | Without a price or volumes, the fundamentals alone (70 points) pass a ticker. |
| `Investment.CalculateInvestmentScenario` | stock_ai_screener.py:91-143 | The plan is empty exactly when the record or its price is missing. The shares cost exactly the budget. The stop loss risks exactly price × stop-loss per share and budget × stop-loss in total. The take profit lies price × take-profit above the price, and ratio × stop-loss equals take-profit. The projections are the budget × 1.08, 1.15 and 1.25. The Monte Carlo figures are copied. For a positive price, a stop loss in (0, 1) and a positive take profit: 0 < stop-loss level < price < take-profit level, and the ratio is positive. |
| `Investment.StopLossLevel` | stock_ai_screener.py:107-109 | The stop-loss level lies price × stop-loss below the price, strictly between 0 and the price for a stop loss in (0, 1). |
| `Investment.TakeProfitLevel` | stock_ai_screener.py:108 | The take-profit level lies price × take-profit above the price, above it for a positive take profit. |
| `Investment.RiskRewardRatio` | stock_ai_screener.py:129 | The ratio times the stop-loss share is the take-profit share. It is positive when both are positive. |
| `Investment.PositionArithmetic` | stock_ai_screener.py:103-110 | Buying budget/price shares costs the budget, and the total risk is budget × stop-loss. |
| `Investment.ProjectionsIncrease` | stock_ai_screener.py:113-134 | For a positive budget: budget < conservative < moderate < aggressive. |
| `Investment.DefaultPlanAtHundred` | stock_ai_screener.py:25-27 | With the default criteria at a $100 price: 10 shares, stop loss $92, take profit $120, risk $80, ratio 2.5, projections $1080/$1150/$1250. |
| `Investment.CountAbove` | stock_ai_screener.py:165 | The count of values above the threshold is at most the length. It is 0 exactly when none is above and the length exactly when all are. |
| `Investment.ProbabilityProfit` | stock_ai_screener.py:165 | The profit probability is a fraction in [0, 1]. It is 0 exactly when no trial ends above $1000 and 1 exactly when all do. |
| `Investment.FractionBounds` | stock_ai_screener.py:165 | A count out of a positive total lies in [0, 1]. It is 0 only for none and 1 only for all. |
| `Investment.FallbackProjection` | stock_ai_screener.py:167-173 | The fallback summary has worst < average < best, a probability in [0, 1] and an average of $1000 × 1.15. |
| `Results.ScreenResultFor` | stock_ai_screener.py:279-299 | The stored result repeats the record's fields and the scorer's verdict. It is consistent. It holds a plan exactly when the ticker passes with a truthy price, and that plan is the scenario for the record. |
| `Ranking.Selected` | stock_ai_screener.py:328-329 | Each part holds only results with its pass flag. |
| `Ranking.PartitionIsExact` | stock_ai_screener.py:328-329 | Passed and failed together are exactly the results (as multisets), and their counts add up to the total. |
| `Ranking.InsertByScore` | stock_ai_screener.py:339 | Insertion adds one element. |
| `Ranking.InsertIsPermutation` | stock_ai_screener.py:339 | Insertion adds exactly the new element and loses nothing. |
| `Ranking.InsertKeepsSorted` | stock_ai_screener.py:339 | Inserting into a highest-first sequence keeps it highest first. |
| `Ranking.SortByScore` | stock_ai_screener.py:339 | The sorted sequence is a permutation of the input, sorted by score from highest to lowest. |
| `Ranking.WithScore` | stock_ai_screener.py:339 | The filter keeps only elements with the given score. |
| `Ranking.InsertIsStable` | stock_ai_screener.py:339 | Insertion places the new element after every earlier element of equal score. |
| `Ranking.SortIsStable` | stock_ai_screener.py:339 | Stability: for every score, the elements with that score appear in the sorted sequence in input order. |
| `Ranking.Top` | stock_ai_screener.py:341 | The slice `[:n]` is the first min(n, length) elements. |
| `Ranking.Ranked` | stock_ai_screener.py:339-360 | The shown part has at most n entries, all from the results with the part's flag, highest score first. |
| `Ranking.TopIsBest` | stock_ai_screener.py:341 | In a highest-first sequence, an element not among the first n scores no more than any shown one. |
| `Ranking.InItsPart` | stock_ai_screener.py:328-329 | A result with a given pass flag is in that part. |
| `Ranking.RankedIsBest` | stock_ai_screener.py:339-360 | No better ticker is left out: every result of the part is shown or scores no more than every shown one. Exactly min(n, part size) are shown. |
| `Ranking.SortByScoreDescending` | stock_ai_screener.py:339 | The in-place sort leaves the array equal to `SortByScore` of its old contents. |
| `Ranking.InsertLast` | stock_ai_screener.py:339 | One pass of the in-place sort inserts `a[i]` into the sorted prefix and leaves the rest of the array alone. |
| `Ranking.InsertAt` | stock_ai_screener.py:339 | Insertion puts the element right behind the last element that scores at least as much. |
| `Ranking.PlacedAt` | stock_ai_screener.py:339 | The array prefix after the shifting loop is the sorted prefix with the element placed at the stopping point. |
| `Screening.Screener.constructor` | stock_ai_screener.py:10-32 | A new screener has the default criteria ($1000, 8%, 20%) and no results. |
| `Screening.Screener.ScreenStock` | stock_ai_screener.py:271-307 | Without data nothing is stored. With data exactly one result (`ScreenResultFor`) is appended, the earlier results are kept, the criteria are unchanged, and every stored result stays consistent. |
| `Screening.Screener.Rank` | stock_ai_screener.py:322-361 | The passed and failed counts add up to the total. The report shows `Ranked(results, true, 5)` and `Ranked(results, false, 3)`. Every shown passed ticker scores at least 60, and every shown failed ticker has a reason. |
| `Screening.ShownAreConsistent` | stock_ai_screener.py:339-360 | Every shown ticker is a stored result, so it is consistent and has the part's flag. |
| `Screening.SortedCopy` | stock_ai_screener.py:339 | Sorting a copy in an array gives `SortByScore` of the list. |

## Left out

- Fetching data (`get_stock_data`, lines 34-89) is left out: it needs the network, the market-data library and pandas statistics. Its output is the `MetricRecord` input, and `None` stands for a failed fetch.
- The Monte Carlo random walk (lines 145-166) is left out: normal sampling, floating-point compounding, and the mean and percentiles of the simulated values. The summary is an input `Projection`. Only the profit fraction (`ProbabilityProfit`, against a fixed $1000 whatever the budget) and the fixed fallback figures are modelled. The volatility that feeds the walk is therefore not part of the record.
- `round(x, 2)` (lines 123-139) is left out: the plan is computed over exact reals.
- IEEE floating point, including NaN and infinities, is left out: numbers are exact reals.
- Printing, `time.sleep`, `datetime.now` and `main` are left out. This includes the report's formatting and the message strings of the reasons.
- `screen_multiple_stocks` (lines 309-320) is left out: it is only a loop over `ScreenStock` with a sleep, followed by the report.
- Most of the criteria dictionary (lines 12-23) is left out: the scorer uses literal thresholds and never reads these entries. The criteria keep only the investment amount and the two percentages.
- `Investment.CalculateInvestmentScenario`: requires a nonzero price and a nonzero stop loss. The source would raise a division-by-zero error for them. Its only caller passes a truthy price and the default 8% stop loss.
- `Ranking.SortByScoreDescending`: models the library's stable sort as an insertion sort. Any stable sort by the same key gives the same list (sortedness, permutation and per-score order are all proved), but the library's algorithm and its comparison count are not modelled.
- The report's plan printout is not modelled. A ticker can pass without a price (see `PassesWithoutCurrentPrice`), and then it has no plan. The printout would then read fields of an empty plan.
