# Moving-average crossover back tester: a verified model of its core

The back tester takes one historical price series with precomputed moving averages. It sweeps a grid of strategy parameters over it: a fast and a slow moving-average period, a stop-loss rate and a take-profit rate. It records each combination's result for later ranking. This project models in Dafny the four parts that carry the logic, and proves what each promises.

- **The parameter grid** (`cartesian_product`), in `grid.dfy`.
  - The product of four inclusive integer ranges, in `itertools.product` order.
  - Filtered by two rules: fast period below slow, and take-profit at least one percentage point above stop-loss.
  - Also returns the number of tests.
  - Stop-loss and take-profit are whole percentages (`Params.stopLossPct`); the back tester divides them by 100.
- **The position state machine** (`Test_Strategy.open_position` / `close_position`).
  - `simulator.dfy` states it as functions: `Scan`, `Hold`, `Simulate` and an `Outcome`.
  - `strategy.dfy` carries it out as the back tester does, in class `TestStrategy`. Two lists of short and long positions grow as the run goes. Opening appends a position; closing completes the last one in place. The two methods call each other until the series is used up.
  - A crossover found on the second-to-last candle asks for a candle past the end. The back tester catches that `IndexError` and stores nothing. The model makes this an explicit `Crashed` outcome with no result.
- **The run aggregation** (`load_results`, computation only), in `strategy.dfy`.
  - The total profit rounded to two places, the number of winning positions, and both lists merged by open time.
  - Python's `round` is modelled on exact reals, ties to even, in `numerics.dfy`.
- **The two ranking queries** (`retrieve_top_strats`, `retrieve_top_group_strats`), in `ranking.dfy`.
  - Both are pure functions over an in-memory sequence of `Strategy_Results` rows.
  - `ORDER BY` is an insertion sort by key, in `sorting.dfy`.

The moving averages and the price series are inputs. A candle carries its moving averages in a map keyed by period.

## Model

| member | source | states |
|---|---|---|
| Numerics.RoundHalfEven | backtester/web/backtester.py:402 | `round(x)`: within one half of x, and on a tie the even neighbour |
| Numerics.RoundIsNearest | backtester/web/backtester.py:402 | no integer is nearer to x than `round(x)` |
| Numerics.Tick | backtester/web/backtester.py:402-403 | `round(x*2)/2` is a multiple of 0.5 within 0.25 of x |
| Numerics.Round4 | backtester/web/backtester.py:427-428 | `round(x, 4)` is a multiple of 0.0001 within 0.00005 of x, the even multiple on a tie, and keeps the sign of x |
| Numerics.Round2 | backtester/web/backtester.py:499 | `round(x, 2)` is a multiple of 0.01 within 0.005 of x, the even multiple on a tie, and keeps the sign of x |
| Grid.Range | backtester/web/backtester.py:766-769 | `range(low, high+1)`: the integers low..high in order, empty when high < low |
| Grid.TakeProfits | backtester/web/backtester.py:772 | innermost level of the product: exactly the combinations with the given fast, slow and stop-loss and a take-profit from the list |
| Grid.StopLosses | backtester/web/backtester.py:772 | exactly the combinations with the given fast and slow periods, stop-loss and take-profit from the lists |
| Grid.SlowMas | backtester/web/backtester.py:772 | exactly the combinations with the given fast period, other values from the lists |
| Grid.Product | backtester/web/backtester.py:772 | `itertools.product`: a combination is listed iff each of its four values is in its list |
| Grid.KeepAdmissible | backtester/web/backtester.py:778-783 | the filter keeps a combination iff it is listed and satisfies both rules |
| Grid.Grid | backtester/web/backtester.py:766-783 | a combination is in the grid iff each value is in its range, fast < slow and tp >= sl + 1 |
| Grid.ProductAscending | backtester/web/backtester.py:772 | the product is strictly ascending: fast period outermost, then slow, stop-loss, take-profit |
| Grid.KeepAdmissibleAscending | backtester/web/backtester.py:779-783 | filtering keeps the relative order |
| Grid.GridAscending | backtester/web/backtester.py:766-783 | the grid is in `itertools.product` order, each combination once |
| Grid.GridCount | backtester/web/backtester.py:786 | the grid's length is the number of distinct admissible combinations in the ranges |
| Grid.EmptyRangeEmptyGrid | backtester/web/backtester.py:766-769 | a range with high < low gives an empty grid, not an error |
| Grid.KeepRules | backtester/web/backtester.py:778-783 | the rule loop appends exactly the admissible combinations, in order |
| Grid.CartesianProduct | backtester/web/backtester.py:760-793 | returns the grid of the four ranges in product order, and the test count is its length |
| Grid.ToBinary64 | backtester/web/backtester.py:781 | each decimal constant, quotient and sum of the rule is rounded to the nearest double, which moves it by at most one part in 2^53 |
| Grid.TakeProfitRuleAsWritten | backtester/web/backtester.py:781 | the rule on doubles admits every gap of two points or more and refuses every gap of zero or less, as the intended rule does; only a gap of exactly one point can go either way |
| Grid.FloatRuleRejectsFiveSix | backtester/web/backtester.py:781 | with doubles, `0.06 >= 0.05 + 0.01` is false, though 5% and 6% satisfy the intended rule |
| Simulator.Signal | backtester/web/backtester.py:356-357 | short iff fast above slow on candle i and below on i+1; long iff the reverse; the short test comes first, and equal averages never signal |
| Simulator.FirstSignal | backtester/web/backtester.py:352-369 | the first index in [start, len-1) with a signal; none iff no index there signals |
| Simulator.FirstTrigger | backtester/web/backtester.py:406-423 | the first index in [start, len-1) whose candle reaches the stop or target; the last candle is never examined |
| Simulator.StopPrice | backtester/web/backtester.py:402-403 | the stop price is on the 0.5 price grid, within 0.25 of open·(1 + sl) for a short and open·(1 − sl) for a long |
| Simulator.TargetPrice | backtester/web/backtester.py:436-437 | the target price is on the 0.5 price grid, within 0.25 of open·(1 − tp) for a short and open·(1 + tp) for a long |
| Simulator.CloseOnTrigger | backtester/web/backtester.py:408-419 | a triggering candle closes at the stop with pnl -stop_loss if the stop is reached (tested first), else at the target with pnl +take_profit |
| Simulator.Unrealised | backtester/web/backtester.py:427-428 | the end-of-series profit rate is `round((P-C)/P, 4)` for a short and `round((C-P)/P, 4)` for a long: within 0.00005, with the right sign |
| Simulator.Scan | backtester/web/backtester.py:344-386 | `open_position` from start: every position of the rest of the run is closed |
| Simulator.Hold | backtester/web/backtester.py:389-471 | `close_position` of q from start: the rest of the run starts with q closed, in q's direction and at q's open time and open price, and every position in it is closed |
| Simulator.Simulate | backtester/web/backtester.py:341 | the whole run: every position closes at its stop or target with the configured rate, except possibly the last of a completed run, which closes at the last candle; at most one position per three candles; a crash only when the last two candles signal |
| Simulator.ScanSignalled | backtester/web/backtester.py:356-363 | a signal at len-2 crashes the run; otherwise the position opens at candle i+2's time and open price and is held from i+2 |
| Simulator.ScanFrom | backtester/web/backtester.py:352-381 | scanning skips candles without a signal |
| Simulator.HoldUntil | backtester/web/backtester.py:406-432 | holding closes at the first trigger and rescans from the next candle; without a trigger it closes at the last candle's close |
| Simulator.ScanChronological | backtester/web/backtester.py:352-376 | every position of a run is closed, and each opens after the previous one closed: at most one position is open at a time |
| Simulator.HoldChronological | backtester/web/backtester.py:406-466 | a held position closes no earlier than it opened, and later positions open after it closes |
| Simulator.ScanSettled | backtester/web/backtester.py:408-466 | every position closes at a trigger price with the configured rate, except possibly the last of a completed run, which closes at the last candle's close |
| Simulator.HoldSettled | backtester/web/backtester.py:406-432 | the same for the run from a held position on |
| Simulator.ScanCrashes | backtester/web/backtester.py:359-360 | a run crashes only when the last two candles signal |
| Simulator.HoldCrashes | backtester/web/backtester.py:412-413 | the same for the run from a held position on |
| Simulator.ScanTradeCount | backtester/web/backtester.py:362-363 | every position uses up at least three candles, so a run from start takes at most (len - start)/3 positions |
| Simulator.HoldTradeCount | backtester/web/backtester.py:412-413 | the same bound from a held position on |
| Simulator.FirstEntry | backtester/web/backtester.py:359-363 | a run's first position has the direction of the first signal i and candle i+2's timestamp and open price |
| Sorting.InsertBy | backtester/web/backtester.py:525 | insertion into a sorted list keeps it sorted and adds exactly that element |
| Sorting.SortBy | backtester/web/backtester.py:525 | `sorted(..., key=...)` is sorted by the key and a permutation of its input |
| Sorting.SortedPermutationUnique | backtester/web/backtester.py:525 | a sorted permutation of a list with strictly increasing keys is that list |
| Strategy.OfDirection | backtester/web/backtester.py:359-372 | a position is in the list of direction d iff it is a position of the run with direction d |
| Strategy.SumsSnoc | backtester/web/backtester.py:483-497 | one more position adds its pnl to the sum, and one win if its pnl is positive |
| Strategy.Summary | backtester/web/backtester.py:499-525 | the first and last timestamps of the series; a total on the 0.01 grid within 0.005 of the sum of both lists' pnl; the number of positive pnl; and both lists' positions, sorted by open time |
| Strategy.SplitByDirection | backtester/web/backtester.py:524 | the short and long lists together hold exactly the run's positions, its total pnl and its wins |
| Strategy.ChronologicalOpensAscending | backtester/web/backtester.py:525 | in a run's log the open times strictly increase |
| Strategy.ResultOfRun | backtester/web/backtester.py:479-525 | for a completed run: positions = the run's log in the order taken, total = round(sum of pnl, 2), wins = the number of positive pnl |
| Strategy.Tally | backtester/web/backtester.py:483-497 | each accumulation loop yields the sum of the list's pnl and its number of wins |
| Strategy.TestStrategy.constructor | backtester/web/backtester.py:330-341 | the two lists are the simulated run split by direction. A result is stored iff the run completes on a non-empty series, and is then the run's summary |
| Strategy.TestStrategy.OpenPosition | backtester/web/backtester.py:344-386 | the run from start is `Scan`. Its positions are appended by direction. The result is loaded iff the run completes |
| Strategy.TestStrategy.Enter | backtester/web/backtester.py:356-376 | a signal at i opens at candle i+2 and holds from there, or crashes when candle i+2 is missing |
| Strategy.TestStrategy.TakePosition | backtester/web/backtester.py:359-363 | appends the new position to its direction's list and holds it |
| Strategy.TestStrategy.ClosePosition | backtester/web/backtester.py:389-471 | the run from start is `Hold` of the pending position. The pending position is replaced by its closed form, then later positions are appended |
| Strategy.TestStrategy.Exit | backtester/web/backtester.py:408-414 | a trigger at j completes the pending position in place and continues with the scan from j+1 |
| Strategy.TestStrategy.SettleLast | backtester/web/backtester.py:409-410 | `position[-1].update(...)`: only the last entry of that direction's list changes |
| Strategy.TestStrategy.LoadResults | backtester/web/backtester.py:474-525 | stores start/end timestamps, round(total pnl, 2), the wins and the lists merged by open time; nothing on an empty series |
| Ranking.OfTest | backtester/web/backtester.py:666-667 | a row is kept iff it belongs to the given test |
| Ranking.Best | backtester/web/backtester.py:666-668 | `ORDER BY Total_PNL DESC LIMIT n`: min(n, count) of the rows, pnl non-increasing, and no row left out beats a row kept |
| Ranking.TopStrats | backtester/web/backtester.py:660-668 | at most 50 of the test's rows, each at most as often as in the table (all of them when the test has fewer), best pnl first; every row of the test left out has a pnl no higher than every row shown |
| Ranking.Top200 | backtester/web/backtester.py:707-712 | `ORDER BY Total_PNL DESC LIMIT 200` over the test's rows: min(200, count) of them, pnl non-increasing, and no row of the test left out beats a row kept |
| Ranking.OfPair | backtester/web/backtester.py:725-726 | a row belongs to a group iff it has the group's fast and slow period |
| Ranking.Pairs | backtester/web/backtester.py:726 | the groups of the top rows: each (fast, slow) pair that occurs, once |
| Ranking.MaxPnl | backtester/web/backtester.py:714-718 | `MAX(Total_PNL)` is one of the rows' pnl and none is higher |
| Ranking.Group | backtester/web/backtester.py:714-724 | a group row carries its pair and its count among the top rows, and its Top_PNL is the best pnl of the pair over all of the test's rows, attained by one of them |
| Ranking.Groups | backtester/web/backtester.py:720-727 | a group row exists iff its pair occurs more than twice among the top rows (`HAVING Freq > 2`), once per pair |
| Ranking.TopGroupStrats | backtester/web/backtester.py:699-728 | exactly the pairs with more than two rows among the test's top 200, each once, with freq = that count, ordered by average pnl descending |
| Ranking.OrderedGroups | backtester/web/backtester.py:728 | ordering the groups keeps each of them once, best average first |
| Ranking.GroupTopPnl | backtester/web/backtester.py:714-724 | a group's Top_PNL is the best pnl of its pair over all of the test's rows, not only the top 200, so it is never below the group's average |
| Ranking.GroupBounds | backtester/web/backtester.py:714-722 | a group's average pnl over its top rows is never above its Top_PNL |

## Left out

- Database and file I/O, out of scope:
  - the SQL `INSERT`s and the `Position_Details` rows of `load_results`;
  - `db_connect`, `create_db` and `log_exceptions`;
  - the CSV import, the moving-average precomputation (`rolling().mean()`) and `run_test`'s fetch of the series.
  - The series and its averages are inputs.
- Presentation: `plot_chart` and the percentage strings `str(round(x*100, 1)) + '%'` of both ranking functions. The row number appended by `retrieve_top_group_strats` is also left out.
- Concurrency: the worker-pool fan-out in `views.py`, the Flask routes and the app factory.
- Floating point:
  - Prices, rates and averages are exact reals, and `round` is ties-to-even on the exact value.
  - Binary representation error is not modelled, except in the finding below.
- Grid.KeepRules: the rest of the model applies the intended take-profit rule `tp >= sl + 1` on whole percentages, not the floating-point comparison. The finding below shows where the two differ.
- Grid.CartesianProduct: the tuples also carry `instrument_period_dict` and `test_variable_range_id`, passed through unchanged. The model returns only the four values.
- Strategy.TestStrategy.constructor: `instrument_period_dict` and `test_variable_range_id` are only passed on to the insert and are not modelled. The scratch attributes `start_idx`, `direction`, `sl_price`, `tp_price` and `urpnl` are locals.
- Strategy.TestStrategy.constructor: requires the two moving-average periods to be present on every candle. The periods allowed are 3 to 20, which the stored series always carries; another period would raise `KeyError` and store nothing.
- Strategy.TestStrategy.constructor: requires every open price of the series to be positive. The back tester divides only by the open price of an entry candle whose position is still open at the last candle (`backtester.py:427-428`, `461-462`), where a zero raises `ZeroDivisionError` and stores nothing; the model does not consider a series with a non-positive open price anywhere, even where it would never be divided by.
- Timestamps are integers. The back tester keeps them as fixed-format text (`YYYY-MM-DD HH:MM:SS`) and `sorted` compares them as strings, which orders such strings chronologically; the model assumes that order.
- Strategy.TestStrategy.OpenPosition: Python's recursion limit is not modelled. On a series with very many trades the mutual recursion raises `RecursionError` and stores nothing.
- Strategy.TestStrategy.LoadResults: `total_wins` is computed but not written to `Strategy_Results`. The model keeps it in the result record.
- Ranking.TopStrats: SQL leaves the order of rows with equal `Total_PNL` open. The model fixes one order among them, the one its insertion sort yields, and promises nothing about which. The same applies to groups with equal average pnl in Ranking.TopGroupStrats.
- Ranking.Top200: when rows tie on `Total_PNL` at the 200th place, SQL may keep any of them. The model keeps the ones its fixed order puts first. That choice decides which rows are grouped, not only their order.
- Grid.TakeProfitRuleAsWritten: the agreement with the intended rule is proved for rates up to a million percent and for the binary exponents given as parameters (`Certified`). The exponents are not computed from the values. Only the `Strategy_Results` columns the queries use are modelled; the row id is left out.
- Code and specification differ on three points; the model follows the code:
  - A range whose high end is below its low end yields an empty grid, not an error.
  - An empty series stores no result, because `rec_dict[0]` fails.
  - A two-candle series whose two candles signal stores no result (crash), rather than a zero result.

## Findings

| source | as written | input that shows it | evidently intended | confidence | as-written member | corrected member |
|---|---|---|---|---|---|---|
| backtester/web/backtester.py:781 | `tp/100 >= sl/100 + 0.01` compared in binary floating point | stop-loss 5%, take-profit 6%: `0.05 + 0.01` rounds to a double above the double `0.06`, so the combination is dropped | take-profit at least one percentage point above stop-loss, `tp >= sl + 1` | high, worked out in exact IEEE 754 arithmetic (not executed) | Grid.TakeProfitRuleAsWritten, Grid.FloatRuleRejectsFiveSix | Grid.KeepRules, Grid.Grid |
