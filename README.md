# Glowroot transaction charts and flame graph, modelled in Dafny

This project models the computational core of glowroot's transaction UI
service (`TransactionJsonService`), the part that turns already-fetched
aggregates and profiles into chart data:

- **Leaf-exclusive timer reduction** (`StackedPoint.create`,
  `addToStackedTimer`). Each aggregate's decoded timer tree is walked from two
  levels below the synthetic root. Every timer occurrence adds its total time
  minus the total time of its nested timers under its own name. The target is
  an in-place add-or-insert counter map (`MutableLongMap.add`), modelled as the
  class `LongMaps.LongMap`.
- **Top-N selection** (`getTopTimerNames`). The per-point maps are summed over
  the window, and the names with the greatest totals are kept, greatest first.
  The selection step (`Ordering.greatestOf`) is a selection loop whose result
  is specified by the predicate `TopTimers.IsGreatestOf`.
- **Metrics chart assembly** (`getMetricDataSeries`,
  `getDataSeriesForMetricsChart`). Up to five named series and one trailing
  "other" series are built. Each gets one value per stacked point, averaged per
  transaction and converted to seconds. The "other" value is the point's total
  time minus the micros of the selected timers present at that point.
- **Flame graph** (`getFlameGraph`, `writeFlameGraphNode`). A drill-down loop
  skips the profile's chain of single-child nodes. It falls back to the root
  when the chain ends in a leaf. Then every node becomes an object with
  `svUnique = sampleCount − Σ child sampleCount` and `svTotal = sampleCount`,
  inside an envelope with `svUnique = 0`.
- **Request helpers**. These are `getDataPointIntervalMillis`,
  `shouldIncludeActiveTraces`, `matchesActive` and the active-trace counting
  loop of `getTabBarData`.

Modules, one per file: `Wrappers` (an `Option` for the nullable fields),
`LongMaps`, `Timers`, `TopTimers`, `MetricSeries`, `FlameGraph` and `Requests`.
The state the source mutates is modelled imperatively. The counter map is a
class with a `modifies` frame, and the loops are `while`/`for` loops with
invariants. Each method is proved against a specification function or
predicate. The properties the source relies on are lemmas about those
functions.

Inputs that come from outside the service are parameters. These are the
clock reading (`now`), the rollup threshold of the aggregate store, the
registry's active transactions, and the collector's store decision
(`shouldStore`, a total function of the transaction, which carries an `id` standing for the transaction object so that transactions of the same type and name can get different decisions).

Two behaviours of the code shape the model:

- A named series value divides by the transaction count whenever the timer
  is present at that point (line 368). Only the "other" series is guarded
  against a zero count (line 373). The model therefore requires that a point
  without transactions records no timer time; see "## Left out".
- `Ordering.greatestOf` over a hash map's entries (lines 406-416) leaves the
  order among equal totals unfixed. The model allows any order among ties.

## Model

| member | source | states |
|---|---|---|
| LongMaps.LongMap.Add | core/src/main/java/org/glowroot/local/ui/TransactionJsonService.java:510-518 | `add(k, d)` leaves value (old value or 0) + d under k, makes k a key, and leaves every other key and value unchanged |
| LongMaps.AccumulateAt | core/src/main/java/org/glowroot/local/ui/TransactionJsonService.java:510-518 | a sequence of `add` calls raises each key by exactly the deltas given under it, and creates exactly the keys that occur |
| LongMaps.AccumulateSum | core/src/main/java/org/glowroot/local/ui/TransactionJsonService.java:510-518 | a sequence of `add` calls raises the sum of all values by the sum of the deltas |
| LongMaps.AccumulateAppend | core/src/main/java/org/glowroot/local/ui/TransactionJsonService.java:510-518 | applying two runs of `add` calls one after the other equals applying their concatenation |
| LongMaps.MapSumAdd | core/src/main/java/org/glowroot/local/ui/TransactionJsonService.java:510-518 | one `add(k, d)` raises the sum of all values by exactly d |
| LongMaps.MapSumRemove | core/src/main/java/org/glowroot/local/ui/TransactionJsonService.java:510-518 | helper of `LongMaps.AccumulateSum`: the sum of a map's values does not depend on which key is taken out first |
| LongMaps.SumOverAll | core/src/main/java/org/glowroot/local/ui/TransactionJsonService.java:373-379 | helper of `MetricSeries.OtherIsRootTime`: summing a map over a repetition-free list that names all its keys gives the sum of all its values |
| Timers.AddToStackedTimer | core/src/main/java/org/glowroot/local/ui/TransactionJsonService.java:494-502 | the traversal adds, nested subtrees first, each occurrence's total minus its nested totals under its name, and nothing else |
| Timers.CreateStackedPoint | core/src/main/java/org/glowroot/local/ui/TransactionJsonService.java:466-479 | the point keeps its aggregate, and its map holds exactly what the traversal of every subtree below a real root adds to an empty map |
| Timers.ContributionsTelescope | core/src/main/java/org/glowroot/local/ui/TransactionJsonService.java:494-502 | the amounts added for a subtree sum to the subtree's total time, with no condition on the nested totals |
| Timers.ContributionsAllTelescope | core/src/main/java/org/glowroot/local/ui/TransactionJsonService.java:497-500 | the amounts added for a list of subtrees sum to the sum of their total times |
| Timers.RootContributionsTelescope | core/src/main/java/org/glowroot/local/ui/TransactionJsonService.java:471-477 | the amounts added below the real roots sum to the total time of the top-level timers |
| Timers.StackedTimersConserve | core/src/main/java/org/glowroot/local/ui/TransactionJsonService.java:466-479 | the values of a stacked map add up to the total time of the top-level timers |
| Timers.ContributionsByName | core/src/main/java/org/glowroot/local/ui/TransactionJsonService.java:494-502 | for every name, a subtree's additions sum to the self times of that name's occurrences, and the names added are the names that occur |
| Timers.ContributionsAllByName | core/src/main/java/org/glowroot/local/ui/TransactionJsonService.java:497-500 | the same, for a list of subtrees |
| Timers.RootContributionsByName | core/src/main/java/org/glowroot/local/ui/TransactionJsonService.java:471-477 | the same, for everything below the real roots |
| Timers.StackedTimersAt | core/src/main/java/org/glowroot/local/ui/TransactionJsonService.java:466-479 | a name is in the stacked map iff it occurs below a real root, and its value is the sum of the self times of all its occurrences there (repeated names accumulate) |
| TopTimers.WindowTotalOutside | core/src/main/java/org/glowroot/local/ui/TransactionJsonService.java:400-405 | a name recorded at no point has window total 0 |
| TopTimers.TimerTotals | core/src/main/java/org/glowroot/local/ui/TransactionJsonService.java:400-405 | the merged totals hold exactly the names recorded in the window, each with its stacked micros summed over all points |
| TopTimers.GreatestKey | core/src/main/java/org/glowroot/local/ui/TransactionJsonService.java:406-416 | picks a candidate whose total is at least every other candidate's |
| TopTimers.GreatestOf | core/src/main/java/org/glowroot/local/ui/TransactionJsonService.java:406-416 | returns min(topX, #entries) distinct keys, in non-increasing total order, none smaller than an omitted key |
| TopTimers.TopTimerNames | core/src/main/java/org/glowroot/local/ui/TransactionJsonService.java:398-421 | returns a top-topX selection of the window's merged totals |
| TopTimers.GreatestOfWindow | core/src/main/java/org/glowroot/local/ui/TransactionJsonService.java:398-421 | a top selection names min(topX, #distinct recorded names) names, all recorded in the window |
| TopTimers.GreatestOfPrefix | core/src/main/java/org/glowroot/local/ui/TransactionJsonService.java:339-342 | the first n names of a top-(n+k) selection form a top-n selection, so asking for topX + 1 and keeping topX is sound |
| TopTimers.ElemsCard | core/src/main/java/org/glowroot/local/ui/TransactionJsonService.java:406-416 | helper of `TopTimers.GreatestOfRanksAgree`: a list has at most as many distinct elements as entries, exactly as many when repetition-free |
| TopTimers.GreaterIsAhead | core/src/main/java/org/glowroot/local/ui/TransactionJsonService.java:406-416 | a name with a strictly greater total than rank i is selected ahead of rank i |
| TopTimers.GreaterCount | core/src/main/java/org/glowroot/local/ui/TransactionJsonService.java:406-416 | at most i distinct names have a strictly greater total than rank i |
| TopTimers.NoGreaterAtRank | core/src/main/java/org/glowroot/local/ui/TransactionJsonService.java:406-416 | no top selection has a strictly greater total at a rank than another top selection of the same totals |
| TopTimers.GreatestOfRanksAgree | core/src/main/java/org/glowroot/local/ui/TransactionJsonService.java:406-416 | any two top selections of the same totals carry equal totals at every common rank: names may differ only among ties |
| MetricSeries.SeriesTimers | core/src/main/java/org/glowroot/local/ui/TransactionJsonService.java:341-343 | one timer name per series |
| MetricSeries.SeriesTimersOf | core/src/main/java/org/glowroot/local/ui/TransactionJsonService.java:341-343 | helper of `MetricSeries.MetricDataSeries`: the series opened for a list of names carry exactly those names, in order |
| MetricSeries.ZeroCountPrefix | core/src/main/java/org/glowroot/local/ui/TransactionJsonService.java:348-381 | helper of `MetricSeries.MetricDataSeries`: the zero-count condition holds for every prefix of the window |
| MetricSeries.PointsNext | core/src/main/java/org/glowroot/local/ui/TransactionJsonService.java:348-381 | handling one more stacked point appends exactly one value to each series, at that point's capture time |
| MetricSeries.AddNamedValues | core/src/main/java/org/glowroot/local/ui/TransactionJsonService.java:359-372 | each named series gets its timer's average seconds (0 when absent), and the remaining micros are the point's total minus the selected timers' micros |
| MetricSeries.OpenSeries | core/src/main/java/org/glowroot/local/ui/TransactionJsonService.java:341-343 | one empty named series per selected timer, in rank order |
| MetricSeries.MetricSeriesIntro | core/src/main/java/org/glowroot/local/ui/TransactionJsonService.java:339-386 | named series for a top selection followed by the "other" series form a metrics chart |
| MetricSeries.MetricDataSeries | core/src/main/java/org/glowroot/local/ui/TransactionJsonService.java:334-387 | the result is named series for a top-5 selection of the window's timers, in rank order, then the "other" series, last, each with its values at every point |
| MetricSeries.StackedPointsOf | core/src/main/java/org/glowroot/local/ui/TransactionJsonService.java:327-330 | one stacked point per aggregate |
| MetricSeries.StackedPointsOfAt | core/src/main/java/org/glowroot/local/ui/TransactionJsonService.java:327-330 | helper of `MetricSeries.MetricsChart`: the i-th stacked point is built from the i-th aggregate |
| MetricSeries.NoTopLevelContributions | core/src/main/java/org/glowroot/local/ui/TransactionJsonService.java:471-477 | with no timer below any real root, nothing is added |
| MetricSeries.NoTopLevelTimersEmpty | core/src/main/java/org/glowroot/local/ui/TransactionJsonService.java:466-479 | with no timer below any real root, the stacked map is empty |
| MetricSeries.MetricsChart | core/src/main/java/org/glowroot/local/ui/TransactionJsonService.java:322-332 | an empty window yields no series; otherwise the result is the metrics chart of the aggregates' stacked points |
| MetricSeries.NamedPointsAt | core/src/main/java/org/glowroot/local/ui/TransactionJsonService.java:359-369 | a named series has one value per point, at its capture time, equal to 0 when the timer is absent and to micros / transactionCount / 1e6 otherwise |
| MetricSeries.OtherPointsAt | core/src/main/java/org/glowroot/local/ui/TransactionJsonService.java:360-380 | the "other" series has one value per point, 0 when the point has no transactions, otherwise the remaining micros / transactionCount / 1e6 |
| MetricSeries.MetricSeriesLayout | core/src/main/java/org/glowroot/local/ui/TransactionJsonService.java:338-346 | min(5, #distinct timers) named series for distinct recorded timers in non-increasing total order, then exactly one "other" series, last |
| MetricSeries.MetricSeriesLengths | core/src/main/java/org/glowroot/local/ui/TransactionJsonService.java:348-381 | every series has exactly one value per stacked point |
| MetricSeries.AverageSecondsAdd | core/src/main/java/org/glowroot/local/ui/TransactionJsonService.java:366-379 | the average-seconds conversion is additive in the micros |
| MetricSeries.NamedSecondsSumIsAverage | core/src/main/java/org/glowroot/local/ui/TransactionJsonService.java:359-369 | the named values at a point sum to the selected timers' micros as average seconds |
| MetricSeries.StackedValuesAddUp | core/src/main/java/org/glowroot/local/ui/TransactionJsonService.java:360-380 | residual conservation: at a point with transactions, the named values plus the "other" value equal the point's total time as average seconds |
| MetricSeries.OtherIsRootTime | core/src/main/java/org/glowroot/local/ui/TransactionJsonService.java:344-345 | when every timer recorded at a point is selected, the "other" micros are exactly the time spent in the roots outside any top-level timer |
| FlameGraph.ChainEndIsFirstBranch | core/src/main/java/org/glowroot/local/ui/TransactionJsonService.java:259-262 | the loop's stopping node lies on the single-child chain, does not have one child, and is the first such node of the chain |
| FlameGraph.InterestingNodeChoice | core/src/main/java/org/glowroot/local/ui/TransactionJsonService.java:259-266 | the chosen node is the root or the chain's first node with at least two children, and the root whenever the chain ends in a leaf |
| FlameGraph.InterestingNode | core/src/main/java/org/glowroot/local/ui/TransactionJsonService.java:259-266 | the drill-down loop terminates and returns the node described by the two lemmas above |
| FlameGraph.WriteFlameGraphNode | core/src/main/java/org/glowroot/local/ui/TransactionJsonService.java:443-458 | emits the object tree of the node: svUnique = sampleCount − Σ child sampleCount, svTotal = sampleCount, children recursively in order |
| FlameGraph.WriteFlameGraph | core/src/main/java/org/glowroot/local/ui/TransactionJsonService.java:259-278 | the document is an unnamed envelope with svUnique 0 and the interesting node's samples, holding the interesting node's object |
| FlameGraph.FlameAllAt | core/src/main/java/org/glowroot/local/ui/TransactionJsonService.java:453-455 | children are emitted one per input child, in input order |
| FlameGraph.FlameAllTotal | core/src/main/java/org/glowroot/local/ui/TransactionJsonService.java:445-448 | the emitted children's svTotal sum to the children's sample counts |
| FlameGraph.FlameFaithful | core/src/main/java/org/glowroot/local/ui/TransactionJsonService.java:443-458 | every emitted object has its node's name and svTotal == sampleCount, keeps the children in order, and satisfies svTotal == svUnique + Σ child svTotal |
| FlameGraph.UniqueSumBalanced | core/src/main/java/org/glowroot/local/ui/TransactionJsonService.java:443-458 | in such a tree the svUnique of all objects add up to the top object's svTotal |
| FlameGraph.UniqueSumAllBalanced | core/src/main/java/org/glowroot/local/ui/TransactionJsonService.java:453-455 | the same, for a list of sibling objects |
| FlameGraph.FlameGraphFaithful | core/src/main/java/org/glowroot/local/ui/TransactionJsonService.java:270-274 | the envelope has svUnique 0 and svTotal = interesting node's samples, its one child mirrors the interesting node, and the whole document balances |
| Requests.IntervalsOf | core/src/main/java/org/glowroot/local/ui/TransactionJsonService.java:84-85 | the configured seconds are kept as whole milliseconds |
| Requests.DataPointIntervalMillis | core/src/main/java/org/glowroot/local/ui/TransactionJsonService.java:390-396 | the result is always one of the two configured intervals; `Requests.IntervalMonotone` and `Requests.IntervalByLength` state how it is chosen |
| Requests.IntervalMonotone | core/src/main/java/org/glowroot/local/ui/TransactionJsonService.java:390-396 | when rollups are no finer than aggregates, a wider window never gets a finer interval |
| Requests.IntervalByLength | core/src/main/java/org/glowroot/local/ui/TransactionJsonService.java:390-396 | the interval depends only on the window's length, not on where the window lies |
| Requests.ShouldIncludeActiveTraces | core/src/main/java/org/glowroot/local/ui/TransactionJsonService.java:423-427 | only a window that started before now includes active traces, and a window that ends no later than it starts never does |
| Requests.ActiveTracesLater | core/src/main/java/org/glowroot/local/ui/TransactionJsonService.java:423-427 | inclusion persists as the clock advances, as long as the window has not ended |
| Requests.EndedWindowExcludes | core/src/main/java/org/glowroot/local/ui/TransactionJsonService.java:423-427 | once the clock reaches a window's end, that window never includes active traces again |
| Requests.MatchesActive | core/src/main/java/org/glowroot/local/ui/TransactionJsonService.java:429-441 | a match is always a transaction the collector would store, of the requested type, and of the requested name when one is given |
| Requests.UnnamedMatchesMore | core/src/main/java/org/glowroot/local/ui/TransactionJsonService.java:436-439 | dropping the requested name never loses a match |
| Requests.ActiveCount | core/src/main/java/org/glowroot/local/ui/TransactionJsonService.java:228-233 | at most one counted trace per active transaction |
| Requests.ActiveCountAppend | core/src/main/java/org/glowroot/local/ui/TransactionJsonService.java:228-233 | the active count of two lists together is the sum of their counts |
| Requests.ActiveCountOfRequest | core/src/main/java/org/glowroot/local/ui/TransactionJsonService.java:228-233 | only transactions of the requested type and name are counted: dropping all others leaves the count unchanged, and the count is at most their number |
| Requests.SameNameDifferentDecision | core/src/main/java/org/glowroot/local/ui/TransactionJsonService.java:228-233 | the store decision is per transaction: of two running transactions with the same type and name, only the stored one counts |
| Requests.ActiveCountRemove | core/src/main/java/org/glowroot/local/ui/TransactionJsonService.java:228-233 | removing a transaction lowers the count by one if it counts (matching and not partially stored) and leaves it unchanged otherwise |
| Requests.TraceCount | core/src/main/java/org/glowroot/local/ui/TransactionJsonService.java:224-234 | the stored count plus, when the window reaches the present, one per matching active transaction not partially stored |
| Requests.TraceCountBounds | core/src/main/java/org/glowroot/local/ui/TransactionJsonService.java:224-234 | the trace count lies between the stored count and the stored count plus the number of active transactions, and equals the stored count when the window does not reach the present |

## Left out

- JSON emission (`JsonGenerator`), HTTP routing and `QueryStrings.decode` are not modelled. Results are Dafny values: `DataSeries` lists and `FlameNode` trees.
- Decoding the timers string with Jackson (line 469) and loading profiles are not modelled. The model takes the decoded `Timer` and `ProfileNode` trees as input. A malformed payload, which the source raises as an exception, is therefore not modelled.
- `DataSeriesHelper` (upslope, gap and downslope points, lines 350-357 and 382-385) is external code that is not part of this model. The series hold only the one real point per stacked point.
- `DataSeries` is an external mutable class. It is modelled as a value (name and sequence of points) that the loops rebuild.
- The overview chart's histogram percentiles (`LazyHistogram`), `AggregateMerging`, the transaction counts, summaries, profile and trace endpoints, and the trimming of the leftmost aggregate are external calls or JSON plumbing, and are not modelled.
- Storage and registry access (`TraceDao`, `TransactionCommonService`, `TransactionRegistry`, `shouldHaveTraces`, `shouldHaveProfiles`) is I/O and is not modelled. The registry's transaction list and the collector's `shouldStore` decision are parameters. `Requests.TraceCount` starts from the stored count as a parameter.
- The clock is a parameter (`now`). `AggregateDao.ROLLUP_THRESHOLD_MILLIS` is not part of this model and is a parameter too.
- Duplicate JSON field names among sibling flame objects (two children with the same stack frame) are not modelled; children are a sequence.
- Chart values are exact `real` numbers, not IEEE doubles. Rounding and `NaN`/`Infinity` are not modelled.
- Java `long` and `int` overflow are not modelled: micros, sample counts and counters are unbounded integers.
- MetricSeries.MetricDataSeries: requires that a stacked point without transactions records no timer time. The source would divide by zero in double arithmetic for a selected timer present at such a point (line 368), yielding Infinity or NaN, and that outcome has no `real` counterpart. MetricSeries.MetricsChart states the same condition on the aggregates: no timer below a real root when the transaction count is 0.
- TopTimers.GreatestOf: does not fix the order among equal totals. `Ordering.greatestOf` over a hash map's entries fixes some order, but the source does not define it. The contract allows any choice and order among ties, and `TopTimers.GreatestOfRanksAgree` shows all such choices agree on the totals at every rank.
